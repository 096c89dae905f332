/** The per-endpoint spot queue of relay/queue.py as operations on values.

    The classes in EndpointQueue.dfy update their fields in place; each of their
    methods is proved to do to the abstract state exactly what the function of the
    same name does here. The properties of the queue are proved about these functions.
 */
module QueueModel {
  datatype Option<+T> = None | Some(value: T)

  /** (client, session id); "unknown" is the client without a status API. */
  datatype Key = Key(client: string, sessionId: string)

  predicate Known(k: Key) {
    k.client != "unknown"
  }

  datatype Status = Busy | Idle | Waiting | Retry

  const STATUS_UNREACHABLE_GRACE: real := 30.0

  datatype Config = Config(
    maxSpots: nat,
    cap: int,               // in-flight requests per session; negative: unlimited
    busyWindow: real,
    expiry: real,
    atomic: bool,
    immediateIdle: bool)

  datatype SessionState = SessionState(
    lastRequestAt: real,
    inflight: int,
    waiting: int,
    spotHeld: bool,
    shared: Option<Key>,
    idleSince: Option<real>,
    status: Status,
    clientStatus: Option<Status>,
    clientStatusAt: real)

  /** A queued request. The admission number stands for the identity of the entry object. */
  datatype Ticket = Ticket(id: nat, key: Key)

  /** A request that was waiting ahead of a promoted one, as it stood at that moment. */
  datatype Passed = Passed(ticket: Ticket, live: bool, inflight: int)

  datatype Promotion = Promotion(ticket: Ticket, newSpot: bool, passed: seq<Passed>)

  /** `running`, `nextId` and `log` are history: the promoted requests whose caller has
      not released them, the number of admissions, and all promotions in order. */
  datatype QueueState = QueueState(
    cfg: Config,
    ready: bool,
    sessions: map<Key, SessionState>,
    order: seq<Key>,         // insertion order of the sessions dictionary
    spots: set<Key>,
    queue: seq<Ticket>,
    inflightTotal: int,
    running: seq<Ticket>,
    nextId: nat,
    log: seq<Promotion>)

  function Initial(cfg: Config): QueueState {
    QueueState(cfg, false, map[], [], {}, [], 0, [], 0, [])
  }

  // ---------------------------------------------------------------- tickets

  function Count(s: seq<Ticket>, k: Key): (n: nat)
    ensures n > 0 <==> exists t :: t in s && t.key == k
  {
    if s == [] then 0
    else
      var n := (if s[0].key == k then 1 else 0) + Count(s[1..], k);
      assert s[0] in s && forall t :: t in s <==> t == s[0] || t in s[1..];
      n
  }

  lemma {:induction false} CountConcat(a: seq<Ticket>, b: seq<Ticket>, k: Key)
    ensures Count(a + b, k) == Count(a, k) + Count(b, k)
  {
    if a == [] {
      assert a + b == b;
    } else {
      CountConcat(a[1..], b, k);
      assert (a + b)[1..] == a[1..] + b;
    }
  }

  function RemoveAt<T>(s: seq<T>, i: nat): (r: seq<T>)
    requires i < |s|
    ensures |r| == |s| - 1
    ensures forall j {:trigger r[j]} :: 0 <= j < |r| ==> r[j] == s[if j < i then j else j + 1]
  {
    s[..i] + s[i + 1..]
  }

  lemma RemoveAtMembers<T>(s: seq<T>, i: nat)
    requires i < |s|
    ensures forall t :: t in RemoveAt(s, i) ==> t in s
    ensures forall t :: t in s && t != s[i] ==> t in RemoveAt(s, i)
  {
    assert s == s[..i] + [s[i]] + s[i + 1..];
  }

  lemma CountRemoveAt(s: seq<Ticket>, i: nat)
    requires i < |s|
    ensures forall k {:trigger Count(RemoveAt(s, i), k)} ::
              Count(RemoveAt(s, i), k) == Count(s, k) - (if s[i].key == k then 1 else 0)
  {
    forall k
      ensures Count(RemoveAt(s, i), k) == Count(s, k) - (if s[i].key == k then 1 else 0)
    {
      CountConcat(s[..i], [s[i]], k);
      CountConcat(s[..i] + [s[i]], s[i + 1..], k);
      CountConcat(s[..i], s[i + 1..], k);
      assert s == s[..i] + [s[i]] + s[i + 1..];
    }
  }

  lemma CountAppend(s: seq<Ticket>, t: Ticket)
    ensures forall k {:trigger Count(s + [t], k)} ::
              Count(s + [t], k) == Count(s, k) + (if t.key == k then 1 else 0)
  {
    forall k
      ensures Count(s + [t], k) == Count(s, k) + (if t.key == k then 1 else 0)
    {
      CountConcat(s, [t], k);
    }
  }

  lemma NoMembers<T>(s: seq<T>)
    ensures (forall t :: t !in s) ==> s == []
  {
    assert |s| > 0 ==> s[0] in s;
  }

  /** The first position of t, the one `deque.remove` takes. */
  function IndexOf<T(==)>(s: seq<T>, t: T): (i: nat)
    requires t in s
    ensures i < |s| && s[i] == t
    ensures forall j :: 0 <= j < i ==> s[j] != t
  {
    if s[0] == t then 0 else 1 + IndexOf(s[1..], t)
  }

  /** The queue's own accounting, without which the operations below are undefined: every
      waiting request has its session registered and counted in `waiting`. */
  ghost predicate Wf(q: QueueState) {
    && (forall t :: t in q.queue ==> t.key in q.sessions)
    && (forall k :: k in q.sessions ==> q.sessions[k].waiting == Count(q.queue, k))
  }

  // ------------------------------------------------------------- eligibility

  function SpotKey(q: QueueState, k: Key): Option<Key>
    requires k in q.sessions
  {
    var shared := q.sessions[k].shared;
    if k in q.spots then Some(k)
    else if shared.Some? && shared.value in q.spots then shared
    else None
  }

  predicate Live(q: QueueState, k: Key)
    requires k in q.sessions
  {
    SpotKey(q, k).Some?
  }

  predicate AtCap(q: QueueState, k: Key)
    requires k in q.sessions
  {
    q.cfg.cap >= 0 && q.sessions[k].inflight >= q.cfg.cap
  }

  predicate Eligible(q: QueueState, k: Key)
    requires k in q.sessions
  {
    if q.cfg.atomic && q.inflightTotal > 0 then false
    else if Live(q, k) then !AtCap(q, k)
    else |q.spots| < q.cfg.maxSpots
  }

  /** The scan of the promotion loop: the first eligible request from position i on. */
  function FirstEligible(q: QueueState, i: nat): (f: nat)
    requires forall t :: t in q.queue ==> t.key in q.sessions
    requires i <= |q.queue|
    ensures i <= f <= |q.queue|
    ensures f < |q.queue| ==> Eligible(q, q.queue[f].key)
    ensures forall j :: i <= j < f ==> !Eligible(q, q.queue[j].key)
    decreases |q.queue| - i
  {
    if i == |q.queue| || Eligible(q, q.queue[i].key) then i else FirstEligible(q, i + 1)
  }

  /** Ready implies that no waiting request could run now. */
  ghost predicate Settled(q: QueueState)
    requires Wf(q)
  {
    q.ready ==> forall t :: t in q.queue ==> !Eligible(q, t.key)
  }

  // --------------------------------------------------------------- promotion

  function Overtaken(q: QueueState, i: nat): (r: seq<Passed>)
    requires i <= |q.queue|
    requires forall t :: t in q.queue ==> t.key in q.sessions
    ensures |r| == i
    ensures forall j :: 0 <= j < i ==>
              r[j] == Passed(q.queue[j], Live(q, q.queue[j].key), q.sessions[q.queue[j].key].inflight)
  {
    if i == 0 then []
    else
      var k := q.queue[i - 1].key;
      Overtaken(q, i - 1) + [Passed(q.queue[i - 1], Live(q, k), q.sessions[k].inflight)]
  }

  function PromoteAt(q: QueueState, i: nat): (r: QueueState)
    requires Wf(q)
    requires i < |q.queue|
    ensures Wf(r)
    ensures r.sessions.Keys == q.sessions.Keys
    ensures |r.queue| == |q.queue| - 1
  {
    var t := q.queue[i];
    var s := q.sessions[t.key];
    var newSpot := !Live(q, t.key);
    CountRemoveAt(q.queue, i);
    RemoveAtMembers(q.queue, i);
    q.(queue := RemoveAt(q.queue, i),
       running := q.running + [t],
       inflightTotal := q.inflightTotal + 1,
       spots := if newSpot then q.spots + {t.key} else q.spots,
       sessions := q.sessions[t.key := s.(waiting := s.waiting - 1,
                                          inflight := s.inflight + 1,
                                          idleSince := None,
                                          spotHeld := newSpot || s.spotHeld,
                                          status := Busy)],
       log := q.log + [Promotion(t, newSpot, Overtaken(q, i))])
  }

  /** Promote the first eligible request and rescan from the front, until none is left. */
  function PromoteLoop(q: QueueState): (r: QueueState)
    requires Wf(q)
    ensures Wf(r)
    ensures r.sessions.Keys == q.sessions.Keys
    ensures forall t :: t in r.queue ==> !Eligible(r, t.key)
    decreases |q.queue|
  {
    var f := FirstEligible(q, 0);
    if f == |q.queue| then q else PromoteLoop(PromoteAt(q, f))
  }

  function TryPromote(q: QueueState): (r: QueueState)
    requires Wf(q)
    ensures Wf(r) && Settled(r)
    ensures r.sessions.Keys == q.sessions.Keys
  {
    if q.ready then PromoteLoop(q) else q
  }

  // --------------------------------------------------- sessions and requests

  /** get_or_create_session: a new request revives a session in its idle countdown. */
  function Register(q: QueueState, k: Key, now: real): (r: QueueState)
    requires Wf(q)
    ensures Wf(r) && k in r.sessions
  {
    if k in q.sessions then
      q.(sessions := q.sessions[k := q.sessions[k].(lastRequestAt := now, idleSince := None)])
    else
      q.(sessions := q.sessions[k := SessionState(now, 0, 0, false, None, None, Busy, None, 0.0)],
         order := q.order + [k])
  }

  function Join(q: QueueState, k: Key): (r: QueueState)
    requires Wf(q) && k in q.sessions
    ensures Wf(r)
    ensures r.sessions.Keys == q.sessions.Keys
  {
    var t := Ticket(q.nextId, k);
    CountAppend(q.queue, t);
    q.(queue := q.queue + [t],
       nextId := q.nextId + 1,
       sessions := q.sessions[k := q.sessions[k].(waiting := q.sessions[k].waiting + 1)])
  }

  function Enqueue(q: QueueState, k: Key): (r: QueueState)
    requires Wf(q) && k in q.sessions
    ensures Wf(r) && Settled(r)
  {
    TryPromote(Join(q, k))
  }

  function Admit(q: QueueState, k: Key, now: real): (r: QueueState)
    requires Wf(q)
    ensures Wf(r) && Settled(r)
  {
    Enqueue(Register(q, k, now), k)
  }

  function Max(a: int, b: int): int {
    if a >= b then a else b
  }

  /** _remove_waiting for a request that is in the queue. */
  function Leave(q: QueueState, t: Ticket): (r: QueueState)
    requires Wf(q) && t in q.queue
    ensures Wf(r)
    ensures r.sessions.Keys == q.sessions.Keys
  {
    var i := IndexOf(q.queue, t);
    var s := q.sessions[t.key];
    CountRemoveAt(q.queue, i);
    RemoveAtMembers(q.queue, i);
    q.(queue := RemoveAt(q.queue, i),
       sessions := q.sessions[t.key := s.(waiting := Max(0, s.waiting - 1))])
  }

  /** A promoted request is left alone: its caller has to release it. */
  function Abandon(q: QueueState, t: Ticket): (r: QueueState)
    requires Wf(q) && (t in q.queue || t in q.running)
    ensures Wf(r)
  {
    if t in q.running then q else Leave(q, t)
  }

  function Finish(q: QueueState, t: Ticket, now: real): (r: QueueState)
    requires Wf(q) && t in q.running && t.key in q.sessions
    ensures Wf(r)
    ensures r.sessions.Keys == q.sessions.Keys
  {
    var s := q.sessions[t.key];
    q.(running := RemoveAt(q.running, IndexOf(q.running, t)),
       inflightTotal := if s.inflight > 0 then Max(0, q.inflightTotal - 1) else q.inflightTotal,
       sessions := q.sessions[t.key := s.(inflight := if s.inflight > 0 then s.inflight - 1 else s.inflight,
                                          lastRequestAt := now)])
  }

  function Release(q: QueueState, t: Ticket, now: real): (r: QueueState)
    requires Wf(q) && t in q.running && t.key in q.sessions
    ensures Wf(r) && Settled(r)
  {
    TryPromote(Finish(q, t, now))
  }

  // ------------------------------------------------------- status and expiry

  predicate FreshReport(s: SessionState, now: real) {
    s.clientStatus.Some? && s.clientStatusAt > 0.0 && now - s.clientStatusAt < STATUS_UNREACHABLE_GRACE
  }

  function CurrentStatus(cfg: Config, k: Key, s: SessionState, now: real): Status {
    if s.inflight > 0 then Busy
    else if Known(k) then
      if s.clientStatus.Some? && now - s.clientStatusAt < STATUS_UNREACHABLE_GRACE
      then s.clientStatus.value
      else Idle
    else if now - s.lastRequestAt < cfg.busyWindow then Busy
    else Idle
  }

  function MaxReal(a: real, b: real): real {
    if a >= b then a else b
  }

  function ReleaseDeadline(cfg: Config, k: Key, s: SessionState, now: real): Option<real> {
    if s.inflight > 0 then None
    else if Known(k) then
      if (s.status != Idle && s.status != Waiting) || s.idleSince.None? then None
      else if s.status == Waiting then
        if FreshReport(s, now) then s.idleSince else Some(s.idleSince.value + cfg.expiry)
      else if cfg.immediateIdle && s.clientStatus == Some(Idle) && FreshReport(s, now)
              && s.clientStatusAt > s.lastRequestAt
      then s.idleSince
      else Some(s.idleSince.value + cfg.expiry)
    else Some(s.lastRequestAt + MaxReal(cfg.busyWindow, cfg.expiry))
  }

  /** The status part of a tick. */
  function Refreshed(cfg: Config, k: Key, s: SessionState, now: real): SessionState {
    var status := CurrentStatus(cfg, k, s, now);
    s.(status := status,
       idleSince := if status == Idle || status == Waiting
                    then (if s.idleSince.None? then Some(now) else s.idleSince)
                    else None)
  }

  predicate Due(cfg: Config, k: Key, s: SessionState, now: real) {
    var deadline := ReleaseDeadline(cfg, k, s, now);
    deadline.Some? && now >= deadline.value
  }

  function Refresh(q: QueueState, k: Key, now: real): (r: QueueState)
    requires Wf(q) && k in q.sessions
    ensures Wf(r)
    ensures r.sessions.Keys == q.sessions.Keys
  {
    q.(sessions := q.sessions[k := Refreshed(q.cfg, k, q.sessions[k], now)])
  }

  function WithoutKey(order: seq<Key>, k: Key): (r: seq<Key>)
    ensures forall x :: x in r <==> x in order && x != k
  {
    if order == [] then []
    else if order[0] == k then WithoutKey(order[1..], k)
    else [order[0]] + WithoutKey(order[1..], k)
  }

  /** The session record is dropped from the dictionary. */
  function Forget(q: QueueState, k: Key): (r: QueueState)
    requires Wf(q) && k in q.sessions && q.sessions[k].waiting == 0
    ensures Wf(r)
    ensures r.sessions.Keys == q.sessions.Keys - {k}
  {
    q.(sessions := q.sessions - {k}, order := WithoutKey(q.order, k))
  }

  /** _release_spot up to its call of _try_promote. */
  function Surrender(q: QueueState, k: Key): (r: QueueState)
    requires Wf(q) && k in q.sessions
    ensures Wf(r)
    ensures r.sessions.Keys == q.sessions.Keys || r.sessions.Keys == q.sessions.Keys - {k}
  {
    var s := q.sessions[k];
    var freed := q.(spots := q.spots - {k},
                    sessions := q.sessions[k := s.(spotHeld := false, idleSince := None)]);
    if s.waiting == 0 && s.inflight == 0 then Forget(freed, k) else freed
  }

  function ReleaseSpot(q: QueueState, k: Key): (r: QueueState)
    requires Wf(q) && k in q.sessions
    ensures Wf(r) && Settled(r)
    ensures forall x :: x in q.sessions && x != k ==> x in r.sessions
  {
    TryPromote(Surrender(q, k))
  }

  predicate HoldsSpot(q: QueueState, k: Key) {
    k in q.sessions && q.sessions[k].spotHeld
  }

  /** The manual release; the source's True is HoldsSpot(q, k). */
  function ReleaseSession(q: QueueState, k: Key): (r: QueueState)
    requires Wf(q)
    ensures Wf(r)
  {
    if HoldsSpot(q, k) then ReleaseSpot(q, k) else q
  }

  predicate TickFrees(q: QueueState, k: Key, now: real)
    requires k in q.sessions
  {
    q.sessions[k].spotHeld && Due(q.cfg, k, Refreshed(q.cfg, k, q.sessions[k], now), now)
  }

  /** One turn of the tick loop. */
  function TickOne(q: QueueState, k: Key, now: real): (r: QueueState)
    requires Wf(q) && k in q.sessions
    ensures Wf(r)
    ensures forall x :: x in q.sessions && x != k ==> x in r.sessions
  {
    var p := Refresh(q, k, now);
    var s := q.sessions[k];
    if TickFrees(q, k, now) then ReleaseSpot(p, k)
    else if !s.spotHeld && s.waiting == 0 && s.inflight == 0 then Forget(p, k)
    else p
  }

  predicate NoDup<T(==)>(s: seq<T>) {
    forall i, j :: 0 <= i < j < |s| ==> s[i] != s[j]
  }

  /** The tick loop over a snapshot of the dictionary, and the keys whose spot it freed. */
  function TickOver(q: QueueState, keys: seq<Key>, now: real): (r: (QueueState, seq<Key>))
    requires Wf(q) && NoDup(keys) && forall k :: k in keys ==> k in q.sessions
    ensures Wf(r.0)
    decreases |keys|
  {
    if keys == [] then (q, [])
    else
      assert forall k :: k in keys[1..] ==> k in keys && k != keys[0];
      var rest := TickOver(TickOne(q, keys[0], now), keys[1..], now);
      (rest.0, (if TickFrees(q, keys[0], now) then [keys[0]] else []) + rest.1)
  }

  ghost predicate OrderOf(q: QueueState) {
    NoDup(q.order) && forall k :: k in q.order <==> k in q.sessions
  }

  function Tick(q: QueueState, now: real): (r: (QueueState, seq<Key>))
    requires Wf(q) && OrderOf(q)
    ensures Wf(r.0)
  {
    TickOver(q, q.order, now)
  }

  predicate HasActivity(q: QueueState) {
    q.queue != [] || q.spots != {}
  }

  // ----------------------------------------------- steps driven from outside

  /** Any assignment to `ready` (readiness probe). */
  function SetReady(q: QueueState, on: bool): (r: QueueState)
    requires Wf(q)
    ensures Wf(r)
  {
    q.(ready := on)
  }

  /** The poller's recomputed shared spot of a session. */
  function SetShared(q: QueueState, k: Key, with: Option<Key>): (r: QueueState)
    requires Wf(q) && k in q.sessions
    ensures Wf(r)
  {
    q.(sessions := q.sessions[k := q.sessions[k].(shared := with)])
  }

  /** A status report of the client's own API. */
  function Report(q: QueueState, k: Key, status: Status, at: real): (r: QueueState)
    requires Wf(q) && k in q.sessions
    ensures Wf(r)
  {
    q.(sessions := q.sessions[k := q.sessions[k].(clientStatus := Some(status), clientStatusAt := at)])
  }

  /** The manager's last step: promote if requests wait and the endpoint is ready. */
  function Poke(q: QueueState): (r: QueueState)
    requires Wf(q)
    ensures Wf(r)
  {
    if q.queue != [] && q.ready then TryPromote(q) else q
  }
}
