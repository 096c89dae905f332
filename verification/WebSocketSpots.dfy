/** Spots held by WebSocket connections share the capacity of the queue.

    A connection that waits long enough for a spot may find its session record forgotten by
    a tick; it then goes on with a stale object, of which only the effect on the spots shows.
 */
module WebSocketSpots {
  import opened QueueModel
  import opened QueueSteps
  import opened QueueInvariants
  import opened QueueRuns
  import opened QueueTheorems

  /** held: one occurrence of a key for each open connection counted in that session record. */
  datatype WsState = WsState(q: QueueState, held: multiset<Key>)

  datatype WsEvent =
    | Http(ev: Event)
    | WsRegister(key: Key, now: real)
    | WsTake(key: Key)                                // one round of _hold_ws_spot
    | WsTakeStale(key: Key, shared: Option<Key>)      // the same with a stale session object
    | WsGive(key: Key)                                // _release_ws_spot
    | WsGiveStale(key: Key)

  ghost predicate WsLegal(s: WsState, ev: WsEvent) {
    match ev
    case Http(e) => Legal(s.q, e)
    case WsTake(k) => k in s.q.sessions
    case WsGive(k) => k in s.held && k in s.q.sessions
    case _ => true
  }

  /** Own or shared live spot, else a free one, else no spot this round. */
  predicate GetsSpot(q: QueueState, k: Key)
    requires k in q.sessions
  {
    Live(q, k) || |q.spots| < q.cfg.maxSpots
  }

  function Take(s: WsState, k: Key): WsState
    requires Wf(s.q) && k in s.q.sessions
  {
    if !GetsSpot(s.q, k) then s
    else
      var entry := s.q.sessions[k];
      var takesNew := !Live(s.q, k);
      WsState(s.q.(spots := if takesNew then s.q.spots + {k} else s.q.spots,
                   sessions := s.q.sessions[k := entry.(inflight := entry.inflight + 1,
                                                      spotHeld := takesNew || entry.spotHeld)]),
              s.held + multiset{k})
  }

  function TakeStale(s: WsState, k: Key, shared: Option<Key>): WsState {
    if k in s.q.spots || (shared.Some? && shared.value in s.q.spots) || |s.q.spots| >= s.q.cfg.maxSpots then s
    else s.(q := s.q.(spots := s.q.spots + {k}))
  }

  /** The record's own part of closing a tracked connection. */
  function Drop(s: WsState, k: Key): (r: WsState)
    requires Wf(s.q) && k in s.q.sessions
    ensures Wf(r.q)
  {
    var entry := s.q.sessions[k];
    var left := entry.(inflight := if entry.inflight > 0 then entry.inflight - 1 else entry.inflight);
    var given := if k in s.q.spots then left.(spotHeld := false) else left;
    WsState(s.q.(spots := s.q.spots - {k}, sessions := s.q.sessions[k := given]), s.held - multiset{k})
  }

  function Give(s: WsState, k: Key): WsState
    requires Wf(s.q) && k in s.q.sessions
  {
    var r := Drop(s, k);
    if k in s.q.spots then r.(q := TryPromote(r.q)) else r
  }

  function GiveStale(s: WsState, k: Key): WsState
    requires Wf(s.q)
  {
    if k in s.q.spots then s.(q := TryPromote(s.q.(spots := s.q.spots - {k}))) else s
  }

  function WsStep(s: WsState, ev: WsEvent): WsState
    requires Wf(s.q) && OrderOf(s.q) && WsLegal(s, ev)
  {
    match ev
    case Http(e) => s.(q := Step(s.q, e))
    case WsRegister(k, now) => s.(q := Register(s.q, k, now))
    case WsTake(k) => Take(s, k)
    case WsTakeStale(k, shared) => TakeStale(s, k, shared)
    case WsGive(k) => Give(s, k)
    case WsGiveStale(k) => GiveStale(s, k)
  }

  lemma TryPromoteKeepsBooks(q: QueueState, ws: multiset<Key>)
    requires Books(q, ws)
    ensures Books(TryPromote(q), ws)
  {
    hide TryPromote, Trace, After, OrderOf;
    NoAtoms(q);
    var atoms := TryPromoteTrace(q, []);
    TraceKeepsBooks(q, atoms, ws);
  }

  lemma TakeKeepsBooks(s: WsState, k: Key)
    requires Books(s.q, s.held) && k in s.q.sessions
    ensures Books(Take(s, k).q, Take(s, k).held)
  {
    hide Count, OrderOf, SpotKey;
    var r := Take(s, k);
    assert r.q.sessions.Keys == s.q.sessions.Keys;
    SameOrder(s.q, r.q);
  }

  lemma SameOrder(q: QueueState, r: QueueState)
    requires OrderOf(q) && r.order == q.order && r.sessions.Keys == q.sessions.Keys
    ensures OrderOf(r)
  {
  }

  lemma DropKeepsBooks(s: WsState, k: Key)
    requires Books(s.q, s.held) && k in s.held && k in s.q.sessions
    ensures Books(Drop(s, k).q, Drop(s, k).held)
  {
    hide Count, OrderOf;
    SameOrder(s.q, Drop(s, k).q);
    assert s.q.sessions[k].inflight > 0;
  }

  lemma WsStepKeepsBooks(s: WsState, ev: WsEvent)
    requires Books(s.q, s.held) && WsLegal(s, ev)
    ensures Books(WsStep(s, ev).q, WsStep(s, ev).held)
  {
    hide Step, Trace, After, OrderOf, Take, Drop, TryPromote, Register, Legal, Count, GetsSpot, Live, SpotKey;
    match ev
    case Http(e) =>
      var atoms := EventTrace(s.q, e, s.held);
      TraceKeepsBooks(s.q, atoms, s.held);
    case WsRegister(k, now) => RegisterKeepsBooks(s.q, k, now, s.held);
    case WsTake(k) => TakeKeepsBooks(s, k);
    case WsTakeStale(k, shared) => SpotsKeepBooks(s.q, TakeStale(s, k, shared).q.spots, s.held);
    case WsGive(k) =>
      DropKeepsBooks(s, k);
      TryPromoteKeepsBooks(Drop(s, k).q, Drop(s, k).held);
    case WsGiveStale(k) =>
      SpotsKeepBooks(s.q, s.q.spots - {k}, s.held);
      TryPromoteKeepsBooks(s.q.(spots := s.q.spots - {k}), s.held);
  }

  lemma SpotsKeepBooks(q: QueueState, spots: set<Key>, ws: multiset<Key>)
    requires Books(q, ws) && |spots| <= q.cfg.maxSpots
    ensures Books(q.(spots := spots), ws)
  {
    hide Count;
  }

  /** A connection starts exactly when its session is on a spot or one is free; it takes a spot
      only when it has none, and is then counted once. */
  lemma TakeIff(s: WsState, k: Key)
    requires Books(s.q, s.held) && k in s.q.sessions
    ensures var r := Take(s, k);
      if OnSpot(s.q, k) || |s.q.spots| < s.q.cfg.maxSpots then
        && OnSpot(r.q, k) && r.held == s.held + multiset{k}
        && r.q.sessions[k].inflight == s.q.sessions[k].inflight + 1
        && r.q.spots == (if OnSpot(s.q, k) then s.q.spots else s.q.spots + {k})
        && r.q.sessions[k].spotHeld == (s.q.sessions[k].spotHeld || !OnSpot(s.q, k))
      else r == s
  {
    hide Count, OrderOf;
    EligibleIsNotHeldBack(s.q, k);
  }

  /** Closing a connection undoes its count, gives the session's own spot away, and leaves
      nobody waiting who could have it. */
  lemma GiveFreesSpot(s: WsState, k: Key)
    requires Books(s.q, s.held) && k in s.held && k in s.q.sessions
    ensures Drop(s, k).held == s.held - multiset{k} && Drop(s, k).q.spots == s.q.spots - {k}
    ensures Drop(s, k).q.sessions[k].inflight == s.q.sessions[k].inflight - 1
    ensures k in s.q.spots ==> !Drop(s, k).q.sessions[k].spotHeld
    ensures k in s.q.spots ==> Wf(Give(s, k).q) && Settled(Give(s, k).q) && Give(s, k).held == s.held - multiset{k}
    ensures k !in s.q.spots ==> Give(s, k) == Drop(s, k)
  {
    hide Count, OrderOf;
    assert s.q.sessions[k].inflight > 0;
  }

  // ------------------------------------------------------------------- runs

  ghost predicate WsRun(s: WsState, evs: seq<WsEvent>)
    requires Books(s.q, s.held)
    decreases |evs|
  {
    evs == [] ||
    (WsLegal(s, evs[0]) &&
     (WsStepKeepsBooks(s, evs[0]);
      WsRun(WsStep(s, evs[0]), evs[1..])))
  }

  ghost function WsEnd(s: WsState, evs: seq<WsEvent>): (r: WsState)
    requires Books(s.q, s.held) && WsRun(s, evs)
    ensures Books(r.q, r.held)
    decreases |evs|
  {
    if evs == [] then s
    else
      WsStepKeepsBooks(s, evs[0]);
      WsEnd(WsStep(s, evs[0]), evs[1..])
  }

  lemma WsStart(cfg: Config)
    ensures Books(Initial(cfg), multiset{})
  {
  }

  ghost predicate WsStarted(cfg: Config, evs: seq<WsEvent>) {
    WsStart(cfg);
    WsRun(WsState(Initial(cfg), multiset{}), evs)
  }

  ghost function WsReached(cfg: Config, evs: seq<WsEvent>): (r: WsState)
    requires WsStarted(cfg, evs)
    ensures Books(r.q, r.held)
  {
    WsStart(cfg);
    WsEnd(WsState(Initial(cfg), multiset{}), evs)
  }

  lemma WsStepKeepsConfig(s: WsState, ev: WsEvent)
    requires Books(s.q, s.held) && WsLegal(s, ev)
    ensures WsStep(s, ev).q.cfg == s.q.cfg
  {
    hide Step, Trace, After, OrderOf, TryPromote, Legal, Count, SpotKey;
    match ev
    case Http(e) =>
      var atoms := EventTrace(s.q, e, s.held);
      TraceKeepsConfig(s.q, atoms);
    case WsGive(k) => TryPromoteConfig(Drop(s, k).q);
    case WsGiveStale(k) => TryPromoteConfig(s.q.(spots := s.q.spots - {k}));
    case _ =>
  }

  lemma TryPromoteConfig(q: QueueState)
    requires Wf(q)
    ensures TryPromote(q).cfg == q.cfg
  {
    hide TryPromote, Trace, After;
    NoAtoms(q);
    var atoms := TryPromoteTrace(q, []);
    TraceKeepsConfig(q, atoms);
  }

  lemma {:induction false} WsRunKeepsConfig(s: WsState, evs: seq<WsEvent>)
    requires Books(s.q, s.held) && WsRun(s, evs)
    ensures WsEnd(s, evs).q.cfg == s.q.cfg
    decreases |evs|
  {
    hide WsStep, WsLegal, Wf, OrderOf;
    if evs != [] {
      WsStepKeepsConfig(s, evs[0]);
      WsStepKeepsBooks(s, evs[0]);
      WsRunKeepsConfig(WsStep(s, evs[0]), evs[1..]);
    }
  }

  /** Over all HTTP and WebSocket steps, sharing, manual releases and stale session objects
      included, the spots never exceed the capacity, and in atomic mode at most one queued
      request is in flight. */
  lemma CapacityWithWebSockets(cfg: Config, evs: seq<WsEvent>)
    requires WsStarted(cfg, evs)
    ensures var q := WsReached(cfg, evs).q;
      |q.spots| <= cfg.maxSpots && (cfg.atomic ==> |q.running| <= 1 && q.inflightTotal == |q.running|)
  {
    WsStart(cfg);
    WsRunKeepsConfig(WsState(Initial(cfg), multiset{}), evs);
  }
}
