/** What every atom of the queue keeps. */
module QueueInvariants {
  import opened QueueModel
  import opened QueueSteps

  // ------------------------------------------------------------- bookkeeping

  lemma WithoutKeyNoDup(order: seq<Key>, k: Key)
    requires NoDup(order)
    ensures NoDup(WithoutKey(order, k))
  {
    if order != [] {
      assert forall x :: x in order[1..] ==> x != order[0];
      WithoutKeyNoDup(order[1..], k);
      assert order[0] !in WithoutKey(order[1..], k);
    }
  }

  lemma PromoteKeepsBooks(q: QueueState, i: nat, ws: multiset<Key>)
    requires Books(q, ws) && i < |q.queue| && Eligible(q, q.queue[i].key)
    ensures Books(PromoteAt(q, i), ws)
  {
    CountAppend(q.running, q.queue[i]);
  }

  lemma FinishKeepsBooks(q: QueueState, t: Ticket, now: real, ws: multiset<Key>)
    requires Books(q, ws) && t in q.running
    ensures Books(Finish(q, t, now), ws)
    ensures q.sessions[t.key].inflight > 0 && q.inflightTotal > 0
  {
    var i := IndexOf(q.running, t);
    CountRemoveAt(q.running, i);
    RemoveAtMembers(q.running, i);
  }

  lemma ForgetKeepsBooks(q: QueueState, k: Key, ws: multiset<Key>)
    requires Books(q, ws) && k in q.sessions
    requires q.sessions[k].waiting == 0 && q.sessions[k].inflight == 0
    ensures Books(Forget(q, k), ws)
  {
    WithoutKeyNoDup(q.order, k);
  }

  lemma FewerSpotsKeepBooks(q: QueueState, k: Key, ws: multiset<Key>)
    requires Books(q, ws)
    ensures Books(q.(spots := q.spots - {k}), ws)
  {
    hide Count;
  }

  lemma SurrenderKeepsBooks(q: QueueState, k: Key, ws: multiset<Key>)
    requires Books(q, ws) && k in q.sessions
    ensures Books(Surrender(q, k), ws)
  {
    hide Count, WithoutKey, Wf, OrderOf;
    var s := q.sessions[k];
    UpdateKeepsBooks(q, k, s.(spotHeld := false, idleSince := None), ws);
    var unheld := q.(sessions := q.sessions[k := s.(spotHeld := false, idleSince := None)]);
    FewerSpotsKeepBooks(unheld, k, ws);
    var freed := unheld.(spots := q.spots - {k});
    if s.waiting == 0 && s.inflight == 0 {
      ForgetKeepsBooks(freed, k, ws);
    }
  }

  lemma RegisterKeepsBooks(q: QueueState, k: Key, now: real, ws: multiset<Key>)
    requires Books(q, ws)
    ensures Books(Register(q, k, now), ws)
  {
    if k in q.sessions {
      UpdateKeepsBooks(q, k, q.sessions[k].(lastRequestAt := now, idleSince := None), ws);
    } else {
      NewSessionBooks(q, k, now, ws);
    }
  }

  lemma NewSessionBooks(q: QueueState, k: Key, now: real, ws: multiset<Key>)
    requires Books(q, ws) && k !in q.sessions
    ensures Books(Register(q, k, now), ws)
  {
    assert Count(q.queue, k) == 0 && Count(q.running, k) == 0;
    hide Count;
  }

  lemma JoinKeepsBooks(q: QueueState, k: Key, ws: multiset<Key>)
    requires Books(q, ws) && k in q.sessions
    ensures Books(Join(q, k), ws)
  {
  }

  lemma LeaveKeepsBooks(q: QueueState, t: Ticket, ws: multiset<Key>)
    requires Books(q, ws) && t in q.queue
    ensures Books(Leave(q, t), ws)
    ensures q.sessions[t.key].waiting > 0
  {
  }

  /** A step that leaves the queue, the spots and all counters alone. */
  lemma UpdateKeepsBooks(q: QueueState, k: Key, s: SessionState, ws: multiset<Key>)
    requires Books(q, ws) && k in q.sessions
    requires s.waiting == q.sessions[k].waiting && s.inflight == q.sessions[k].inflight
    ensures Books(q.(sessions := q.sessions[k := s]), ws)
  {
  }

  lemma RefreshedCounters(cfg: Config, k: Key, s: SessionState, now: real)
    ensures Refreshed(cfg, k, s, now).waiting == s.waiting
    ensures Refreshed(cfg, k, s, now).inflight == s.inflight
    ensures Refreshed(cfg, k, s, now).spotHeld == s.spotHeld
  {
  }

  lemma PromoteFirstKeepsBooks(q: QueueState, ws: multiset<Key>)
    requires Books(q, ws) && FirstEligible(q, 0) < |q.queue|
    ensures Books(PromoteAt(q, FirstEligible(q, 0)), ws)
  {
    hide PromoteAt, Count, OrderOf;
    PromoteKeepsBooks(q, FirstEligible(q, 0), ws);
  }

  lemma ReadyKeepsBooks(q: QueueState, on: bool, ws: multiset<Key>)
    requires Books(q, ws)
    ensures Books(SetReady(q, on), ws)
  {
    hide Count;
  }

  lemma AtomKeepsBooks(q: QueueState, a: Atom, ws: multiset<Key>)
    requires Books(q, ws) && Enabled(q, a)
    ensures Books(Apply(q, a), ws)
  {
    hide Register, Join, Leave, Finish, Surrender, Forget, PromoteAt, Refreshed, SetReady, Count, Wf, OrderOf;
    match a
    case ARegister(k, now) => RegisterKeepsBooks(q, k, now, ws);
    case AJoin(k) => JoinKeepsBooks(q, k, ws);
    case APromote => PromoteFirstKeepsBooks(q, ws);
    case ALeave(t) => LeaveKeepsBooks(q, t, ws);
    case AFinish(t, now) => FinishKeepsBooks(q, t, now, ws);
    case ASurrender(k, _) => SurrenderKeepsBooks(q, k, ws);
    case AForget(k) => ForgetKeepsBooks(q, k, ws);
    case ARefresh(k, now) =>
      RefreshedCounters(q.cfg, k, q.sessions[k], now);
      UpdateKeepsBooks(q, k, Refreshed(q.cfg, k, q.sessions[k], now), ws);
    case AReady(on) => ReadyKeepsBooks(q, on, ws);
    case AShare(k, with) => UpdateKeepsBooks(q, k, q.sessions[k].(shared := with), ws);
    case AReport(k, status, at) =>
      UpdateKeepsBooks(q, k, q.sessions[k].(clientStatus := Some(status), clientStatusAt := at), ws);
  }

  lemma {:induction false} TraceKeepsBooks(q: QueueState, atoms: seq<Atom>, ws: multiset<Key>)
    requires Books(q, ws) && Trace(q, atoms)
    ensures Books(After(q, atoms), ws)
    decreases |atoms|
  {
    hide Apply, Enabled, OrderOf;
    if atoms != [] {
      AtomKeepsBooks(q, atoms[0], ws);
      TraceKeepsBooks(Apply(q, atoms[0]), atoms[1..], ws);
    }
  }

  // -------------------------------------------- spots, order and fairness

  /** HTTP traffic only: the spots are exactly the sessions flagged as holding one, and a
      session with a request in flight is busy and in no idle countdown. */
  ghost predicate Tracked(sessions: map<Key, SessionState>, spots: set<Key>) {
    && (forall k :: k in spots ==> k in sessions)
    && (forall k :: k in sessions ==> (sessions[k].spotHeld <==> k in spots))
    && (forall k :: k in sessions && sessions[k].inflight > 0 ==>
          sessions[k].idleSince.None? && sessions[k].status.Busy?)
  }

  ghost predicate SpotsTracked(q: QueueState) {
    Tracked(q.sessions, q.spots)
  }

  ghost predicate Logged(log: seq<Promotion>, t: Ticket) {
    exists p :: p in log && p.ticket == t
  }

  ghost predicate Before(a: Ticket, b: Ticket) {
    a.id != b.id && (a.key == b.key ==> a.id < b.id)
  }

  ghost predicate InOrder(queue: seq<Ticket>, log: seq<Promotion>, nextId: nat) {
    && (forall i, j :: 0 <= i < j < |queue| ==> queue[i].id < queue[j].id)
    && (forall t :: t in queue ==> t.id < nextId)
    && (forall p :: p in log ==> p.ticket.id < nextId)
    && (forall p, t :: p in log && t in queue ==> Before(p.ticket, t))
    && (forall i, j :: 0 <= i < j < |log| ==> Before(log[i].ticket, log[j].ticket))
  }

  ghost predicate RunningLogged(running: seq<Ticket>, log: seq<Promotion>) {
    NoDup(running) && forall t :: t in running ==> Logged(log, t)
  }

  /** Tickets wait in admission order, are promoted at most once, and the requests of one
      session are promoted in admission order. */
  ghost predicate Ordered(q: QueueState) {
    InOrder(q.queue, q.log, q.nextId) && RunningLogged(q.running, q.log)
  }

  /** p may pass a: a waits for its cap on a live spot, or a has no live spot and p runs on one. */
  ghost predicate Fair(p: Promotion, a: Passed, cap: int) {
    && a.ticket.id < p.ticket.id
    && a.ticket.key != p.ticket.key
    && (if a.live then cap >= 0 && a.inflight >= cap else !p.newSpot)
  }

  ghost predicate Justified(log: seq<Promotion>, cap: int) {
    forall p, a :: p in log && a in p.passed ==> Fair(p, a, cap)
  }

  ghost predicate Inv(q: QueueState) {
    Books(q, multiset{}) && SpotsTracked(q) && Ordered(q) && Justified(q.log, q.cfg.cap)
  }

  lemma InitialInv(cfg: Config)
    ensures Inv(Initial(cfg))
  {
  }

  lemma UpdateTracked(sessions: map<Key, SessionState>, spots: set<Key>, k: Key, s: SessionState)
    requires Tracked(sessions, spots)
    requires s.inflight > 0 ==> s.idleSince.None? && s.status.Busy?
    ensures s.spotHeld && (k in sessions || k in spots + {k}) ==> Tracked(sessions[k := s], spots + {k})
    ensures !s.spotHeld ==> Tracked(sessions[k := s], spots - {k})
  {
  }

  lemma PromoteKeepsTracked(q: QueueState, i: nat)
    requires Wf(q) && SpotsTracked(q) && i < |q.queue|
    ensures SpotsTracked(PromoteAt(q, i))
  {
    hide Tracked;
    var k := q.queue[i].key;
    var s := PromoteAt(q, i).sessions[k];
    UpdateTracked(q.sessions, q.spots, k, s);
    HeldIsSpot(q, k);
    assert s.spotHeld ==> PromoteAt(q, i).spots == q.spots + {k};
    assert !s.spotHeld ==> PromoteAt(q, i).spots == q.spots - {k};
  }

  lemma HeldIsSpot(q: QueueState, k: Key)
    requires SpotsTracked(q) && k in q.sessions
    ensures q.sessions[k].spotHeld <==> k in q.spots
    ensures q.spots == if q.sessions[k].spotHeld then q.spots + {k} else q.spots - {k}
  {
  }

  lemma SurrenderKeepsTracked(q: QueueState, k: Key)
    requires Wf(q) && SpotsTracked(q) && k in q.sessions
    ensures SpotsTracked(Surrender(q, k))
  {
  }

  lemma RefreshKeepsTracked(q: QueueState, k: Key, now: real)
    requires Wf(q) && SpotsTracked(q) && k in q.sessions
    ensures SpotsTracked(Refresh(q, k, now))
  {
    hide Tracked;
    HeldIsSpot(q, k);
    UpdateTracked(q.sessions, q.spots, k, Refreshed(q.cfg, k, q.sessions[k], now));
  }

  /** The other steps update one session and neither its spot flag nor the spots. */
  lemma SessionUpdateTracked(q: QueueState, k: Key, s: SessionState)
    requires SpotsTracked(q) && k in q.sessions && s.spotHeld == q.sessions[k].spotHeld
    requires s.inflight > 0 ==> s.idleSince.None? && s.status.Busy?
    ensures Tracked(q.sessions[k := s], q.spots)
  {
  }

  lemma RegisterKeepsTracked(q: QueueState, k: Key, now: real)
    requires Wf(q) && SpotsTracked(q)
    ensures SpotsTracked(Register(q, k, now))
  {
  }

  lemma ForgetKeepsTracked(q: QueueState, k: Key)
    requires Wf(q) && SpotsTracked(q) && k in q.sessions && !q.sessions[k].spotHeld && q.sessions[k].waiting == 0
    ensures SpotsTracked(Forget(q, k))
  {
  }

  lemma LeaveKeepsTracked(q: QueueState, t: Ticket)
    requires Books(q, multiset{}) && SpotsTracked(q) && t in q.queue
    ensures SpotsTracked(Leave(q, t))
  {
    hide Count, OrderOf, RemoveAt, IndexOf;
    SessionUpdateTracked(q, t.key, Leave(q, t).sessions[t.key]);
  }

  lemma FinishKeepsTracked(q: QueueState, t: Ticket, now: real)
    requires Books(q, multiset{}) && SpotsTracked(q) && t in q.running
    ensures SpotsTracked(Finish(q, t, now))
  {
    hide Count, OrderOf, RemoveAt, IndexOf;
    SessionUpdateTracked(q, t.key, Finish(q, t, now).sessions[t.key]);
  }

  lemma JoinKeepsTracked(q: QueueState, k: Key)
    requires Wf(q) && SpotsTracked(q) && k in q.sessions
    ensures SpotsTracked(Join(q, k))
  {
    hide Count;
    SessionUpdateTracked(q, k, Join(q, k).sessions[k]);
  }

  lemma ToldKeepsTracked(q: QueueState, k: Key, with: Option<Key>, status: Status, at: real)
    requires Wf(q) && SpotsTracked(q) && k in q.sessions
    ensures SpotsTracked(SetShared(q, k, with)) && SpotsTracked(Report(q, k, status, at))
  {
    hide Count;
    SessionUpdateTracked(q, k, SetShared(q, k, with).sessions[k]);
    SessionUpdateTracked(q, k, Report(q, k, status, at).sessions[k]);
  }

  lemma AtomKeepsTracked(q: QueueState, a: Atom)
    requires Books(q, multiset{}) && SpotsTracked(q) && Enabled(q, a)
    ensures SpotsTracked(Apply(q, a))
  {
    hide PromoteAt, Refreshed, Count, Surrender, Refresh, Register, Forget, OrderOf, Leave, Finish, Eligible, FirstEligible;
    hide Join, SetShared, Report, Tracked;
    match a
    case ARegister(k, now) => RegisterKeepsTracked(q, k, now);
    case APromote => PromoteKeepsTracked(q, FirstEligible(q, 0));
    case ASurrender(k, _) => SurrenderKeepsTracked(q, k);
    case ARefresh(k, now) => RefreshKeepsTracked(q, k, now);
    case AForget(k) => ForgetKeepsTracked(q, k);
    case AReady(_) =>
    case ALeave(t) => LeaveKeepsTracked(q, t);
    case AFinish(t, now) => FinishKeepsTracked(q, t, now);
    case AJoin(k) => JoinKeepsTracked(q, k);
    case AShare(k, with) => ToldKeepsTracked(q, k, with, Busy, 0.0);
    case AReport(k, status, at) => ToldKeepsTracked(q, k, None, status, at);
  }

  lemma SameKeySameChance(q: QueueState, f: nat)
    requires Wf(q) && f == FirstEligible(q, 0) < |q.queue|
    ensures forall j :: 0 <= j < f ==> q.queue[j].key != q.queue[f].key
  {
  }

  lemma PromoteInOrder(queue: seq<Ticket>, log: seq<Promotion>, nextId: nat, f: nat, p: Promotion)
    requires InOrder(queue, log, nextId)
    requires f < |queue| && p.ticket == queue[f]
    requires forall j :: 0 <= j < f ==> queue[j].key != queue[f].key
    ensures InOrder(RemoveAt(queue, f), log + [p], nextId)
  {
    RemoveAtMembers(queue, f);
    var rest := RemoveAt(queue, f);
    forall x | x in rest
      ensures Before(p.ticket, x)
    {
      var j :| 0 <= j < |rest| && rest[j] == x;
    }
    forall i | 0 <= i < |log|
      ensures Before(log[i].ticket, p.ticket)
    {
      assert log[i] in log && queue[f] in queue;
    }
  }

  lemma PromoteRunningLogged(running: seq<Ticket>, queue: seq<Ticket>, log: seq<Promotion>, nextId: nat, p: Promotion)
    requires InOrder(queue, log, nextId) && RunningLogged(running, log) && p.ticket in queue
    ensures RunningLogged(running + [p.ticket], log + [p])
  {
    hide Logged;
    forall t | t in running
      ensures Logged(log + [p], t) && t != p.ticket
    {
      LoggedBefore(queue, log, nextId, t, p);
    }
    LoggedLast(log, p);
    NoDupAppend(running, p.ticket);
  }

  lemma LoggedBefore(queue: seq<Ticket>, log: seq<Promotion>, nextId: nat, t: Ticket, p: Promotion)
    requires InOrder(queue, log, nextId) && Logged(log, t) && p.ticket in queue
    ensures Logged(log + [p], t) && t != p.ticket
  {
    var l :| l in log && l.ticket == t;
    assert Before(l.ticket, p.ticket);
    assert l in log + [p];
  }

  lemma LoggedLast(log: seq<Promotion>, p: Promotion)
    ensures Logged(log + [p], p.ticket)
  {
    assert p in log + [p];
  }

  lemma NoDupAppend<T>(s: seq<T>, x: T)
    requires NoDup(s) && x !in s
    ensures NoDup(s + [x])
  {
    assert forall i :: 0 <= i < |s| ==> s[i] in s;
  }

  lemma PromoteKeepsOrdered(q: QueueState)
    requires Wf(q) && Ordered(q) && FirstEligible(q, 0) < |q.queue|
    ensures Ordered(PromoteAt(q, FirstEligible(q, 0)))
  {
    hide InOrder, RunningLogged, Overtaken;
    var f := FirstEligible(q, 0);
    var p := Promotion(q.queue[f], !Live(q, q.queue[f].key), Overtaken(q, f));
    SameKeySameChance(q, f);
    PromoteInOrder(q.queue, q.log, q.nextId, f, p);
    PromoteRunningLogged(q.running, q.queue, q.log, q.nextId, p);
  }

  lemma PassedFairly(q: QueueState, j: nat, f: nat)
    requires Wf(q) && j < f == FirstEligible(q, 0) < |q.queue| && q.queue[j].id < q.queue[f].id
    ensures Fair(Promotion(q.queue[f], !Live(q, q.queue[f].key), Overtaken(q, f)), Overtaken(q, f)[j], q.cfg.cap)
  {
    hide Overtaken;
    assert !Eligible(q, q.queue[j].key) && Eligible(q, q.queue[f].key);
  }

  lemma PromoteKeepsJustified(q: QueueState)
    requires Wf(q) && Ordered(q) && Justified(q.log, q.cfg.cap) && FirstEligible(q, 0) < |q.queue|
    ensures Justified(PromoteAt(q, FirstEligible(q, 0)).log, q.cfg.cap)
  {
    hide Eligible, Live, Overtaken, Fair, RunningLogged, Count;
    var f := FirstEligible(q, 0);
    var p := Promotion(q.queue[f], !Live(q, q.queue[f].key), Overtaken(q, f));
    forall a | a in p.passed
      ensures Fair(p, a, q.cfg.cap)
    {
      var j :| 0 <= j < f && p.passed[j] == a;
      PassedFairly(q, j, f);
    }
  }

  lemma LeaveKeepsOrdered(q: QueueState, t: Ticket)
    requires Wf(q) && Ordered(q) && t in q.queue
    ensures Ordered(Leave(q, t))
  {
    RemoveAtMembers(q.queue, IndexOf(q.queue, t));
  }

  lemma FinishKeepsOrdered(q: QueueState, t: Ticket, now: real)
    requires Wf(q) && Ordered(q) && t in q.running && t.key in q.sessions
    ensures Ordered(Finish(q, t, now))
  {
    RemoveAtMembers(q.running, IndexOf(q.running, t));
  }

  lemma JoinKeepsOrdered(q: QueueState, k: Key)
    requires Wf(q) && Ordered(q) && k in q.sessions
    ensures Ordered(Join(q, k))
  {
    hide RunningLogged, Count, Wf;
    JoinInOrder(q.queue, q.log, q.nextId, k);
  }

  lemma JoinInOrder(queue: seq<Ticket>, log: seq<Promotion>, nextId: nat, k: Key)
    requires InOrder(queue, log, nextId)
    ensures InOrder(queue + [Ticket(nextId, k)], log, nextId + 1)
  {
  }

  lemma AtomKeepsOrdered(q: QueueState, a: Atom)
    requires Wf(q) && Ordered(q) && Justified(q.log, q.cfg.cap) && Enabled(q, a)
    ensures Ordered(Apply(q, a)) && Justified(Apply(q, a).log, Apply(q, a).cfg.cap)
  {
    hide Refreshed, Count, InOrder, RunningLogged, Justified;
    match a
    case APromote => PromoteKeepsOrdered(q); PromoteKeepsJustified(q);
    case ALeave(t) => LeaveKeepsOrdered(q, t);
    case AFinish(t, now) => FinishKeepsOrdered(q, t, now);
    case AJoin(k) => JoinKeepsOrdered(q, k);
    case _ =>
  }

  lemma WaitingNotRunning(q: QueueState, t: Ticket)
    requires Ordered(q) && t in q.queue
    ensures t !in q.running && !Logged(q.log, t)
  {
    assert forall p :: p in q.log ==> Before(p.ticket, t);
  }

  lemma AtomKeepsInv(q: QueueState, a: Atom)
    requires Inv(q) && Enabled(q, a)
    ensures Inv(Apply(q, a))
  {
    hide SpotsTracked, Ordered, Justified, Apply, Enabled, OrderOf;
    AtomKeepsBooks(q, a, multiset{});
    AtomKeepsTracked(q, a);
    AtomKeepsOrdered(q, a);
  }

  lemma {:induction false} TraceKeepsInv(q: QueueState, atoms: seq<Atom>)
    requires Inv(q) && Trace(q, atoms)
    ensures Inv(After(q, atoms))
    decreases |atoms|
  {
    hide Apply, Enabled, OrderOf, SpotsTracked, Ordered, Justified;
    if atoms != [] {
      AtomKeepsInv(q, atoms[0]);
      TraceKeepsInv(Apply(q, atoms[0]), atoms[1..]);
    }
  }

  lemma InvWf(q: QueueState)
    requires Inv(q)
    ensures Wf(q)
  {
  }

  lemma InvOrder(q: QueueState)
    requires Inv(q)
    ensures OrderOf(q)
  {
  }

  lemma PromoteKeepsInv(q: QueueState)
    requires Inv(q) && q.ready && FirstEligible(q, 0) < |q.queue|
    ensures Inv(PromoteAt(q, FirstEligible(q, 0)))
  {
    hide SetReady, SetShared, Report, Refresh, PromoteAt, Register, Join, Leave, Finish, Surrender, Forget, Count;
    hide OrderOf, SpotsTracked, Ordered, Justified;
    AtomKeepsInv(q, APromote);
  }

  lemma RegisterKeepsInv(q: QueueState, k: Key, now: real)
    requires Inv(q)
    ensures Inv(Register(q, k, now))
  {
    hide SetReady, SetShared, Report, Refresh, PromoteAt, Register, Join, Leave, Finish, Surrender, Forget, Count;
    hide OrderOf, SpotsTracked, Ordered, Justified;
    AtomKeepsInv(q, ARegister(k, now));
  }

  lemma JoinKeepsInv(q: QueueState, k: Key)
    requires Inv(q) && k in q.sessions
    ensures Inv(Join(q, k))
  {
    hide SetReady, SetShared, Report, Refresh, PromoteAt, Register, Join, Leave, Finish, Surrender, Forget, Count;
    hide OrderOf, SpotsTracked, Ordered, Justified;
    AtomKeepsInv(q, AJoin(k));
  }

  lemma LeaveKeepsInv(q: QueueState, t: Ticket)
    requires Inv(q) && t in q.queue
    ensures Inv(Leave(q, t))
  {
    hide SetReady, SetShared, Report, Refresh, PromoteAt, Register, Join, Leave, Finish, Surrender, Forget, Count;
    hide OrderOf, SpotsTracked, Ordered, Justified;
    AtomKeepsInv(q, ALeave(t));
  }

  lemma FinishKeepsInv(q: QueueState, t: Ticket, now: real)
    requires Inv(q) && t in q.running
    ensures t.key in q.sessions && Inv(Finish(q, t, now))
  {
    hide SetReady, SetShared, Report, Refresh, PromoteAt, Register, Join, Leave, Finish, Surrender, Forget, Count;
    hide OrderOf, SpotsTracked, Ordered, Justified;
    AtomKeepsInv(q, AFinish(t, now));
  }

  lemma SurrenderKeepsInv(q: QueueState, k: Key)
    requires Inv(q) && HoldsSpot(q, k)
    ensures Inv(Surrender(q, k))
  {
    hide SetReady, SetShared, Report, Refresh, PromoteAt, Register, Join, Leave, Finish, Surrender, Forget, Count;
    hide OrderOf, SpotsTracked, Ordered, Justified;
    AtomKeepsInv(q, ASurrender(k, q.sessions[k].inflight > 0));
  }

  lemma RefreshKeepsInv(q: QueueState, k: Key, now: real)
    requires Inv(q) && k in q.sessions
    ensures Inv(Refresh(q, k, now))
  {
    hide SetReady, SetShared, Report, Refresh, PromoteAt, Register, Join, Leave, Finish, Surrender, Forget, Count;
    hide OrderOf, SpotsTracked, Ordered, Justified;
    AtomKeepsInv(q, ARefresh(k, now));
  }

  lemma ForgetKeepsInv(q: QueueState, k: Key)
    requires Inv(q) && k in q.sessions
    requires !q.sessions[k].spotHeld && q.sessions[k].waiting == 0 && q.sessions[k].inflight == 0
    ensures Inv(Forget(q, k))
  {
    hide SetReady, SetShared, Report, Refresh, PromoteAt, Register, Join, Leave, Finish, Surrender, Forget, Count;
    hide OrderOf, SpotsTracked, Ordered, Justified;
    AtomKeepsInv(q, AForget(k));
  }

  lemma AnyReadyKeepsInv(q: QueueState, on: bool)
    requires Inv(q)
    ensures Inv(SetReady(q, on))
  {
    hide SetReady, SetShared, Report, Refresh, PromoteAt, Register, Join, Leave, Finish, Surrender, Forget, Count;
    hide OrderOf, SpotsTracked, Ordered, Justified;
    AtomKeepsInv(q, AReady(on));
  }

  lemma ShareKeepsInv(q: QueueState, k: Key, with: Option<Key>)
    requires Inv(q) && k in q.sessions
    ensures Inv(SetShared(q, k, with))
  {
    hide SetReady, SetShared, Report, Refresh, PromoteAt, Register, Join, Leave, Finish, Surrender, Forget, Count;
    hide OrderOf, SpotsTracked, Ordered, Justified;
    AtomKeepsInv(q, AShare(k, with));
  }

  lemma ReportKeepsInv(q: QueueState, k: Key, status: Status, at: real)
    requires Inv(q) && k in q.sessions
    ensures Inv(Report(q, k, status, at))
  {
    hide SetReady, SetShared, Report, Refresh, PromoteAt, Register, Join, Leave, Finish, Surrender, Forget, Count;
    hide OrderOf, SpotsTracked, Ordered, Justified;
    AtomKeepsInv(q, AReport(k, status, at));
  }
}
