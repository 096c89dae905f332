/** Runs of the queue, and their decomposition into atomic steps.

    An Event is one synchronous stretch of the program. Every event is a sequence of
    atoms, so a property that each atom keeps is kept by every run of events.
 */
module QueueSteps {
  import opened QueueModel

  datatype Event =
    | AdmitCall(key: Key, now: real)          // register and enqueue a request
    | AbandonCall(ticket: Ticket)
    | ReleaseCall(ticket: Ticket, now: real)
    | ManualRelease(key: Key)
    | TickCall(now: real)
    | ReadyChange(on: bool)
    | ShareChange(key: Key, with: Option<Key>)
    | ReportChange(key: Key, status: Status, at: real)
    | PokeCall

  /** The accounting of the queue. `ws` holds one occurrence of a key for every WebSocket
      connection that counts itself in that session's `inflight`; queued HTTP traffic
      alone has none. */
  ghost predicate Books(q: QueueState, ws: multiset<Key>) {
    && Wf(q)
    && OrderOf(q)
    && (forall t :: t in q.running ==> t.key in q.sessions)
    && (forall k :: k in ws ==> k in q.sessions)
    && (forall k :: k in q.sessions ==> q.sessions[k].inflight == Count(q.running, k) + ws[k])
    && q.inflightTotal == |q.running|
    && |q.spots| <= q.cfg.maxSpots
    && (q.cfg.atomic ==> q.inflightTotal <= 1)
  }

  ghost predicate Legal(q: QueueState, ev: Event) {
    match ev
    case AbandonCall(t) => t in q.queue || t in q.running
    case ReleaseCall(t, _) => t in q.running && t.key in q.sessions
    case ShareChange(k, _) => k in q.sessions
    case ReportChange(k, _, _) => k in q.sessions
    case _ => true
  }

  function Step(q: QueueState, ev: Event): (r: QueueState)
    requires Wf(q) && OrderOf(q) && Legal(q, ev)
    ensures Wf(r)
  {
    match ev
    case AdmitCall(k, now) => Admit(q, k, now)
    case AbandonCall(t) => Abandon(q, t)
    case ReleaseCall(t, now) => Release(q, t, now)
    case ManualRelease(k) => ReleaseSession(q, k)
    case TickCall(now) => Tick(q, now).0
    case ReadyChange(on) => SetReady(q, on)
    case ShareChange(k, with) => SetShared(q, k, with)
    case ReportChange(k, status, at) => Report(q, k, status, at)
    case PokeCall => Poke(q)
  }

  // ------------------------------------------------------------------- atoms

  datatype Atom =
    | ARegister(key: Key, now: real)
    | AJoin(key: Key)
    | APromote                                // the first eligible request
    | ALeave(ticket: Ticket)
    | AFinish(ticket: Ticket, now: real)
    | ASurrender(key: Key, busy: bool)        // busy: with requests in flight
    | AForget(key: Key)
    | ARefresh(key: Key, now: real)
    | AReady(on: bool)
    | AShare(key: Key, with: Option<Key>)
    | AReport(key: Key, status: Status, at: real)

  ghost predicate Enabled(q: QueueState, a: Atom)
    requires Wf(q)
  {
    match a
    case ARegister(_, _) => true
    case AJoin(k) => k in q.sessions
    case APromote => q.ready && FirstEligible(q, 0) < |q.queue|
    case ALeave(t) => t in q.queue
    case AFinish(t, _) => t in q.running && t.key in q.sessions
    case ASurrender(k, busy) => HoldsSpot(q, k) && (busy <==> q.sessions[k].inflight > 0)
    case AForget(k) =>
      k in q.sessions && !q.sessions[k].spotHeld && q.sessions[k].waiting == 0 && q.sessions[k].inflight == 0
    case ARefresh(k, _) => k in q.sessions
    case AReady(_) => true
    case AShare(k, _) => k in q.sessions
    case AReport(k, _, _) => k in q.sessions
  }

  function Apply(q: QueueState, a: Atom): (r: QueueState)
    requires Wf(q) && Enabled(q, a)
    ensures Wf(r)
  {
    match a
    case ARegister(k, now) => Register(q, k, now)
    case AJoin(k) => Join(q, k)
    case APromote => PromoteAt(q, FirstEligible(q, 0))
    case ALeave(t) => Leave(q, t)
    case AFinish(t, now) => Finish(q, t, now)
    case ASurrender(k, _) => Surrender(q, k)
    case AForget(k) => Forget(q, k)
    case ARefresh(k, now) => Refresh(q, k, now)
    case AReady(on) => SetReady(q, on)
    case AShare(k, with) => SetShared(q, k, with)
    case AReport(k, status, at) => Report(q, k, status, at)
  }

  ghost predicate Trace(q: QueueState, atoms: seq<Atom>)
    requires Wf(q)
    decreases |atoms|
  {
    atoms == [] || (Enabled(q, atoms[0]) && Trace(Apply(q, atoms[0]), atoms[1..]))
  }

  function After(q: QueueState, atoms: seq<Atom>): (r: QueueState)
    requires Wf(q) && Trace(q, atoms)
    ensures Wf(r)
    decreases |atoms|
  {
    if atoms == [] then q else After(Apply(q, atoms[0]), atoms[1..])
  }

  lemma {:induction false} TraceConcat(q: QueueState, a: seq<Atom>, b: seq<Atom>)
    requires Wf(q) && Trace(q, a) && Trace(After(q, a), b)
    ensures Trace(q, a + b) && After(q, a + b) == After(After(q, a), b)
    decreases |a|
  {
    hide Apply, Enabled;
    if a == [] {
      assert a + b == b;
    } else {
      TraceConcat(Apply(q, a[0]), a[1..], b);
      assert (a + b)[1..] == a[1..] + b;
    }
  }

  // ----------------------------------------------------------- decomposition

  /** What an atom of an event can be; q is the state the event starts in. */
  ghost predicate Within(q: QueueState, ev: Event, a: Atom) {
    match a
    case ARegister(k, now) => ev == AdmitCall(k, now)
    case AJoin(k) => ev.AdmitCall? && ev.key == k
    case APromote => true
    case ALeave(t) => ev == AbandonCall(t)
    case AFinish(t, now) => ev == ReleaseCall(t, now)
    case ASurrender(k, busy) =>
      if ev.TickCall? then !busy
      else ev == ManualRelease(k) && HoldsSpot(q, k) && (busy <==> q.sessions[k].inflight > 0)
    case AForget(k) => ev.TickCall?
    case ARefresh(_, now) => ev == TickCall(now)
    case AReady(on) => ev == ReadyChange(on)
    case AShare(k, with) => ev == ShareChange(k, with)
    case AReport(k, status, at) => ev == ReportChange(k, status, at)
  }

  lemma TraceCons(q: QueueState, a: Atom, rest: seq<Atom>)
    requires Wf(q) && Enabled(q, a) && Trace(Apply(q, a), rest)
    ensures Trace(q, [a] + rest) && After(q, [a] + rest) == After(Apply(q, a), rest)
  {
    hide Apply, Enabled;
    assert ([a] + rest)[1..] == rest;
  }

  lemma {:induction false} PromoteLoopTrace(q: QueueState) returns (atoms: seq<Atom>)
    requires Wf(q) && q.ready
    ensures Trace(q, atoms) && After(q, atoms) == PromoteLoop(q)
    ensures forall a :: a in atoms ==> a.APromote?
    decreases |q.queue|
  {
    hide Overtaken, Eligible, Count, Trace, After;
    var f := FirstEligible(q, 0);
    if f == |q.queue| {
      atoms := [];
      NoAtoms(q);
    } else {
      var rest := PromoteLoopTrace(PromoteAt(q, f));
      TraceCons(q, APromote, rest);
      atoms := [APromote] + rest;
    }
  }

  lemma NoAtoms(q: QueueState)
    requires Wf(q)
    ensures Trace(q, []) && After(q, []) == q
  {
  }

  /** An operation that ends by promoting. */
  lemma TryPromoteTrace(q: QueueState, first: seq<Atom>) returns (atoms: seq<Atom>)
    requires Wf(q) && Trace(q, first)
    ensures Trace(q, atoms) && After(q, atoms) == TryPromote(After(q, first))
    ensures forall a :: a in atoms ==> a in first || a.APromote?
  {
    var p := After(q, first);
    var rest := [];
    if p.ready {
      rest := PromoteLoopTrace(p);
    }
    TraceConcat(q, first, rest);
    atoms := first + rest;
  }

  lemma OneAtom(q: QueueState, a: Atom)
    requires Wf(q) && Enabled(q, a)
    ensures Trace(q, [a]) && After(q, [a]) == Apply(q, a)
  {
    assert [a][1..] == [];
    assert Trace(Apply(q, a), []);
  }

  lemma TwoAtoms(q: QueueState, a: Atom, b: Atom)
    requires Wf(q) && Enabled(q, a) && Enabled(Apply(q, a), b)
    ensures Trace(q, [a, b]) && After(q, [a, b]) == Apply(Apply(q, a), b)
  {
    hide Apply, Enabled;
    OneAtom(q, a);
    OneAtom(Apply(q, a), b);
    TraceConcat(q, [a], [b]);
    assert [a] + [b] == [a, b];
  }

  lemma TickFreesIdle(q: QueueState, k: Key, now: real)
    requires Wf(q) && k in q.sessions
    ensures HoldsSpot(Refresh(q, k, now), k) == HoldsSpot(q, k)
    ensures Refresh(q, k, now).sessions[k].inflight == q.sessions[k].inflight
    ensures Refresh(q, k, now).sessions[k].waiting == q.sessions[k].waiting
    ensures TickFrees(q, k, now) ==> HoldsSpot(q, k) && q.sessions[k].inflight <= 0
  {
  }

  lemma TickOneTrace(q: QueueState, k: Key, now: real) returns (atoms: seq<Atom>)
    requires Wf(q) && k in q.sessions && q.sessions[k].inflight >= 0
    ensures Trace(q, atoms) && After(q, atoms) == TickOne(q, k, now)
    ensures forall a :: a in atoms ==> Within(q, TickCall(now), a)
  {
    hide Refreshed, TickFrees, Refresh, Surrender, Forget, Wf, TryPromote, Trace, After;
    var s := q.sessions[k];
    var refresh := ARefresh(k, now);
    TickFreesIdle(q, k, now);
    if TickFrees(q, k, now) {
      TwoAtoms(q, refresh, ASurrender(k, false));
      atoms := TryPromoteTrace(q, [refresh, ASurrender(k, false)]);
    } else if !s.spotHeld && s.waiting == 0 && s.inflight == 0 {
      TwoAtoms(q, refresh, AForget(k));
      atoms := [refresh, AForget(k)];
    } else {
      OneAtom(q, refresh);
      atoms := [refresh];
    }
  }
}
