/** Every session in flight owns a spot, as long as no spot is shared and no busy session
    is released by hand. BusyRelease.dfy says exactly what a release by hand does to it. */
module OwnSpots {
  import opened QueueModel
  import opened QueueSteps
  import opened QueueInvariants
  import opened QueueRuns

  ghost predicate InFlightOwnsSpot(q: QueueState) {
    forall k :: k in q.sessions && q.sessions[k].inflight > 0 ==> k in q.spots
  }

  ghost predicate Unshared(q: QueueState) {
    forall k :: k in q.sessions ==> q.sessions[k].shared.None?
  }

  ghost predicate WithinCap(q: QueueState) {
    q.cfg.cap >= 0 ==> forall k :: k in q.sessions ==> q.sessions[k].inflight <= Max(1, q.cfg.cap)
  }

  ghost predicate Own(q: QueueState) {
    InFlightOwnsSpot(q) && Unshared(q)
  }

  /** The step from q to r breaks neither ownership nor, if it held, the cap bound. */
  ghost predicate KeepsOwn(q: QueueState, r: QueueState) {
    Own(r) && (WithinCap(q) ==> WithinCap(r))
  }

  /** No sharing. */
  predicate KeepsSpotsApart(ev: Event) {
    ev.ShareChange? ==> ev.with.None?
  }

  /** No manual release of a session with requests in flight. */
  ghost predicate SparesBusy(q: QueueState, ev: Event) {
    ev.ManualRelease? && HoldsSpot(q, ev.key) ==> q.sessions[ev.key].inflight == 0
  }

  predicate GentleAtom(a: Atom) {
    match a
    case AShare(_, with) => with.None?
    case ASurrender(_, busy) => !busy
    case _ => true
  }

  // --------------------------------------------- one promotion, one surrender

  /** A promotion keeps "in flight owns a spot" unless it runs on somebody else's spot. */
  lemma PromotionKeepsIff(q: QueueState, i: nat)
    requires Books(q, multiset{}) && InFlightOwnsSpot(q)
    requires i < |q.queue|
    ensures InFlightOwnsSpot(PromoteAt(q, i)) <==> q.queue[i].key in q.spots || !Live(q, q.queue[i].key)
  {
    hide Overtaken, OrderOf;
    var k := q.queue[i].key;
    assert PromoteAt(q, i).sessions[k].inflight > 0;
  }

  /** Giving up a spot, before the promotions that follow, keeps it unless the session has
      requests in flight. */
  lemma SurrenderKeepsIff(q: QueueState, k: Key)
    requires Books(q, multiset{}) && InFlightOwnsSpot(q) && k in q.sessions
    ensures InFlightOwnsSpot(Surrender(q, k)) <==> q.sessions[k].inflight == 0
  {
    hide Count, WithoutKey, OrderOf;
    if q.sessions[k].inflight != 0 {
      assert Surrender(q, k).sessions[k].inflight > 0;
    }
  }

  // --------------------------------------------------------------- invariant

  lemma PromoteKeepsOwn(q: QueueState, i: nat)
    requires Books(q, multiset{}) && Own(q) && i < |q.queue| && Eligible(q, q.queue[i].key)
    ensures KeepsOwn(q, PromoteAt(q, i))
  {
    hide Overtaken, OrderOf, PromoteAt, Count, WithinCap, Unshared;
    PromotionKeepsIff(q, i);
    PromotionKeepsUnshared(q, i);
    if WithinCap(q) {
      PromotionKeepsCap(q, i);
    }
  }

  lemma PromotionKeepsUnshared(q: QueueState, i: nat)
    requires Wf(q) && Unshared(q) && i < |q.queue|
    ensures Live(q, q.queue[i].key) <==> q.queue[i].key in q.spots
    ensures Unshared(PromoteAt(q, i))
  {
    hide Overtaken, Count;
  }

  /** The promoted session either has room below its cap or nothing in flight yet. */
  lemma PromotionKeepsCap(q: QueueState, i: nat)
    requires Books(q, multiset{}) && Unshared(q) && WithinCap(q)
    requires i < |q.queue| && Eligible(q, q.queue[i].key)
    requires q.queue[i].key in q.spots || q.sessions[q.queue[i].key].inflight == 0
    ensures WithinCap(PromoteAt(q, i))
  {
    hide Overtaken, OrderOf, Count;
    var k := q.queue[i].key;
    assert forall x :: x in q.sessions && x != k ==> PromoteAt(q, i).sessions[x] == q.sessions[x];
  }

  lemma UpdateKeepsOwn(q: QueueState, k: Key, s: SessionState)
    requires Own(q) && k in q.sessions
    requires s.inflight <= q.sessions[k].inflight && s.shared.None?
    ensures KeepsOwn(q, q.(sessions := q.sessions[k := s]))
  {
  }

  lemma RefreshKeepsOwn(q: QueueState, k: Key, now: real)
    requires Wf(q) && Own(q) && k in q.sessions
    ensures KeepsOwn(q, Refresh(q, k, now))
  {
    UpdateKeepsOwn(q, k, Refreshed(q.cfg, k, q.sessions[k], now));
  }

  lemma RegisterKeepsOwn(q: QueueState, k: Key, now: real)
    requires Wf(q) && Own(q)
    ensures KeepsOwn(q, Register(q, k, now))
  {
  }

  lemma ForgetKeepsOwn(q: QueueState, k: Key)
    requires Wf(q) && Own(q) && k in q.sessions && q.sessions[k].waiting == 0
    ensures KeepsOwn(q, Forget(q, k))
  {
  }

  lemma SurrenderKeepsOwn(q: QueueState, k: Key)
    requires Books(q, multiset{}) && Own(q) && k in q.sessions && q.sessions[k].inflight == 0
    ensures KeepsOwn(q, Surrender(q, k))
  {
    hide WithoutKey, OrderOf, Count;
    SurrenderKeepsIff(q, k);
  }

  lemma OwnIsLocal(q: QueueState, r: QueueState)
    requires Own(q) && r.cfg == q.cfg && r.sessions == q.sessions && r.spots == q.spots
    ensures KeepsOwn(q, r)
  {
  }

  /** Steps on one session that raise neither its in-flight count nor a shared spot. */
  lemma OneSessionKeepsOwn(q: QueueState, k: Key, r: QueueState)
    requires Own(q) && k in q.sessions && k in r.sessions
    requires r.cfg == q.cfg && r.spots == q.spots && r.sessions == q.sessions[k := r.sessions[k]]
    requires r.sessions[k].inflight <= q.sessions[k].inflight
    requires r.sessions[k].shared.None? || r.sessions[k].shared == q.sessions[k].shared
    ensures KeepsOwn(q, r)
  {
    UpdateKeepsOwn(q, k, r.sessions[k]);
    OwnIsLocal(q.(sessions := q.sessions[k := r.sessions[k]]), r);
  }

  lemma PromoteFirstKeepsOwn(q: QueueState)
    requires Books(q, multiset{}) && Own(q) && FirstEligible(q, 0) < |q.queue|
    ensures KeepsOwn(q, PromoteAt(q, FirstEligible(q, 0)))
  {
    hide PromoteAt, Count, OrderOf, KeepsOwn, Own;
    PromoteKeepsOwn(q, FirstEligible(q, 0));
  }

  lemma AtomKeepsOwn(q: QueueState, a: Atom)
    requires Books(q, multiset{}) && Own(q) && Enabled(q, a) && GentleAtom(a)
    ensures KeepsOwn(q, Apply(q, a))
  {
    hide PromoteAt, Refreshed, Refresh, WithoutKey, OrderOf, Count, Own, KeepsOwn, Surrender, Register, Forget;
    match a
    case ARegister(k, now) => RegisterKeepsOwn(q, k, now);
    case APromote => PromoteFirstKeepsOwn(q);
    case ARefresh(k, now) => RefreshKeepsOwn(q, k, now);
    case ASurrender(k, _) => SurrenderKeepsOwn(q, k);
    case AForget(k) => ForgetKeepsOwn(q, k);
    case ALeave(t) => OneSessionKeepsOwn(q, t.key, Leave(q, t));
    case AFinish(t, now) => OneSessionKeepsOwn(q, t.key, Finish(q, t, now));
    case AJoin(k) => OneSessionKeepsOwn(q, k, Join(q, k));
    case AShare(k, with) => OneSessionKeepsOwn(q, k, SetShared(q, k, with));
    case AReport(k, status, at) => OneSessionKeepsOwn(q, k, Report(q, k, status, at));
    case AReady(_) => OwnIsLocal(q, Apply(q, a));
  }

  lemma {:induction false} TraceKeepsOwn(q: QueueState, atoms: seq<Atom>)
    requires Books(q, multiset{}) && Own(q) && Trace(q, atoms)
    requires forall a :: a in atoms ==> GentleAtom(a)
    ensures KeepsOwn(q, After(q, atoms))
    decreases |atoms|
  {
    hide Apply, Enabled, OrderOf, Own, WithinCap, GentleAtom;
    if atoms != [] {
      AtomKeepsOwn(q, atoms[0]);
      AtomKeepsBooks(q, atoms[0], multiset{});
      TraceKeepsOwn(Apply(q, atoms[0]), atoms[1..]);
    }
  }

  lemma StepKeepsOwn(q: QueueState, ev: Event)
    requires Inv(q) && Own(q) && Legal(q, ev) && KeepsSpotsApart(ev) && SparesBusy(q, ev)
    ensures KeepsOwn(q, Step(q, ev))
  {
    hide Step, Trace, After, OrderOf, SpotsTracked, Ordered, Justified, Own;
    var atoms := EventTrace(q, ev, multiset{});
    forall a | a in atoms
      ensures GentleAtom(a)
    {
      assert Within(q, ev, a);
    }
    TraceKeepsOwn(q, atoms);
  }
}
