/** A tick does not take a known client's spot before its session has been idle for the
    expiry, unless the client itself said so. */
module NoEarlySurrender {
  import opened QueueModel
  import opened QueueSteps
  import opened QueueInvariants
  import opened QueueRuns

  // --------------------------------------------------------------- timelines

  /** Request stamps do not decrease; a tick's `now`, read before polling, lags the latest
      request stamp by at most delta. */
  ghost predicate Timeline(evs: seq<Event>, clock: real, delta: real)
    decreases |evs|
  {
    evs == [] || (Punctual(evs[0], clock, delta) && Timeline(evs[1..], Clock(evs[0], clock), delta))
  }

  predicate Punctual(ev: Event, clock: real, delta: real) {
    match ev
    case AdmitCall(_, t) => t >= clock
    case ReleaseCall(_, t) => t >= clock
    case TickCall(t) => t >= clock - delta
    case _ => true
  }

  function Clock(ev: Event, clock: real): real {
    match ev
    case AdmitCall(_, t) => t
    case ReleaseCall(_, t) => t
    case _ => clock
  }

  ghost function EndClock(evs: seq<Event>, clock: real): real
    decreases |evs|
  {
    if evs == [] then clock else EndClock(evs[1..], Clock(evs[0], clock))
  }

  /** No countdown started before the last request, up to the lag of the ticks. */
  ghost predicate Timed(q: QueueState, clock: real, delta: real) {
    forall k :: k in q.sessions ==>
      && q.sessions[k].lastRequestAt <= clock
      && (q.sessions[k].idleSince.Some? ==>
            q.sessions[k].idleSince.value >= q.sessions[k].lastRequestAt - delta)
  }

  predicate InTime(a: Atom, clock: real, delta: real) {
    match a
    case ARegister(_, t) => t <= clock
    case AFinish(_, t) => t <= clock
    case ARefresh(_, t) => t >= clock - delta
    case _ => true
  }

  lemma UpdateKeepsTimed(q: QueueState, k: Key, s: SessionState, clock: real, delta: real)
    requires Timed(q, clock, delta)
    requires s.lastRequestAt <= clock
    requires s.idleSince.Some? ==> s.idleSince.value >= s.lastRequestAt - delta
    ensures Timed(q.(sessions := q.sessions[k := s]), clock, delta)
  {
  }

  lemma OneSessionKeepsTimed(q: QueueState, r: QueueState, k: Key, clock: real, delta: real)
    requires Timed(q, clock, delta) && k in r.sessions && r.sessions == q.sessions[k := r.sessions[k]]
    requires r.sessions[k].lastRequestAt <= clock
    requires r.sessions[k].idleSince.Some? ==> r.sessions[k].idleSince.value >= r.sessions[k].lastRequestAt - delta
    ensures Timed(r, clock, delta)
  {
    UpdateKeepsTimed(q, k, r.sessions[k], clock, delta);
  }

  lemma SurrenderKeepsTimed(q: QueueState, k: Key, clock: real, delta: real)
    requires Wf(q) && k in q.sessions && Timed(q, clock, delta)
    ensures Timed(Surrender(q, k), clock, delta)
  {
    hide Count;
  }

  lemma RefreshKeepsTimed(q: QueueState, k: Key, now: real, clock: real, delta: real)
    requires Wf(q) && k in q.sessions && Timed(q, clock, delta) && now >= clock - delta
    ensures Timed(Refresh(q, k, now), clock, delta)
  {
    hide Count;
    OneSessionKeepsTimed(q, Refresh(q, k, now), k, clock, delta);
  }

  lemma AtomKeepsTimed(q: QueueState, a: Atom, clock: real, delta: real)
    requires Books(q, multiset{}) && SpotsTracked(q) && Timed(q, clock, delta)
    requires Enabled(q, a) && InTime(a, clock, delta)
    ensures Timed(Apply(q, a), clock, delta)
  {
    hide Count, Surrender, Refresh, OrderOf, Overtaken;
    match a
    case ARegister(k, t) => OneSessionKeepsTimed(q, Apply(q, a), k, clock, delta);
    case AJoin(k) => OneSessionKeepsTimed(q, Apply(q, a), k, clock, delta);
    case APromote => OneSessionKeepsTimed(q, Apply(q, a), q.queue[FirstEligible(q, 0)].key, clock, delta);
    case ALeave(t) => OneSessionKeepsTimed(q, Apply(q, a), t.key, clock, delta);
    case AFinish(t, now) =>
      assert q.sessions[t.key].inflight > 0;
      OneSessionKeepsTimed(q, Apply(q, a), t.key, clock, delta);
    case ASurrender(k, _) => SurrenderKeepsTimed(q, k, clock, delta);
    case AForget(k) =>
    case ARefresh(k, now) => RefreshKeepsTimed(q, k, now, clock, delta);
    case AReady(_) =>
    case AShare(k, _) => OneSessionKeepsTimed(q, Apply(q, a), k, clock, delta);
    case AReport(k, _, _) => OneSessionKeepsTimed(q, Apply(q, a), k, clock, delta);
  }

  lemma {:induction false} TraceKeepsTimed(q: QueueState, atoms: seq<Atom>, clock: real, delta: real)
    requires Inv(q) && Trace(q, atoms) && Timed(q, clock, delta)
    requires forall a :: a in atoms ==> InTime(a, clock, delta)
    ensures Timed(After(q, atoms), clock, delta)
    decreases |atoms|
  {
    hide Apply, Enabled, OrderOf, SpotsTracked, Ordered, Justified, Timed, InTime;
    if atoms != [] {
      AtomKeepsTimed(q, atoms[0], clock, delta);
      AtomKeepsInv(q, atoms[0]);
      TraceKeepsTimed(Apply(q, atoms[0]), atoms[1..], clock, delta);
    }
  }

  lemma StepKeepsTimed(q: QueueState, ev: Event, clock: real, delta: real)
    requires Inv(q) && Legal(q, ev) && Timed(q, clock, delta)
    requires Punctual(ev, clock, delta)
    ensures Timed(Step(q, ev), Clock(ev, clock), delta)
  {
    hide Step, Trace, After, OrderOf, SpotsTracked, Ordered, Justified, Legal;
    var atoms := EventTrace(q, ev, multiset{});
    var now := Clock(ev, clock);
    forall a | a in atoms
      ensures InTime(a, now, delta)
    {
      assert Within(q, ev, a);
    }
    assert now >= clock;
    TraceKeepsTimed(q, atoms, now, delta);
  }

  lemma {:induction false} RunKeepsTimed(q: QueueState, evs: seq<Event>, clock: real, delta: real)
    requires Inv(q) && Run(q, evs) && Timed(q, clock, delta) && Timeline(evs, clock, delta)
    ensures Timed(End(q, evs), EndClock(evs, clock), delta)
    decreases |evs|
  {
    hide Step, Legal, Timed;
    if evs != [] {
      StepKeepsTimed(q, evs[0], clock, delta);
      StepKeepsInv(q, evs[0]);
      RunKeepsTimed(Step(q, evs[0]), evs[1..], Clock(evs[0], clock), delta);
    }
  }

  // ---------------------------------------------------------- what a tick frees

  /** What only a request or a report changes. */
  predicate SameReports(a: SessionState, b: SessionState) {
    a.lastRequestAt == b.lastRequestAt && a.clientStatus == b.clientStatus && a.clientStatusAt == b.clientStatusAt
  }

  lemma {:induction false} PromoteLoopReports(q: QueueState, k: Key)
    requires Wf(q) && k in q.sessions
    ensures SameReports(q.sessions[k], PromoteLoop(q).sessions[k])
    ensures PromoteLoop(q).cfg == q.cfg
    decreases |q.queue|
  {
    hide Count, Eligible, Overtaken;
    var f := FirstEligible(q, 0);
    if f < |q.queue| {
      PromoteLoopReports(PromoteAt(q, f), k);
    }
  }

  lemma TickOneReports(q: QueueState, j: Key, now: real, k: Key)
    requires Wf(q) && j in q.sessions && k in q.sessions && j != k
    ensures SameReports(q.sessions[k], TickOne(q, j, now).sessions[k])
    ensures TickOne(q, j, now).cfg == q.cfg
  {
    hide Count, TickFrees, Refreshed, PromoteLoop;
    RefreshedWaiting(q, j, now);
    if TickFrees(q, j, now) {
      PromoteLoopReports(Surrender(Refresh(q, j, now), j), k);
    }
  }

  lemma RefreshedWaiting(q: QueueState, k: Key, now: real)
    requires Wf(q) && k in q.sessions
    ensures Refreshed(q.cfg, k, q.sessions[k], now).waiting == q.sessions[k].waiting
  {
  }

  lemma {:induction false} FreedAreVisited(q: QueueState, keys: seq<Key>, now: real)
    requires Wf(q) && NoDup(keys) && forall k :: k in keys ==> k in q.sessions
    ensures forall k :: k in TickOver(q, keys, now).1 ==> k in keys
    decreases |keys|
  {
    hide TickOne, TickFrees, Wf;
    if keys != [] {
      assert forall k :: k in keys[1..] ==> k in keys && k != keys[0];
      FreedAreVisited(TickOne(q, keys[0], now), keys[1..], now);
    }
  }

  /** The client's latest word is fresh. */
  predicate Fresh(s: SessionState, now: real) {
    s.clientStatus.Some? && now - s.clientStatusAt < 30.0
  }

  /** The client freshly says that it is working. */
  predicate SaysBusy(s: SessionState, now: real) {
    Fresh(s, now) && (s.clientStatus == Some(Busy) || s.clientStatus == Some(Retry))
  }

  /** The client freshly says that it will not go on by itself: it waits for its user or,
      where that counts at once, it is idle since its last request. */
  predicate SaysDone(cfg: Config, s: SessionState, now: real) {
    && Fresh(s, now) && s.clientStatusAt > 0.0
    && (s.clientStatus == Some(Waiting)
        || (cfg.immediateIdle && s.clientStatus == Some(Idle) && s.clientStatusAt > s.lastRequestAt))
  }

  /** Why a tick may free the spot of a known session. */
  predicate MayFree(cfg: Config, s: SessionState, now: real, delta: real) {
    !SaysBusy(s, now) && (SaysDone(cfg, s, now) || now >= s.lastRequestAt + cfg.expiry - delta)
  }

  lemma FreedForAReason(q: QueueState, k: Key, now: real, clock: real, delta: real)
    requires Wf(q) && k in q.sessions && Known(k) && TickFrees(q, k, now)
    requires Timed(q, clock, delta) && now >= clock - delta
    ensures MayFree(q.cfg, q.sessions[k], now, delta)
  {
    RefreshKeepsTimed(q, k, now, clock, delta);
    assert Refresh(q, k, now).sessions[k] == Refreshed(q.cfg, k, q.sessions[k], now);
  }

  lemma {:induction false} TickOverFreesForAReason(q: QueueState, keys: seq<Key>, now: real, k: Key, clock: real, delta: real)
    requires Inv(q) && NoDup(keys) && (forall x :: x in keys ==> x in q.sessions)
    requires Timed(q, clock, delta) && now >= clock - delta
    requires k in keys && k in TickOver(q, keys, now).1 && Known(k)
    ensures MayFree(q.cfg, q.sessions[k], now, delta)
    decreases |keys|
  {
    hide TickOne, TickFrees, OrderOf, SpotsTracked, Ordered, Justified, Timed, MayFree, Trace, After;
    var r := TickOne(q, keys[0], now);
    assert forall x :: x in keys[1..] ==> x in keys && x != keys[0];
    var rest := TickOver(r, keys[1..], now);
    if k == keys[0] {
      FreedAreVisited(r, keys[1..], now);
      FreedForAReason(q, k, now, clock, delta);
    } else {
      var atoms := TickOneTrace(q, keys[0], now);
      forall a | a in atoms
        ensures InTime(a, clock, delta)
      {
        assert Within(q, TickCall(now), a);
      }
      TraceKeepsInv(q, atoms);
      TraceKeepsTimed(q, atoms, clock, delta);
      TickOneReports(q, keys[0], now, k);
      TickOverFreesForAReason(r, keys[1..], now, k, clock, delta);
      assert MayFree(r.cfg, r.sessions[k], now, delta);
      MayFreeFromReports(q.cfg, q.sessions[k], r.sessions[k], now, delta);
    }
  }

  lemma MayFreeFromReports(cfg: Config, a: SessionState, b: SessionState, now: real, delta: real)
    requires SameReports(a, b)
    ensures MayFree(cfg, a, now, delta) == MayFree(cfg, b, now, delta)
  {
  }

  /** After any run, a tick frees a known session's spot only if the client does not freshly
      report that it works, and either freshly reports that it waits for its user, or (flag on)
      freshly reported idle after its last request, or the expiry has passed since its last
      request, less the lag of the ticks. */
  lemma NeverFreedEarly(cfg: Config, evs: seq<Event>, start: real, delta: real, now: real, k: Key)
    requires Started(cfg, evs) && Timeline(evs + [TickCall(now)], start, delta)
    requires k in Tick(Reached(cfg, evs), now).1 && Known(k)
    ensures k in Reached(cfg, evs).sessions
    ensures MayFree(cfg, Reached(cfg, evs).sessions[k], now, delta)
  {
    hide MayFree, TickOver;
    InitialInv(cfg);
    var q := Reached(cfg, evs);
    TimelineConcat(evs, now, start, delta);
    RunKeepsTimed(Initial(cfg), evs, start, delta);
    FreedAreVisited(q, q.order, now);
    TickOverFreesForAReason(q, q.order, now, k, EndClock(evs, start), delta);
    ConfigKept(cfg, evs);
  }

  lemma ConfigKept(cfg: Config, evs: seq<Event>)
    requires Started(cfg, evs)
    ensures Reached(cfg, evs).cfg == cfg
  {
    InitialInv(cfg);
    RunKeepsConfig(Initial(cfg), evs);
  }

  lemma {:induction false} TimelineConcat(evs: seq<Event>, now: real, clock: real, delta: real)
    requires Timeline(evs + [TickCall(now)], clock, delta)
    ensures Timeline(evs, clock, delta) && now >= EndClock(evs, clock) - delta
    decreases |evs|
  {
    if evs != [] {
      assert (evs + [TickCall(now)])[1..] == evs[1..] + [TickCall(now)];
      TimelineConcat(evs[1..], now, Clock(evs[0], clock), delta);
    }
  }
}
