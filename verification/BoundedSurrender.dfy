/** An abandoned spot is given back: how long a session that is left alone can keep it. */
module BoundedSurrender {
  import opened QueueModel
  import opened QueueSteps
  import opened QueueInvariants
  import opened QueueRuns

  /** The session holds a spot and has neither waiting nor running requests. */
  ghost predicate Quiet(q: QueueState, k: Key) {
    k in q.sessions && q.sessions[k].spotHeld && q.sessions[k].waiting == 0 && q.sessions[k].inflight == 0
  }

  ghost predicate Gone(q: QueueState, k: Key) {
    k !in q.sessions && k !in q.spots
  }

  /** The event is neither a request of the session nor a report about it. */
  predicate LeavesAlone(ev: Event, k: Key) {
    !(ev.AdmitCall? && ev.key == k) && !(ev.ReportChange? && ev.key == k)
  }

  /** The session, if any, and its hold on a spot are the same in both states. */
  ghost predicate SameFor(q: QueueState, r: QueueState, k: Key) {
    && (k in q.sessions <==> k in r.sessions)
    && (k in q.sessions ==> r.sessions[k] == q.sessions[k])
    && (k in q.spots <==> k in r.spots)
    && r.cfg == q.cfg
  }

  // ------------------------------------------------------------------ frames

  lemma PromoteAtFrame(q: QueueState, i: nat, k: Key)
    requires Wf(q) && i < |q.queue| && q.queue[i].key != k
    ensures SameFor(q, PromoteAt(q, i), k)
  {
    hide Overtaken, Count;
  }

  lemma NothingWaits(q: QueueState, k: Key)
    requires Wf(q) && (k in q.sessions ==> q.sessions[k].waiting == 0)
    ensures forall t :: t in q.queue ==> t.key != k
  {
  }

  lemma {:induction false} PromoteLoopFrame(q: QueueState, k: Key)
    requires Wf(q) && (k in q.sessions ==> q.sessions[k].waiting == 0)
    ensures SameFor(q, PromoteLoop(q), k)
    decreases |q.queue|
  {
    hide PromoteAt, Count, Eligible;
    var f := FirstEligible(q, 0);
    if f < |q.queue| {
      NothingWaits(q, k);
      PromoteAtFrame(q, f, k);
      PromoteLoopFrame(PromoteAt(q, f), k);
    }
  }

  lemma TryPromoteFrame(q: QueueState, k: Key)
    requires Wf(q) && (k in q.sessions ==> q.sessions[k].waiting == 0)
    ensures SameFor(q, TryPromote(q), k)
  {
    hide PromoteLoop;
    PromoteLoopFrame(q, k);
  }

  lemma RefreshFrame(q: QueueState, j: Key, now: real, k: Key)
    requires Wf(q) && j in q.sessions && j != k
    ensures SameFor(q, Refresh(q, j, now), k)
  {
    hide Count, Refreshed;
  }

  lemma SurrenderFrame(q: QueueState, j: Key, k: Key)
    requires Wf(q) && j in q.sessions && j != k
    ensures SameFor(q, Surrender(q, j), k)
  {
    hide Count, WithoutKey;
  }

  lemma TickOneFrame(q: QueueState, j: Key, now: real, k: Key)
    requires Wf(q) && j in q.sessions && j != k && (k in q.sessions ==> q.sessions[k].waiting == 0)
    ensures SameFor(q, TickOne(q, j, now), k)
  {
    hide Count, TickFrees, Refreshed, Surrender, TryPromote, WithoutKey, Due;
    RefreshedCounters(q.cfg, j, q.sessions[j], now);
    RefreshFrame(q, j, now, k);
    if TickFrees(q, j, now) {
      SurrenderFrame(Refresh(q, j, now), j, k);
      TryPromoteFrame(Surrender(Refresh(q, j, now), j), k);
    }
  }

  lemma TickOneSelf(q: QueueState, k: Key, now: real)
    requires Inv(q) && Quiet(q, k)
    ensures var s := Refreshed(q.cfg, k, q.sessions[k], now);
      var r := TickOne(q, k, now);
      r.cfg == q.cfg &&
      if Due(q.cfg, k, s, now) then Gone(r, k)
      else r.sessions == q.sessions[k := s] && r.spots == q.spots
  {
    hide Count, Refreshed, PromoteLoop, Due, Ordered, Justified, OrderOf;
    RefreshedCounters(q.cfg, k, q.sessions[k], now);
    if TickFrees(q, k, now) {
      PromoteLoopFrame(Surrender(Refresh(q, k, now), k), k);
    }
  }

  lemma {:induction false} TickOverFrame(q: QueueState, keys: seq<Key>, now: real, k: Key)
    requires Wf(q) && NoDup(keys) && (forall x :: x in keys ==> x in q.sessions && x != k)
    requires k in q.sessions ==> q.sessions[k].waiting == 0
    ensures SameFor(q, TickOver(q, keys, now).0, k)
    decreases |keys|
  {
    hide TickOne, TickFrees, Wf;
    if keys != [] {
      TickOneFrame(q, keys[0], now, k);
      assert forall x :: x in keys[1..] ==> x in keys && x != keys[0];
      TickOverFrame(TickOne(q, keys[0], now), keys[1..], now, k);
    }
  }

  /** A whole tick does to a quiet session what its own turn does. */
  lemma {:induction false} TickOverSelf(q: QueueState, keys: seq<Key>, now: real, k: Key)
    requires Inv(q) && NoDup(keys) && (forall x :: x in keys ==> x in q.sessions)
    requires k in keys && Quiet(q, k)
    ensures var s := Refreshed(q.cfg, k, q.sessions[k], now);
      var r := TickOver(q, keys, now).0;
      r.cfg == q.cfg &&
      if Due(q.cfg, k, s, now) then Gone(r, k) else k in r.sessions && r.sessions[k] == s
    decreases |keys|
  {
    hide TickOne, TickFrees, OrderOf, SpotsTracked, Ordered, Justified, Refreshed, Due, Trace, After;
    var r := TickOne(q, keys[0], now);
    assert forall x :: x in keys[1..] ==> x in keys && x != keys[0];
    if keys[0] == k {
      TickOneSelf(q, k, now);
      RefreshedCounters(q.cfg, k, q.sessions[k], now);
      TickOverFrame(r, keys[1..], now, k);
    } else {
      TickOneFrame(q, keys[0], now, k);
      var atoms := TickOneTrace(q, keys[0], now);
      TraceKeepsInv(q, atoms);
      TickOverSelf(r, keys[1..], now, k);
    }
  }

  lemma ManualReleaseFrame(q: QueueState, j: Key, k: Key)
    requires Inv(q) && (Quiet(q, k) || Gone(q, k))
    ensures if j == k then Gone(ReleaseSession(q, j), k) && ReleaseSession(q, j).cfg == q.cfg
            else SameFor(q, ReleaseSession(q, j), k)
  {
    hide Count, PromoteLoop, Ordered, Justified, OrderOf;
    if HoldsSpot(q, j) {
      PromoteLoopFrame(Surrender(q, j), k);
    }
  }

  lemma AdmitFrame(q: QueueState, j: Key, now: real, k: Key)
    requires Wf(q) && j != k && (k in q.sessions ==> q.sessions[k].waiting == 0)
    ensures SameFor(q, Admit(q, j, now), k)
  {
    hide TryPromote, Count;
    TryPromoteFrame(Join(Register(q, j, now), j), k);
  }

  lemma ReleaseFrame(q: QueueState, t: Ticket, now: real, k: Key)
    requires Wf(q) && t in q.running && t.key in q.sessions && t.key != k
    requires k in q.sessions ==> q.sessions[k].waiting == 0
    ensures SameFor(q, Release(q, t, now), k)
  {
    hide TryPromote, Count;
    TryPromoteFrame(Finish(q, t, now), k);
  }

  lemma LeaveFrame(q: QueueState, t: Ticket, k: Key)
    requires Wf(q) && t in q.queue && t.key != k
    ensures SameFor(q, Leave(q, t), k)
  {
    hide Count, IndexOf, RemoveAt;
  }

  lemma AbandonFrame(q: QueueState, t: Ticket, k: Key)
    requires Wf(q) && (t in q.queue || t in q.running)
    requires k in q.sessions ==> q.sessions[k].waiting == 0
    ensures SameFor(q, Abandon(q, t), k)
  {
    hide Count, Leave;
    NothingWaits(q, k);
    if t in q.queue {
      LeaveFrame(q, t, k);
    }
  }

  lemma NothingRuns(q: QueueState, k: Key)
    requires Inv(q) && (k in q.sessions ==> q.sessions[k].inflight == 0)
    ensures forall t :: t in q.running ==> t.key != k
  {
    hide SpotsTracked, Ordered, Justified, OrderOf;
  }

  /** One event that leaves the session alone. */
  lemma StepOnQuiet(q: QueueState, ev: Event, k: Key)
    requires Inv(q) && Legal(q, ev) && LeavesAlone(ev, k) && (Quiet(q, k) || Gone(q, k))
    ensures var r := Step(q, ev);
      && r.cfg == q.cfg
      && (Gone(q, k) ==> Gone(r, k))
      && (Quiet(q, k) ==>
            match ev
            case TickCall(now) =>
              var s := Refreshed(q.cfg, k, q.sessions[k], now);
              if Due(q.cfg, k, s, now) then Gone(r, k) else k in r.sessions && r.sessions[k] == s
            case ManualRelease(j) => if j == k then Gone(r, k) else k in r.sessions && r.sessions[k] == q.sessions[k]
            case _ => k in r.sessions && r.sessions[k] == q.sessions[k].(shared := r.sessions[k].shared))
  {
    hide Refreshed, Due, TickOver, Ordered, Justified, ReleaseSession, Admit, Abandon, Release, TryPromote, Count;
    match ev
    case AdmitCall(j, now) => AdmitFrame(q, j, now, k);
    case AbandonCall(t) => AbandonFrame(q, t, k);
    case ReleaseCall(t, now) =>
      NothingRuns(q, k);
      ReleaseFrame(q, t, now, k);
    case ManualRelease(j) => ManualReleaseFrame(q, j, k);
    case TickCall(now) =>
      if Quiet(q, k) {
        TickOverSelf(q, q.order, now, k);
      } else {
        TickOverFrame(q, q.order, now, k);
      }
    case PokeCall => TryPromoteFrame(q, k);
    case _ =>
  }

  // ------------------------------------------------------------ known clients

  function TickStamp(ev: Event, last: real): real {
    if ev.TickCall? then ev.now else last
  }

  /** Tick stamps do not decrease and are at most gap apart. */
  ghost predicate Dense(evs: seq<Event>, last: real, gap: real)
    decreases |evs|
  {
    evs == [] ||
    (last <= TickStamp(evs[0], last) <= last + gap && Dense(evs[1..], TickStamp(evs[0], last), gap))
  }

  ghost function LastTick(evs: seq<Event>, last: real): real
    decreases |evs|
  {
    if evs == [] then last else LastTick(evs[1..], TickStamp(evs[0], last))
  }

  /** Its report is from t or before, its countdown from a tick stamped last or before. */
  ghost predicate StampedBy(s: SessionState, t: real, last: real) {
    && (s.clientStatus.Some? ==> s.clientStatusAt <= t)
    && (s.idleSince.Some? ==> s.idleSince.value <= last)
  }

  /** Left alone since t and seen by the ticks up to last: either the last report can still
      count as fresh, or the countdown runs and has not ended. */
  ghost predicate Fading(q: QueueState, k: Key, t: real, last: real, gap: real) {
    Gone(q, k) ||
    (Quiet(q, k)
     && (var s := q.sessions[k];
         && (s.clientStatus.Some? ==> s.clientStatusAt <= t)
         && (s.idleSince.Some? ==> s.idleSince.value <= last)
         && (last >= t + STATUS_UNREACHABLE_GRACE ==>
               && s.idleSince.Some?
               && s.idleSince.value < t + STATUS_UNREACHABLE_GRACE + gap
               && last < s.idleSince.value + q.cfg.expiry)))
  }

  lemma TickFades(cfg: Config, k: Key, s: SessionState, now: real, t: real, last: real, gap: real)
    requires Known(k) && s.inflight == 0 && last <= now <= last + gap
    requires s.clientStatus.Some? ==> s.clientStatusAt <= t
    requires s.idleSince.Some? ==> s.idleSince.value <= last
    requires last >= t + STATUS_UNREACHABLE_GRACE ==>
               s.idleSince.Some? && s.idleSince.value < t + STATUS_UNREACHABLE_GRACE + gap
    requires !Due(cfg, k, Refreshed(cfg, k, s, now), now)
    ensures var r := Refreshed(cfg, k, s, now);
      && (r.idleSince.Some? ==> r.idleSince.value <= now)
      && (now >= t + STATUS_UNREACHABLE_GRACE ==>
            && r.idleSince.Some?
            && r.idleSince.value < t + STATUS_UNREACHABLE_GRACE + gap
            && now < r.idleSince.value + cfg.expiry)
  {
  }

  lemma StepFades(q: QueueState, ev: Event, k: Key, t: real, last: real, gap: real)
    requires Inv(q) && Legal(q, ev) && LeavesAlone(ev, k) && Known(k)
    requires Fading(q, k, t, last, gap)
    requires last <= TickStamp(ev, last) <= last + gap
    ensures Fading(Step(q, ev), k, t, TickStamp(ev, last), gap)
  {
    hide Step, Legal, Refreshed, Due, OrderOf, SpotsTracked, Ordered, Justified;
    StepKeepsInv(q, ev);
    StepOnQuiet(q, ev, k);
    if Quiet(q, k) && ev.TickCall? {
      RefreshedCounters(q.cfg, k, q.sessions[k], ev.now);
      RefreshedReports(q.cfg, k, q.sessions[k], ev.now);
      if !Due(q.cfg, k, Refreshed(q.cfg, k, q.sessions[k], ev.now), ev.now) {
        TickFades(q.cfg, k, q.sessions[k], ev.now, t, last, gap);
      }
    }
  }

  lemma RefreshedReports(cfg: Config, k: Key, s: SessionState, now: real)
    ensures var r := Refreshed(cfg, k, s, now);
      r.clientStatus == s.clientStatus && r.clientStatusAt == s.clientStatusAt && r.lastRequestAt == s.lastRequestAt
  {
  }

  lemma {:induction false} RunFades(q: QueueState, evs: seq<Event>, k: Key, t: real, last: real, gap: real)
    requires Inv(q) && Run(q, evs) && Known(k) && (forall ev :: ev in evs ==> LeavesAlone(ev, k))
    requires Fading(q, k, t, last, gap) && Dense(evs, last, gap)
    ensures Fading(End(q, evs), k, t, LastTick(evs, last), gap)
    decreases |evs|
  {
    hide Step, Legal, Fading, LeavesAlone;
    if evs != [] {
      var next := TickStamp(evs[0], last);
      StepFades(q, evs[0], k, t, last, gap);
      StepKeepsInv(q, evs[0]);
      RunFades(Step(q, evs[0]), evs[1..], k, t, next, gap);
    }
  }

  /** A known client's session that holds a spot at time t, with nothing waiting or running
      and no request or report afterwards, is forgotten and its spot is free once the ticks
      have reached t + 30 + expiry + gap, whatever else happens meanwhile; seen on the clock,
      before t + 30 + expiry + 2 gap. last: the stamp of the latest tick before t; the next one
      may be stamped before t too, as a tick that was polling at t is. */
  lemma KnownSpotIsSurrendered(q: QueueState, evs: seq<Event>, k: Key, t: real, last: real, gap: real, clock: real)
    requires Inv(q) && Run(q, evs) && Known(k) && Quiet(q, k) && StampedBy(q.sessions[k], t, last)
    requires forall ev :: ev in evs ==> LeavesAlone(ev, k)
    requires gap >= 0.0 && q.cfg.expiry >= 0.0 && last <= t && Dense(evs, last, gap)
    requires clock <= LastTick(evs, last) + gap
    ensures LastTick(evs, last) >= t + STATUS_UNREACHABLE_GRACE + q.cfg.expiry + gap ==> Gone(End(q, evs), k)
    ensures clock >= t + STATUS_UNREACHABLE_GRACE + q.cfg.expiry + 2.0 * gap ==> Gone(End(q, evs), k)
  {
    hide Run, End, Inv, Dense, LastTick;
    RunFades(q, evs, k, t, last, gap);
    RunKeepsConfig(q, evs);
  }

  // ---------------------------------------------------------- unknown clients

  function UnknownDeadline(cfg: Config, s: SessionState): real {
    s.lastRequestAt + MaxReal(cfg.busyWindow, cfg.expiry)
  }

  ghost predicate TickReaches(evs: seq<Event>, deadline: real) {
    exists ev :: ev in evs && ev.TickCall? && ev.now >= deadline
  }

  lemma NoTickYet(deadline: real)
    ensures !TickReaches([], deadline)
  {
  }

  lemma TickReachesCons(evs: seq<Event>, deadline: real)
    requires evs != []
    ensures TickReaches(evs, deadline) <==>
              (evs[0].TickCall? && evs[0].now >= deadline) || TickReaches(evs[1..], deadline)
  {
    assert forall ev :: ev in evs <==> ev == evs[0] || ev in evs[1..];
  }

  /** The session holds its spot quietly and an untouched session would lose it at deadline. */
  ghost predicate Kept(q: QueueState, k: Key, deadline: real) {
    Quiet(q, k) && UnknownDeadline(q.cfg, q.sessions[k]) == deadline
  }

  lemma StepOnUnknown(q: QueueState, ev: Event, k: Key, deadline: real)
    requires Inv(q) && Legal(q, ev) && LeavesAlone(ev, k) && ev != ManualRelease(k) && !Known(k)
    requires Kept(q, k, deadline)
    ensures if ev.TickCall? && ev.now >= deadline then Gone(Step(q, ev), k) else Kept(Step(q, ev), k, deadline)
  {
    hide Step, Legal, Refreshed, OrderOf, SpotsTracked, Ordered, Justified, Count, Wf;
    StepOnQuiet(q, ev, k);
    if ev.TickCall? {
      RefreshedCounters(q.cfg, k, q.sessions[k], ev.now);
      RefreshedReports(q.cfg, k, q.sessions[k], ev.now);
    }
  }

  lemma {:induction false} RunOnUnknown(q: QueueState, evs: seq<Event>, k: Key, deadline: real)
    requires Inv(q) && Run(q, evs) && !Known(k) && Kept(q, k, deadline)
    requires forall ev :: ev in evs ==> LeavesAlone(ev, k) && ev != ManualRelease(k)
    ensures if TickReaches(evs, deadline) then Gone(End(q, evs), k) else Kept(End(q, evs), k, deadline)
    decreases |evs|
  {
    hide Step, Legal, LeavesAlone, TickReaches, Gone, Kept, SpotsTracked, Ordered, Justified;
    if evs == [] {
      NoTickYet(deadline);
    } else {
      StepOnUnknown(q, evs[0], k, deadline);
      StepKeepsInv(q, evs[0]);
      TickReachesCons(evs, deadline);
      assert forall ev :: ev in evs[1..] ==> ev in evs;
      if evs[0].TickCall? && evs[0].now >= deadline {
        StaysGone(Step(q, evs[0]), evs[1..], k);
      } else {
        RunOnUnknown(Step(q, evs[0]), evs[1..], k, deadline);
      }
    }
  }

  /** An unknown client's quiet session is forgotten exactly by the first tick whose stamp
      reaches last_request_at + max(busy_window, expiry). */
  lemma UnknownSpotIsSurrendered(q: QueueState, evs: seq<Event>, k: Key)
    requires Inv(q) && Run(q, evs) && !Known(k) && Quiet(q, k)
    requires forall ev :: ev in evs ==> LeavesAlone(ev, k) && ev != ManualRelease(k)
    ensures var deadline := UnknownDeadline(q.cfg, q.sessions[k]);
      if TickReaches(evs, deadline) then Gone(End(q, evs), k) else Quiet(End(q, evs), k)
  {
    hide Run, End, Inv, TickReaches;
    RunOnUnknown(q, evs, k, UnknownDeadline(q.cfg, q.sessions[k]));
  }

  lemma {:induction false} StaysGone(q: QueueState, evs: seq<Event>, k: Key)
    requires Inv(q) && Run(q, evs) && Gone(q, k) && forall ev :: ev in evs ==> LeavesAlone(ev, k)
    ensures Gone(End(q, evs), k)
    decreases |evs|
  {
    hide Step, Legal, LeavesAlone;
    if evs != [] {
      StepOnQuiet(q, evs[0], k);
      StepKeepsInv(q, evs[0]);
      StaysGone(Step(q, evs[0]), evs[1..], k);
    }
  }
}
