/** Short runs that show why the in-flight bounds need their hypotheses: a child on its
    parent's spot, and manual releases of a busy session. */
module SpotWitnesses {
  import opened QueueModel
  import opened QueueSteps
  import opened QueueInvariants
  import opened QueueRuns
  import opened OwnSpots
  import opened BusyRelease

  const CFG := Config(1, -1, 120.0, 300.0, false, true)
  const PARENT := Key("opencode", "parent")
  const CHILD := Key("opencode", "child")

  /** One more event at the end of a run. */
  lemma {:induction false} Extend(q: QueueState, evs: seq<Event>, ev: Event)
    requires Inv(q) && Run(q, evs) && Legal(End(q, evs), ev)
    ensures Run(q, evs + [ev]) && End(q, evs + [ev]) == Step(End(q, evs), ev)
    decreases |evs|
  {
    hide Step, Legal, OrderOf, SpotsTracked, Ordered, Justified;
    if evs == [] {
      assert (evs + [ev])[1..] == [];
      StepKeepsInv(q, ev);
    } else {
      StepKeepsInv(q, evs[0]);
      Extend(Step(q, evs[0]), evs[1..], ev);
      assert (evs + [ev])[1..] == evs[1..] + [ev];
    }
  }

  ghost predicate SparesBusyThroughout(q: QueueState, evs: seq<Event>)
    decreases |evs|
  {
    evs == [] ||
    (Inv(q) && Legal(q, evs[0]) && SparesBusy(q, evs[0]) && SparesBusyThroughout(Step(q, evs[0]), evs[1..]))
  }

  lemma {:induction false} NoReleaseSparesBusy(q: QueueState, evs: seq<Event>, last: Event)
    requires Inv(q) && Run(q, evs) && forall ev :: ev in evs ==> !ev.ManualRelease?
    requires Legal(End(q, evs), last) && SparesBusy(End(q, evs), last)
    ensures SparesBusyThroughout(q, evs + [last])
    decreases |evs|
  {
    hide Step, Legal, OrderOf, SpotsTracked, Ordered, Justified;
    if evs == [] {
      assert (evs + [last])[1..] == [];
    } else {
      StepKeepsInv(q, evs[0]);
      NoReleaseSparesBusy(Step(q, evs[0]), evs[1..], last);
      assert (evs + [last])[1..] == evs[1..] + [last];
    }
  }

  lemma ReadyEmpty(cfg: Config)
    ensures Started(cfg, [ReadyChange(true)])
    ensures Reached(cfg, [ReadyChange(true)]) == Initial(cfg).(ready := true)
  {
    InitialInv(cfg);
    assert Run(Initial(cfg), []) && End(Initial(cfg), []) == Initial(cfg);
    Extend(Initial(cfg), [], ReadyChange(true));
    assert [] + [ReadyChange(true)] == [ReadyChange(true)];
  }

  const OPEN := Initial(CFG).(ready := true)

  /** The parent's request runs on the only spot. */
  const PARENT_RUNS := OPEN.(
    sessions := map[PARENT := SessionState(1.0, 1, 0, true, None, None, Busy, None, 0.0)],
    order := [PARENT], spots := {PARENT}, inflightTotal := 1, running := [Ticket(0, PARENT)],
    nextId := 1, log := [Promotion(Ticket(0, PARENT), true, [])])

  const BUSY_RELEASED := PARENT_RUNS.(
    spots := {},
    sessions := map[PARENT := SessionState(1.0, 1, 0, false, None, None, Busy, None, 0.0)])

  function Capped(q: QueueState, cap: int): QueueState {
    q.(cfg := q.cfg.(cap := cap))
  }

  /** A second request of the parent waits for its cap of one. */
  const SECOND_WAITS := Capped(PARENT_RUNS, 1).(
    sessions := map[PARENT := SessionState(2.0, 1, 1, true, None, None, Busy, None, 0.0)],
    queue := [Ticket(1, PARENT)], nextId := 2)

  const FRESH_CHILD := SessionState(2.0, 0, 1, false, None, None, Busy, None, 0.0)

  const CHILD_WAITS := PARENT_RUNS.(
    sessions := PARENT_RUNS.sessions[CHILD := FRESH_CHILD],
    order := [PARENT, CHILD], queue := [Ticket(1, CHILD)], nextId := 2)

  const CHILD_SHARES := CHILD_WAITS.(
    sessions := CHILD_WAITS.sessions[CHILD := FRESH_CHILD.(shared := Some(PARENT))])

  const CHILD_RUNS := CHILD_SHARES.(
    sessions := CHILD_SHARES.sessions[CHILD := FRESH_CHILD.(shared := Some(PARENT), inflight := 1, waiting := 0)],
    queue := [], inflightTotal := 2, running := [Ticket(0, PARENT), Ticket(1, CHILD)],
    log := PARENT_RUNS.log + [Promotion(Ticket(1, CHILD), false, [])])

  const PARENT_DONE := CHILD_RUNS.(
    sessions := CHILD_RUNS.sessions[PARENT := SessionState(3.0, 0, 0, true, None, None, Busy, None, 0.0)],
    inflightTotal := 1, running := [Ticket(1, CHILD)])

  const PARENT_GONE := PARENT_DONE.(
    sessions := PARENT_DONE.sessions - {PARENT}, order := [CHILD], spots := {})

  lemma ParentAdmitted(cap: int)
    ensures Wf(Capped(OPEN, cap)) && Admit(Capped(OPEN, cap), PARENT, 1.0) == Capped(PARENT_RUNS, cap)
  {
    var j := Join(Register(Capped(OPEN, cap), PARENT, 1.0), PARENT);
    assert j.queue == [Ticket(0, PARENT)];
    assert FirstEligible(j, 0) == 0;
    var p := PromoteAt(j, 0);
    assert p.queue == [];
    assert PromoteLoop(p) == p;
    assert p.spots == {PARENT};
  }

  lemma ParentReleasedBusy()
    ensures Wf(PARENT_RUNS) && ReleaseSession(PARENT_RUNS, PARENT) == BUSY_RELEASED
  {
    assert PARENT_RUNS.queue == [];
    assert Surrender(PARENT_RUNS, PARENT).spots == {};
    assert Surrender(PARENT_RUNS, PARENT) == BUSY_RELEASED;
    assert PromoteLoop(BUSY_RELEASED) == BUSY_RELEASED;
  }

  lemma ChildJoins()
    ensures Wf(PARENT_RUNS) && Join(Register(PARENT_RUNS, CHILD, 2.0), CHILD) == CHILD_WAITS
  {
    hide Count, Wf;
    NobodyWaits(PARENT_RUNS);
    var r := Register(PARENT_RUNS, CHILD, 2.0);
    assert Join(r, CHILD).queue == [Ticket(1, CHILD)];
    assert Join(r, CHILD).sessions == CHILD_WAITS.sessions;
  }

  lemma ChildNotEligible()
    ensures Wf(CHILD_WAITS) && TryPromote(CHILD_WAITS) == CHILD_WAITS
  {
    ChildJoins();
    var q := CHILD_WAITS;
    assert !Eligible(q, CHILD);
    assert FirstEligible(q, 1) == 1;
    assert FirstEligible(q, 0) == 1;
  }

  lemma ChildAdmitted()
    ensures Wf(PARENT_RUNS) && Admit(PARENT_RUNS, CHILD, 2.0) == CHILD_WAITS
  {
    hide Join, Register, TryPromote;
    ChildJoins();
    ChildNotEligible();
  }

  lemma ChildPromoted()
    ensures Wf(CHILD_SHARES) && Poke(CHILD_SHARES) == CHILD_RUNS
  {
    var q := CHILD_SHARES;
    assert q.queue == [Ticket(1, CHILD)];
    assert Count(q.queue, CHILD) == 1 && Count(q.queue, PARENT) == 0;
    assert FirstEligible(q, 0) == 0;
    var p := PromoteAt(q, 0);
    assert p.queue == [];
    assert p == CHILD_RUNS;
    assert PromoteLoop(p) == p;
  }

  lemma ParentFinished()
    ensures Wf(CHILD_RUNS) && Release(CHILD_RUNS, Ticket(0, PARENT), 3.0) == PARENT_DONE
  {
    assert CHILD_RUNS.queue == [];
    var f := Finish(CHILD_RUNS, Ticket(0, PARENT), 3.0);
    assert IndexOf(CHILD_RUNS.running, Ticket(0, PARENT)) == 0;
    assert f == PARENT_DONE;
    assert PromoteLoop(f) == f;
  }

  lemma ParentReleasedIdle()
    ensures Wf(PARENT_DONE) && ReleaseSession(PARENT_DONE, PARENT) == PARENT_GONE
  {
    assert PARENT_DONE.queue == [];
    var s := Surrender(PARENT_DONE, PARENT);
    assert WithoutKey([PARENT, CHILD], PARENT) == [CHILD] by {
      assert [PARENT, CHILD][1..] == [CHILD];
      assert WithoutKey([CHILD], PARENT) == [CHILD] + WithoutKey([], PARENT);
    }
    assert s.sessions == PARENT_GONE.sessions && s.spots == {};
    assert PromoteLoop(s) == s;
  }

  /** While a request of the session is in flight its spot is taken away by hand: the
      queue then reports no activity. No sharing is involved. */
  lemma BusyReleaseHidesRequest() returns (evs: seq<Event>)
    ensures Started(CFG, evs)
    ensures !HasActivity(Reached(CFG, evs)) && Reached(CFG, evs).running == [Ticket(0, PARENT)]
    ensures forall ev :: ev in evs ==> KeepsSpotsApart(ev)
  {
    hide Admit, ReleaseSession, Inv, Run, End;
    InitialInv(CFG);
    evs := [ReadyChange(true)];
    ReadyEmpty(CFG);
    ParentAdmitted(CFG.cap);
    Extend(Initial(CFG), evs, AdmitCall(PARENT, 1.0));
    evs := evs + [AdmitCall(PARENT, 1.0)];
    ParentReleasedBusy();
    Extend(Initial(CFG), evs, ManualRelease(PARENT));
    evs := evs + [ManualRelease(PARENT)];
  }

  lemma ChildWaits() returns (evs: seq<Event>)
    ensures Started(CFG, evs) && Reached(CFG, evs) == CHILD_WAITS
    ensures forall ev :: ev in evs ==> !ev.ManualRelease?
  {
    hide Admit, Inv, Run, End;
    InitialInv(CFG);
    evs := [ReadyChange(true)];
    ReadyEmpty(CFG);
    ParentAdmitted(CFG.cap);
    Extend(Initial(CFG), evs, AdmitCall(PARENT, 1.0));
    evs := evs + [AdmitCall(PARENT, 1.0)];
    ChildAdmitted();
    Extend(Initial(CFG), evs, AdmitCall(CHILD, 2.0));
    evs := evs + [AdmitCall(CHILD, 2.0)];
  }

  lemma ChildRunsShared() returns (evs: seq<Event>)
    ensures Started(CFG, evs) && Reached(CFG, evs) == CHILD_RUNS
    ensures forall ev :: ev in evs ==> !ev.ManualRelease?
  {
    hide Poke, Inv, Run, End;
    InitialInv(CFG);
    evs := ChildWaits();
    Extend(Initial(CFG), evs, ShareChange(CHILD, Some(PARENT)));
    evs := evs + [ShareChange(CHILD, Some(PARENT))];
    ChildPromoted();
    Extend(Initial(CFG), evs, PokeCall);
    evs := evs + [PokeCall];
  }

  lemma NobodyWaits(q: QueueState)
    requires q.queue == [] && forall k :: k in q.sessions ==> q.sessions[k].waiting == 0
    ensures Wf(q)
  {
  }

  lemma SecondJoins()
    ensures var q := Capped(PARENT_RUNS, 1); Wf(q) && Join(Register(q, PARENT, 2.0), PARENT) == SECOND_WAITS
  {
    hide Count, Wf;
    var q := Capped(PARENT_RUNS, 1);
    NobodyWaits(q);
    var r := Register(q, PARENT, 2.0);
    assert Join(r, PARENT).queue == [Ticket(1, PARENT)];
    assert Join(r, PARENT).sessions == SECOND_WAITS.sessions;
  }

  lemma SecondNotEligible()
    ensures Wf(SECOND_WAITS) && TryPromote(SECOND_WAITS) == SECOND_WAITS
  {
    SecondJoins();
    var q := SECOND_WAITS;
    assert !Eligible(q, PARENT);
    assert FirstEligible(q, 1) == 1;
    assert FirstEligible(q, 0) == 1;
  }

  lemma SecondWaits()
    ensures var q := Capped(PARENT_RUNS, 1); Wf(q) && Admit(q, PARENT, 2.0) == SECOND_WAITS
  {
    hide Join, Register, TryPromote;
    SecondJoins();
    SecondNotEligible();
  }

  lemma SecondOverfills()
    ensures Own(SECOND_WAITS) && WithinCap(SECOND_WAITS)
    ensures OverfillsSession(SECOND_WAITS, ManualRelease(PARENT))
  {
    var q := SECOND_WAITS;
    assert q.queue[0] == Ticket(1, PARENT) && q.queue[0] in q.queue;
    assert SpotlessAhead(q.queue, q.spots, PARENT) == {};
  }

  /** A run without sharing that ends with the manual release of a busy session whose second
      request waits for its cap of one: the freed spot goes straight back to the session, which
      then has two requests in flight. */
  lemma BusyReleaseBreaksCap() returns (evs: seq<Event>)
    ensures Started(CFG.(cap := 1), evs) && forall ev :: ev in evs ==> KeepsSpotsApart(ev)
    ensures InFlightOwnsSpot(Reached(CFG.(cap := 1), evs)) && !WithinCap(Reached(CFG.(cap := 1), evs))
  {
    hide Admit, Inv, Run, End, InFlightOwnsSpot, WithinCap, OverfillsSession, LosesSpot, Unshared, Step;
    var cfg := CFG.(cap := 1);
    InitialInv(cfg);
    evs := [ReadyChange(true)];
    ReadyEmpty(cfg);
    ParentAdmitted(1);
    Admitted(cfg, evs, PARENT, 1.0);
    evs := evs + [AdmitCall(PARENT, 1.0)];
    SecondWaits();
    Admitted(cfg, evs, PARENT, 2.0);
    evs := evs + [AdmitCall(PARENT, 2.0)];
    Extend(Initial(cfg), evs, ManualRelease(PARENT));
    SecondOverfills();
    StepKeepsOwnIff(SECOND_WAITS, ManualRelease(PARENT));
    OverfillingKeepsSpot(SECOND_WAITS, ManualRelease(PARENT));
    evs := evs + [ManualRelease(PARENT)];
  }

  lemma Admitted(cfg: Config, evs: seq<Event>, k: Key, now: real)
    requires Started(cfg, evs)
    ensures Started(cfg, evs + [AdmitCall(k, now)])
    ensures Reached(cfg, evs + [AdmitCall(k, now)]) == Admit(Reached(cfg, evs), k, now)
  {
    hide Admit, Inv, Run, End;
    InitialInv(cfg);
    Extend(Initial(cfg), evs, AdmitCall(k, now));
  }

  lemma OverfillingKeepsSpot(q: QueueState, ev: Event)
    ensures OverfillsSession(q, ev) ==> !LosesSpot(q, ev)
  {
  }

  /** A child runs on its parent's spot; the idle parent's spot is released: the child is
      in flight, no spot is held, and the queue reports no activity. No busy spot holder
      is released. */
  lemma SharingHidesRequest() returns (evs: seq<Event>)
    ensures Started(CFG, evs)
    ensures !HasActivity(Reached(CFG, evs)) && Reached(CFG, evs).running == [Ticket(1, CHILD)]
    ensures SparesBusyThroughout(Initial(CFG), evs)
  {
    hide ReleaseSession, Release, Inv, Run, End;
    InitialInv(CFG);
    evs := ChildRunsShared();
    ParentFinished();
    Extend(Initial(CFG), evs, ReleaseCall(Ticket(0, PARENT), 3.0));
    evs := evs + [ReleaseCall(Ticket(0, PARENT), 3.0)];
    ParentReleasedIdle();
    Extend(Initial(CFG), evs, ManualRelease(PARENT));
    NoReleaseSparesBusy(Initial(CFG), evs, ManualRelease(PARENT));
    evs := evs + [ManualRelease(PARENT)];
  }
}
