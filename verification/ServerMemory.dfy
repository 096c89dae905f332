/** What a server remembers is what its log tells, and what it asks of the backend follows from
    that: exact conditions, over whole runs, for wake-ups, adoption and power-offs. */
module ServerMemory {
  import opened QueueModel
  import opened ServerModel
  import opened ServerRuns
  import opened ServerTheorems

  // ------------------------------------------------------- memory from the log

  /** clock: where the idle time counts from; attempt: the last request-driven power-on. */
  datatype Memory = Memory(owned: bool, override: Option<bool>, cycle: Option<nat>, clock: real, attempt: real)

  function MemoryOf(s: ServerState): Memory {
    Memory(s.owned, s.override, s.cycle, s.lastActivity, s.lastPowerOnAttempt)
  }

  /** An accepted power-on takes ownership, ends the switch and starts a cycle; an accepted
      power-off ends ownership; adoption takes it and starts a cycle where there is none. */
  function Recall(m: Memory, r: Record): Memory {
    match r
    case TurnedOn(accepted, byRequest, cycle, at) =>
      var tried := if byRequest then m.(attempt := at) else m;
      if accepted then tried.(owned := true, override := None, cycle := Some(cycle)) else tried
    case TurnedOff(cause, accepted, _, _, _, at) =>
      var timed := if cause == IdleTimeout then m.(clock := at) else m;
      if accepted then timed.(owned := false) else timed
    case Adopted(cycle) => m.(owned := true, cycle := if m.cycle.None? then Some(cycle) else m.cycle)
    case Used(at) => m.(clock := at)
    case LeftOn(at) => m.(clock := at)
    case Switched(on) => m.(override := Some(on))
  }

  function RecallAll(m: Memory, log: seq<Record>): Memory {
    if log == [] then m else Recall(RecallAll(m, log[..|log| - 1]), log[|log| - 1])
  }

  lemma RecallOne(m: Memory, log: seq<Record>, r: Record)
    ensures RecallAll(m, log + [r]) == Recall(RecallAll(m, log), r)
  {
    assert (log + [r])[..|log|] == log;
  }

  lemma {:induction false} RecallConcat(m: Memory, a: seq<Record>, b: seq<Record>)
    ensures RecallAll(m, a + b) == RecallAll(RecallAll(m, a), b)
    decreases |b|
  {
    hide Recall;
    if b == [] {
      assert a + b == a;
    } else {
      var last := b[|b| - 1];
      RecallConcat(m, a, b[..|b| - 1]);
      RecallOne(m, a + b[..|b| - 1], last);
      assert a + b == a + b[..|b| - 1] + [last];
    }
  }

  lemma RecallFew(m: Memory, rs: seq<Record>)
    ensures rs == [] ==> RecallAll(m, rs) == m
    ensures |rs| == 1 ==> RecallAll(m, rs) == Recall(m, rs[0])
    ensures |rs| == 2 ==> RecallAll(m, rs) == Recall(Recall(m, rs[0]), rs[1])
  {
    hide Recall;
    if |rs| == 1 {
      assert rs[..0] == [];
    } else if |rs| == 2 {
      assert rs[..1][..0] == [] && rs[..1] == [rs[0]];
      RecallOne(m, [], rs[0]);
      assert [] + [rs[0]] == [rs[0]];
    }
  }

  lemma StepRecalls(m: Machine, ev: ServerEvent)
    requires !ev.Restart?
    ensures MemoryOf(Step(m, ev).s) == RecallAll(MemoryOf(m.s), Records(m.s, ev))
    ensures Step(m, ev).s.cfg == m.s.cfg
  {
    hide RecallAll;
    RecallFew(MemoryOf(m.s), Records(m.s, ev));
  }

  /** The part of the log that the run has added. */
  function Since(m: Machine, e: Machine): seq<Record>
    requires |m.log| <= |e.log|
  {
    e.log[|m.log|..]
  }

  /** Between restarts ownership, switch, cycle, idle clock and wake-up stamp are exactly what
      the log tells, whatever became of the writes. */
  lemma {:induction false} MemoryIsRecall(m: Machine, evs: seq<ServerEvent>)
    requires forall ev :: ev in evs ==> !ev.Restart?
    ensures var e := End(m, evs);
      && |m.log| <= |e.log| && e.s.cfg == m.s.cfg
      && MemoryOf(e.s) == RecallAll(MemoryOf(m.s), Since(m, e))
    decreases |evs|
  {
    hide Effect, Records, Recall, MemoryOf;
    if evs == [] {
      assert m.log[|m.log|..] == [];
    } else {
      var n := Step(m, evs[0]);
      var e := End(m, evs);
      StepRecalls(m, evs[0]);
      MemoryIsRecall(n, evs[1..]);
      LogGrows(n, evs[1..]);
      RecallConcat(MemoryOf(m.s), Records(m.s, evs[0]), Since(n, e));
      assert Since(m, e) == Records(m.s, evs[0]) + Since(n, e);
    }
  }

  lemma {:induction false} LogGrows(m: Machine, evs: seq<ServerEvent>)
    ensures m.log <= End(m, evs).log
    decreases |evs|
  {
    hide Effect, Records;
    if evs != [] {
      LogGrows(Step(m, evs[0]), evs[1..]);
    }
  }

  // ------------------------------------------------------------ the cron memory

  datatype Cron = Cron(mark: Option<int>, deferred: bool)

  /** A pass sees a fire after the mark, or still owes one it saw while active. */
  predicate Owed(c: Cron, prevFire: int) {
    c.mark.Some? && (prevFire > c.mark.value || c.deferred)
  }

  /** The mark moves to the latest fire seen; a fire stays owed as long as passes are active. */
  function CronAfter(c: Cron, ev: ServerEvent, scheduled: bool): Cron {
    if !ev.ScheduleTick? || !scheduled then c
    else if c.mark.None? then Cron(Some(ev.wall), c.deferred)
    else Cron(Some(if ev.prevFire > c.mark.value then ev.prevFire else c.mark.value), ev.active && Owed(c, ev.prevFire))
  }

  function CronAll(c: Cron, evs: seq<ServerEvent>, scheduled: bool): Cron
    decreases |evs|
  {
    if evs == [] then c else CronAll(CronAfter(c, evs[0], scheduled), evs[1..], scheduled)
  }

  function CronOf(s: ServerState): Cron {
    Cron(s.lastFiredCron, s.deferred)
  }

  lemma StepRecallsCron(m: Machine, ev: ServerEvent)
    requires !ev.Restart?
    ensures CronOf(Step(m, ev).s) == CronAfter(CronOf(m.s), ev, m.s.cfg.scheduled)
    ensures Step(m, ev).s.cfg == m.s.cfg
  {
  }

  lemma {:induction false} CronIsRecall(m: Machine, evs: seq<ServerEvent>)
    requires forall ev :: ev in evs ==> !ev.Restart?
    ensures CronOf(End(m, evs).s) == CronAll(CronOf(m.s), evs, m.s.cfg.scheduled)
    decreases |evs|
  {
    hide Step, CronAfter, CronOf;
    if evs != [] {
      StepRecallsCron(m, evs[0]);
      CronIsRecall(Step(m, evs[0]), evs[1..]);
    }
  }

  lemma {:induction false} OwedWhileActive(c: Cron, evs: seq<ServerEvent>, scheduled: bool)
    requires c.mark.Some? && c.deferred
    requires forall ev :: ev in evs ==> (ev.ScheduleTick? ==> ev.active)
    ensures CronAll(c, evs, scheduled).mark.Some? && CronAll(c, evs, scheduled).deferred
    decreases |evs|
  {
    if evs != [] {
      OwedWhileActive(CronAfter(c, evs[0], scheduled), evs[1..], scheduled);
    }
  }

  // ------------------------------------------------------------ the power state

  /** The latest reading: a poll, a ready service, or the startup sync. */
  function PowerAll(power: Power, evs: seq<ServerEvent>): Power
    decreases |evs|
  {
    if evs == [] then power
    else
      PowerAll(match evs[0]
               case PowerPoll(actual, _) => actual
               case ServiceReady(_) => On
               case StartupSync(actual, healthy, _) => if healthy then On else actual
               case _ => power, evs[1..])
  }

  lemma {:induction false} PowerIsLatestReading(m: Machine, evs: seq<ServerEvent>)
    requires forall ev :: ev in evs ==> !ev.Restart?
    ensures End(m, evs).s.power == PowerAll(m.s.power, evs)
    decreases |evs|
  {
    hide Records;
    if evs != [] {
      PowerIsLatestReading(Step(m, evs[0]), evs[1..]);
    }
  }

  // -------------------------------------------------------- the exact decisions

  /** Until the next restart, a wake-up is issued if and only if more than a cooldown has
      passed since the last one issued. */
  lemma WakeIff(m: Machine, evs: seq<ServerEvent>, now: real, accepted: bool, cycle: nat, w: Write)
    requires forall ev :: ev in evs ==> !ev.Restart?
    ensures var e := End(m, evs);
      |m.log| <= |e.log| &&
      var mem := RecallAll(MemoryOf(m.s), Since(m, e));
      Records(e.s, Wake(now, accepted, cycle, w)) ==
        if now - mem.attempt > m.s.cfg.cooldown then [TurnedOn(accepted, true, cycle, now)] else []
  {
    hide End, RecallAll;
    MemoryIsRecall(m, evs);
  }

  /** A routed request adopts the server if and only if the configuration says so and the
      server is not owned. */
  lemma AdoptIff(m: Machine, evs: seq<ServerEvent>, now: real, cycle: nat, w: Write)
    requires forall ev :: ev in evs ==> !ev.Restart?
    ensures var e := End(m, evs);
      |m.log| <= |e.log| &&
      var mem := RecallAll(MemoryOf(m.s), Since(m, e));
      Records(e.s, Traffic(now, cycle, w)) ==
        if m.s.cfg.adoptOnTraffic && !mem.owned then [Used(now), Adopted(cycle)] else [Used(now)]
  {
    hide End, RecallAll;
    MemoryIsRecall(m, evs);
  }

  /** An idle pass powers the server off if and only if it sees no activity and the backend
      ON, the server is owned, auto-off is on, and the idle time exceeds the timeout. */
  lemma IdleOffIff(m: Machine, evs: seq<ServerEvent>, now: real, active: bool, actual: Power, accepted: bool, w: Write)
    requires forall ev :: ev in evs ==> !ev.Restart?
    ensures var e := End(m, evs);
      |m.log| <= |e.log| &&
      var mem := RecallAll(MemoryOf(m.s), Since(m, e));
      (exists r :: r in Records(e.s, IdleTick(now, active, actual, accepted, w)) && IsAutomaticOff(r)) <==>
        !active && actual == On && mem.owned && AutoOffOn(m.s.cfg, mem.override)
        && now - mem.clock > m.s.cfg.idleTimeout
  {
    hide End, RecallAll;
    MemoryIsRecall(m, evs);
    IdlePassIff(End(m, evs).s, now, active, actual, accepted, w);
  }

  lemma IdlePassIff(s: ServerState, now: real, active: bool, actual: Power, accepted: bool, w: Write)
    ensures (exists r :: r in Records(s, IdleTick(now, active, actual, accepted, w)) && IsAutomaticOff(r)) <==>
              !active && actual == On && s.owned && AutoOffOn(s.cfg, s.override)
              && now - s.lastActivity > s.cfg.idleTimeout
  {
    OneRecord(Records(s, IdleTick(now, active, actual, accepted, w)));
  }

  /** A cron pass powers the server off if and only if it sees no activity, a fire is owed, the
      server is owned, auto-off is on and the backend reports ON. */
  lemma ScheduleOffIff(m: Machine, evs: seq<ServerEvent>, wall: int, prevFire: int, active: bool, actual: Power,
      accepted: bool, w: Write)
    requires forall ev :: ev in evs ==> !ev.Restart?
    ensures var e := End(m, evs);
      |m.log| <= |e.log| &&
      var mem := RecallAll(MemoryOf(m.s), Since(m, e));
      (exists r :: r in Records(e.s, ScheduleTick(wall, prevFire, active, actual, accepted, w)) && IsAutomaticOff(r)) <==>
        m.s.cfg.scheduled && !active && Owed(CronAll(CronOf(m.s), evs, m.s.cfg.scheduled), prevFire)
        && mem.owned && AutoOffOn(m.s.cfg, mem.override) && actual == On
  {
    hide End, RecallAll, CronAll;
    MemoryIsRecall(m, evs);
    CronIsRecall(m, evs);
    OneRecord(Records(End(m, evs).s, ScheduleTick(wall, prevFire, active, actual, accepted, w)));
  }

  lemma OneRecord(rs: seq<Record>)
    requires |rs| <= 1
    ensures (exists r :: r in rs && IsAutomaticOff(r)) <==> rs != [] && IsAutomaticOff(rs[0])
  {
    if rs != [] {
      assert rs[0] in rs;
    }
  }

  /** A fire that a pass saw while the server was active is not lost: the first pass after it
      that sees no activity powers the server off, if it may. */
  lemma DeferredOffIsIssued(m: Machine, fire: ServerEvent, evs: seq<ServerEvent>, last: ServerEvent)
    requires m.s.cfg.scheduled && m.s.lastFiredCron.Some?
    requires fire.ScheduleTick? && fire.active && fire.prevFire > m.s.lastFiredCron.value
    requires forall ev :: ev in evs ==> !ev.Restart? && (ev.ScheduleTick? ==> ev.active)
    requires last.ScheduleTick? && !last.active && last.actual == On
    ensures var e := End(Step(m, fire), evs);
      && (e.s.owned && AutoOffOn(m.s.cfg, e.s.override) ==>
            Records(e.s, last) == [TurnedOff(Schedule, last.accepted, e.s.override, On, false, 0.0)])
      && !Step(e, last).s.deferred
  {
    hide End, CronAll, RecallAll, Records, Step;
    var n := Step(m, fire);
    StepRecallsCron(m, fire);
    CronIsRecall(n, evs);
    OwedWhileActive(CronOf(n.s), evs, m.s.cfg.scheduled);
    MemoryIsRecall(n, evs);
    StepRecallsCron(End(n, evs), last);
    OwedIsIssued(End(n, evs).s, last);
  }

  lemma OwedIsIssued(s: ServerState, last: ServerEvent)
    requires s.cfg.scheduled && s.lastFiredCron.Some? && s.deferred
    requires last.ScheduleTick? && !last.active && last.actual == On
    ensures s.owned && AutoOffOn(s.cfg, s.override) ==>
              Records(s, last) == [TurnedOff(Schedule, last.accepted, s.override, On, false, 0.0)]
  {
  }

  // ----------------------------------------------------------- across restarts

  const NOTHING := Memory(false, None, None, 0.0, 0.0)

  /** The remembered part that a row keeps. */
  predicate AgreesWith(s: ServerState, mem: Memory) {
    s.owned == mem.owned && s.override == mem.override && s.cycle == mem.cycle
  }

  /** The parts that a row keeps are the same. */
  predicate SameKept(a: Memory, b: Memory) {
    a.owned == b.owned && a.override == b.override && a.cycle == b.cycle
  }

  lemma RecallKeepsSame(a: Memory, b: Memory, r: Record)
    requires SameKept(a, b)
    ensures SameKept(Recall(a, r), Recall(b, r))
  {
  }

  lemma {:induction false} AgreesAfter(a: Memory, b: Memory, rs: seq<Record>)
    requires SameKept(a, b)
    ensures SameKept(RecallAll(a, rs), RecallAll(b, rs))
    decreases |rs|
  {
    hide Recall, SameKept;
    if rs != [] {
      AgreesAfter(a, b, rs[..|rs| - 1]);
      RecallKeepsSame(RecallAll(a, rs[..|rs| - 1]), RecallAll(b, rs[..|rs| - 1]), rs[|rs| - 1]);
    }
  }

  predicate Kept(ev: ServerEvent) {
    WriteOf(ev) == Stored && (ev.Restart? ==> ev.reconciled)
  }

  lemma StepAgrees(m: Machine, ev: ServerEvent)
    requires Mirrored(m) && AgreesWith(m.s, RecallAll(NOTHING, m.log)) && Kept(ev)
    ensures Mirrored(Step(m, ev)) && AgreesWith(Step(m, ev).s, RecallAll(NOTHING, Step(m, ev).log))
    ensures Step(m, ev).s.cfg == m.s.cfg
  {
    hide RecallAll, Records, Effect;
    StepKeepsMirror(m, ev);
    if ev.Restart? {
      RestartRecalls(m, ev);
    } else {
      StepRecalls(m, ev);
      AgreesAfter(MemoryOf(m.s), RecallAll(NOTHING, m.log), Records(m.s, ev));
      RecallConcat(NOTHING, m.log, Records(m.s, ev));
    }
  }

  lemma RestartRecalls(m: Machine, ev: ServerEvent)
    requires Mirrored(m) && ev.Restart? && ev.reconciled
    ensures var n := Step(m, ev);
      n.log == m.log && n.s.owned == m.s.owned && n.s.override == m.s.override && n.s.cycle == m.s.cycle
      && n.s.cfg == m.s.cfg
  {
  }

  /** The switch as the log tells it when the off was issued. */
  ghost predicate SwitchTold(log: seq<Record>) {
    forall i :: 0 <= i < |log| && IsAutomaticOff(log[i]) ==> log[i].override == RecallAll(NOTHING, log[..i]).override
  }

  lemma StepTellsSwitch(m: Machine, ev: ServerEvent)
    requires SwitchTold(m.log) && m.s.override == RecallAll(NOTHING, m.log).override
    ensures SwitchTold(Step(m, ev).log)
  {
    var rs := Records(m.s, ev);
    OffsComeAlone(m.s, ev);
    var log := Step(m, ev).log;
    forall i | 0 <= i < |log| && IsAutomaticOff(log[i])
      ensures log[i].override == RecallAll(NOTHING, log[..i]).override
    {
      if i < |m.log| {
        assert log[..i] == m.log[..i];
      } else {
        assert log[i] == rs[i - |m.log|] && rs[i - |m.log|] in rs;
        assert log[..i] == m.log;
      }
    }
  }

  lemma OffsComeAlone(s: ServerState, ev: ServerEvent)
    ensures forall r :: r in Records(s, ev) && IsAutomaticOff(r) ==> |Records(s, ev)| == 1 && r.override == s.override
  {
  }

  lemma {:induction false} RunAgrees(m: Machine, evs: seq<ServerEvent>)
    requires Mirrored(m) && AgreesWith(m.s, RecallAll(NOTHING, m.log)) && SwitchTold(m.log)
    requires forall ev :: ev in evs ==> Kept(ev)
    ensures var e := End(m, evs);
      Mirrored(e) && AgreesWith(e.s, RecallAll(NOTHING, e.log)) && SwitchTold(e.log) && e.s.cfg == m.s.cfg
    decreases |evs|
  {
    hide Step, Kept, RecallAll, SwitchTold, Mirrored;
    if evs != [] {
      StepAgrees(m, evs[0]);
      StepTellsSwitch(m, evs[0]);
      RunAgrees(Step(m, evs[0]), evs[1..]);
    }
  }

  lemma {:induction false} EntitledIsOwned(mem: Memory, log: seq<Record>)
    requires !mem.owned
    ensures Entitled(log) <==> RecallAll(mem, log).owned
    decreases |log|
  {
    if log != [] {
      var front, last := log[..|log| - 1], log[|log| - 1];
      assert log == front + [last];
      EntitledIsOwned(mem, front);
      EntitledAppend(front, last);
      if EndsOwnership(last) {
        LastOffEndsIt(log);
      } else if !Grants(last) && !Entitled(front) {
        EntitledSince(front, last);
      }
    }
  }

  /** In every run with stored writes, reconciled restarts included: the server is owned, in
      memory and in the row, exactly when an accepted power-on or an adoption has not been
      followed by an accepted power-off; the switch is the latest toggle since the last
      accepted power-on; and every automatic power-off was issued with that switch on or, where
      it is not set, with auto-off configured. */
  lemma OwnershipAndSwitchAreExact(cfg: ServerConfig, now: real, evs: seq<ServerEvent>)
    requires forall ev :: ev in evs ==> Kept(ev)
    ensures var e := End(Booted(cfg, now), evs);
      && (e.s.owned <==> Entitled(e.log)) && e.row.owned == e.s.owned
      && e.s.override == RecallAll(NOTHING, e.log).override == e.row.override
      && e.s.cycle == RecallAll(NOTHING, e.log).cycle == e.row.cycle
      && forall i :: 0 <= i < |e.log| && IsAutomaticOff(e.log[i]) ==>
           AutoOffOn(cfg, RecallAll(NOTHING, e.log[..i]).override)
  {
    hide RecallAll, Entitled, End;
    var m := Booted(cfg, now);
    BootedAgrees(cfg, now);
    RunAgrees(m, evs);
    EntitledIsOwned(NOTHING, End(m, evs).log);
    AllStored(m, evs);
    AutomaticOffsAreLawful(cfg, now, evs);
  }

  lemma BootedAgrees(cfg: ServerConfig, now: real)
    ensures var m := Booted(cfg, now);
      Mirrored(m) && AgreesWith(m.s, RecallAll(NOTHING, m.log)) && SwitchTold(m.log)
  {
  }

  lemma {:induction false} AllStored(m: Machine, evs: seq<ServerEvent>)
    requires forall ev :: ev in evs ==> Kept(ev)
    ensures OffsStored(m, evs)
    decreases |evs|
  {
    hide Step, Records;
    if evs != [] {
      assert Kept(evs[0]);
      AllStored(Step(m, evs[0]), evs[1..]);
    }
  }

  // --------------------------------------------------------- what never happens

  ghost predicate Unswitched(m: Machine) {
    && !m.s.cfg.shutdownEnabled && m.s.override == None && m.row.override == None
    && forall r :: r in m.log ==> !IsAutomaticOff(r)
  }

  lemma StepUnswitched(m: Machine, ev: ServerEvent)
    requires Unswitched(m) && !ev.Toggle?
    ensures Unswitched(Step(m, ev))
  {
    NoOffUnswitched(m.s, ev);
  }

  lemma NoOffUnswitched(s: ServerState, ev: ServerEvent)
    requires !s.cfg.shutdownEnabled && s.override == None
    ensures forall r :: r in Records(s, ev) ==> !IsAutomaticOff(r)
  {
  }

  lemma {:induction false} RunUnswitched(m: Machine, evs: seq<ServerEvent>)
    requires Unswitched(m) && forall ev :: ev in evs ==> !ev.Toggle?
    ensures Unswitched(End(m, evs))
    decreases |evs|
  {
    hide Step, Unswitched;
    if evs != [] {
      StepUnswitched(m, evs[0]);
      RunUnswitched(Step(m, evs[0]), evs[1..]);
    }
  }

  /** With auto-off not configured and never switched on by hand, the proxy powers the server
      off in no run, whatever restarts and lost writes. */
  lemma NoSwitchNoOff(cfg: ServerConfig, now: real, evs: seq<ServerEvent>)
    requires !cfg.shutdownEnabled && forall ev :: ev in evs ==> !ev.Toggle?
    ensures forall r :: r in End(Booted(cfg, now), evs).log ==> !IsAutomaticOff(r)
  {
    RunUnswitched(Booted(cfg, now), evs);
  }

  lemma StepNeverAdopts(m: Machine, ev: ServerEvent)
    requires !m.s.cfg.adoptOnTraffic && forall r :: r in m.log ==> !r.Adopted?
    ensures Step(m, ev).s.cfg == m.s.cfg && forall r :: r in Step(m, ev).log ==> !r.Adopted?
  {
  }

  /** With adoption not configured no run adopts the server. */
  lemma {:induction false} NeverAdopts(m: Machine, evs: seq<ServerEvent>)
    requires !m.s.cfg.adoptOnTraffic && forall r :: r in m.log ==> !r.Adopted?
    ensures forall r :: r in End(m, evs).log ==> !r.Adopted?
    decreases |evs|
  {
    hide Step;
    if evs != [] {
      StepNeverAdopts(m, evs[0]);
      NeverAdopts(Step(m, evs[0]), evs[1..]);
    }
  }
}
