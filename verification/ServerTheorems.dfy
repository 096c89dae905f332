/** Cron offs, rates, and the store as a mirror. */
module ServerTheorems {
  import opened QueueModel
  import opened ServerModel
  import opened ServerRuns

  // --------------------------------------------------------------------- cron

  /** Number of fires in (lo, hi]. */
  ghost function Fires(fires: iset<int>, lo: int, hi: int): nat
    decreases hi - lo
  {
    if hi <= lo then 0 else Fires(fires, lo, hi - 1) + (if hi in fires then 1 else 0)
  }

  lemma {:induction false} FiresGrow(fires: iset<int>, lo: int, mid: int, hi: int)
    requires lo <= mid < hi && hi in fires
    ensures Fires(fires, lo, hi) >= Fires(fires, lo, mid) + 1
    decreases hi - mid
  {
    FiresMonotone(fires, lo, mid, hi - 1);
  }

  lemma {:induction false} FiresMonotone(fires: iset<int>, lo: int, mid: int, hi: int)
    requires lo <= mid <= hi
    ensures Fires(fires, lo, hi) >= Fires(fires, lo, mid)
    decreases hi - mid
  {
    if mid < hi {
      FiresMonotone(fires, lo, mid, hi - 1);
    }
  }

  predicate IsScheduledOff(r: Record) {
    r.TurnedOff? && r.cause == Schedule
  }

  function ScheduledOffs(log: seq<Record>): nat {
    if log == [] then 0
    else ScheduledOffs(log[..|log| - 1]) + (if IsScheduledOff(log[|log| - 1]) then 1 else 0)
  }

  lemma ScheduledOffsAppend(log: seq<Record>, rs: seq<Record>)
    requires |rs| <= 2
    ensures ScheduledOffs(log + rs) == ScheduledOffs(log)
      + (if |rs| > 0 && IsScheduledOff(rs[0]) then 1 else 0) + (if |rs| > 1 && IsScheduledOff(rs[1]) then 1 else 0)
  {
    if |rs| == 0 {
      assert log + rs == log;
    } else if |rs| == 1 {
      assert (log + rs)[..|log|] == log;
    } else {
      assert (log + rs)[..|log| + 1] == log + [rs[0]];
      assert (log + [rs[0]])[..|log|] == log;
    }
  }

  /** The scheduler answers with a fire that is not after the wall clock reading; which one
      (the latest, as intended, or an older one) does not matter here. */
  ghost predicate TruthfulCron(fires: iset<int>, ev: ServerEvent) {
    ev.ScheduleTick? ==> ev.prevFire in fires && ev.prevFire <= ev.wall
  }

  function Deferred(s: ServerState): nat {
    if s.deferred then 1 else 0
  }

  /** From the baseline on, offs and the deferral beyond a credit are paid for by fires. */
  ghost predicate CronPaid(m: Machine, fires: iset<int>, base: int, credit: nat) {
    m.s.lastFiredCron.Some? && base <= m.s.lastFiredCron.value
    && ScheduledOffs(m.log) + Deferred(m.s) <= credit + Fires(fires, base, m.s.lastFiredCron.value)
  }

  lemma StepKeepsCronPaid(m: Machine, fires: iset<int>, base: int, credit: nat, ev: ServerEvent)
    requires CronPaid(m, fires, base, credit) && !ev.Restart? && TruthfulCron(fires, ev)
    ensures CronPaid(Step(m, ev), fires, base, credit)
    ensures Step(m, ev).s.lastFiredCron.value >= m.s.lastFiredCron.value
  {
    hide Effect, Records, ScheduledOffs, Fires, IsScheduledOff;
    CronFacts(m.s, m.row, ev);
    ScheduledOffsAppend(m.log, Records(m.s, ev));
    if ev.ScheduleTick? && m.s.cfg.scheduled && ev.prevFire > m.s.lastFiredCron.value {
      FiresGrow(fires, base, m.s.lastFiredCron.value, ev.prevFire);
    }
  }

  /** One event's cron bookkeeping: the mark moves to the fire seen, if later, and only then
      can an off be issued or deferred; a deferral is otherwise spent on at most one off. */
  lemma CronFacts(s: ServerState, row: Row, ev: ServerEvent)
    requires s.lastFiredCron.Some? && !ev.Restart?
    ensures var r := Effect(s, row, ev).0;
      var rs := Records(s, ev);
      var fired := ev.ScheduleTick? && s.cfg.scheduled && ev.prevFire > s.lastFiredCron.value;
      && |rs| <= 2
      && r.lastFiredCron == (if fired then Some(ev.prevFire) else s.lastFiredCron)
      && Deferred(r) + (if |rs| > 0 && IsScheduledOff(rs[0]) then 1 else 0)
           + (if |rs| > 1 && IsScheduledOff(rs[1]) then 1 else 0)
         <= Deferred(s) + (if fired then 1 else 0)
  {
  }

  lemma {:induction false} RunKeepsCronPaid(m: Machine, fires: iset<int>, base: int, credit: nat, evs: seq<ServerEvent>)
    requires CronPaid(m, fires, base, credit)
    requires forall ev :: ev in evs ==> !ev.Restart? && TruthfulCron(fires, ev)
    ensures CronPaid(End(m, evs), fires, base, credit)
    ensures End(m, evs).s.lastFiredCron.value >= m.s.lastFiredCron.value
    decreases |evs|
  {
    hide Step, TruthfulCron;
    if evs != [] {
      StepKeepsCronPaid(m, fires, base, credit, evs[0]);
      RunKeepsCronPaid(Step(m, evs[0]), fires, base, credit, evs[1..]);
    }
  }

  /** From the scheduler's first pass after any boot, which sets the baseline to the wall clock
      it reads, and for any later wall clock readings: the bookkeeping never moves back, and
      the scheduled power-offs issued since, plus one if one is deferred, are at most the cron
      fires since the baseline. */
  lemma CronOffsArePaid(m: Machine, first: ServerEvent, evs: seq<ServerEvent>, fires: iset<int>)
    requires first.ScheduleTick? && m.s.cfg.scheduled
    requires m.s.lastFiredCron.None? && !m.s.deferred
    requires forall ev :: ev in evs ==> !ev.Restart? && TruthfulCron(fires, ev)
    ensures var e := End(Step(m, first), evs);
      && e.s.lastFiredCron.Some? && e.s.lastFiredCron.value >= first.wall
      && ScheduledOffs(e.log) - ScheduledOffs(m.log) + Deferred(e.s)
           <= Fires(fires, first.wall, e.s.lastFiredCron.value)
  {
    hide End, Fires, ScheduledOffs, TruthfulCron, IsScheduledOff;
    ScheduledOffsAppend(m.log, Records(m.s, first));
    RunKeepsCronPaid(Step(m, first), fires, first.wall, ScheduledOffs(m.log), evs);
  }

  // -------------------------------------------------------------------- rates

  /** Consecutive values more than d apart. */
  ghost predicate Spaced(ts: seq<real>, d: real) {
    forall i :: 0 < i < |ts| ==> ts[i] - ts[i - 1] > d
  }

  lemma {:induction false} SpacedWindow(ts: seq<real>, d: real, i: nat, j: nat)
    requires Spaced(ts, d) && i < j < |ts|
    ensures ts[j] - ts[i] > (j - i) as real * d
    decreases j
  {
    if j > i + 1 {
      SpacedWindow(ts, d, i, j - 1);
      assert (j - i) as real * d == (j - 1 - i) as real * d + d;
    }
  }

  /** The times of the request-driven power-ons. */
  function WakeTimes(log: seq<Record>): seq<real> {
    if log == [] then []
    else
      var r := log[|log| - 1];
      WakeTimes(log[..|log| - 1]) + (if IsWake(r) then [r.at] else [])
  }

  lemma WakeTimesAppend(log: seq<Record>, r: Record)
    ensures WakeTimes(log + [r]) == WakeTimes(log) + (if IsWake(r) then [r.at] else [])
  {
    assert (log + [r])[..|log|] == log;
  }

  /** The wake-ups after the first base records keep the cooldown, also to the one before. */
  ghost predicate WakesSpaced(m: Machine, base: nat, since: real) {
    base <= |m.log| &&
    var ts := WakeTimes(m.log[base..]);
    && Spaced([since] + ts, m.s.cfg.cooldown)
    && m.s.lastPowerOnAttempt == ([since] + ts)[|ts|]
  }

  predicate IsWake(r: Record) {
    r.TurnedOn? && r.byRequest
  }

  /** Only a due wake-up turns the server on for a request and moves the stamp. */
  lemma WakeFacts(s: ServerState, row: Row, ev: ServerEvent)
    requires !ev.Restart?
    ensures Effect(s, row, ev).0.cfg == s.cfg && |Records(s, ev)| <= 2
    ensures if ev.Wake? && WakeDue(s, ev.now)
            then Records(s, ev) == [TurnedOn(ev.accepted, true, ev.cycle, ev.now)]
                 && Effect(s, row, ev).0.lastPowerOnAttempt == ev.now
            else (forall r :: r in Records(s, ev) ==> !IsWake(r))
                 && Effect(s, row, ev).0.lastPowerOnAttempt == s.lastPowerOnAttempt
  {
  }

  lemma StepKeepsWakesSpaced(m: Machine, ev: ServerEvent, base: nat, since: real)
    requires WakesSpaced(m, base, since) && !ev.Restart?
    ensures WakesSpaced(Step(m, ev), base, since) && Step(m, ev).s.cfg == m.s.cfg
  {
    hide Spaced, Effect, Records, WakeTimes;
    WakeFacts(m.s, m.row, ev);
    var rs := Records(m.s, ev);
    var ts := WakeTimes(m.log[base..]);
    assert (m.log + rs)[base..] == m.log[base..] + rs;
    if ev.Wake? && WakeDue(m.s, ev.now) {
      WakeTimesAppend(m.log[base..], rs[0]);
      SpacedAppend([since] + ts, m.s.cfg.cooldown, ev.now);
      assert [since] + ts + [ev.now] == [since] + (ts + [ev.now]);
    } else {
      assert forall i :: 0 <= i < |rs| ==> rs[i] in rs;
      NoWakesAppend(m.log[base..], rs);
    }
  }

  lemma NoWakesAppend(log: seq<Record>, rs: seq<Record>)
    requires |rs| <= 2 && forall i :: 0 <= i < |rs| ==> !IsWake(rs[i])
    ensures WakeTimes(log + rs) == WakeTimes(log)
  {
    hide WakeTimes;
    if |rs| == 0 {
      assert log + rs == log;
    } else if |rs| == 1 {
      WakeTimesAppend(log, rs[0]);
      assert log + rs == log + [rs[0]];
    } else {
      WakeTimesAppend(log, rs[0]);
      WakeTimesAppend(log + [rs[0]], rs[1]);
      assert log + rs == log + [rs[0]] + [rs[1]];
    }
  }

  lemma SpacedAppend(ts: seq<real>, d: real, t: real)
    requires Spaced(ts, d) && (ts != [] ==> t - ts[|ts| - 1] > d)
    ensures Spaced(ts + [t], d)
  {
  }

  lemma {:induction false} RunKeepsWakesSpaced(m: Machine, evs: seq<ServerEvent>, base: nat, since: real)
    requires WakesSpaced(m, base, since) && forall ev :: ev in evs ==> !ev.Restart?
    ensures WakesSpaced(End(m, evs), base, since) && End(m, evs).s.cfg == m.s.cfg
    decreases |evs|
  {
    hide Step, WakesSpaced;
    if evs != [] {
      StepKeepsWakesSpaced(m, evs[0], base, since);
      RunKeepsWakesSpaced(Step(m, evs[0]), evs[1..], base, since);
    }
  }

  lemma NoWakesYet(m: Machine)
    ensures WakesSpaced(m, |m.log|, m.s.lastPowerOnAttempt)
  {
    assert m.log[|m.log|..] == [];
  }

  /** From any state on and until the next restart, any run of request-driven power-ons, the
      j-th minus the i-th, spans more than j - i cooldowns, and the first one comes more than
      a cooldown after the last attempt before. */
  lemma WakesAreRateLimited(m: Machine, evs: seq<ServerEvent>)
    requires forall ev :: ev in evs ==> !ev.Restart?
    ensures |End(m, evs).log| >= |m.log|
    ensures var ts := WakeTimes(End(m, evs).log[|m.log|..]);
      && (forall i, j :: 0 <= i < j < |ts| ==> ts[j] - ts[i] > (j - i) as real * m.s.cfg.cooldown)
      && (ts != [] ==> ts[0] - m.s.lastPowerOnAttempt > m.s.cfg.cooldown)
  {
    hide End, WakeTimes, Spaced;
    var since := m.s.lastPowerOnAttempt;
    NoWakesYet(m);
    RunKeepsWakesSpaced(m, evs, |m.log|, since);
    var ts := WakeTimes(End(m, evs).log[|m.log|..]);
    var all := [since] + ts;
    forall i, j | 0 <= i < j < |ts|
      ensures ts[j] - ts[i] > (j - i) as real * m.s.cfg.cooldown
    {
      SpacedWindow(all, m.s.cfg.cooldown, i + 1, j + 1);
      assert all[i + 1] == ts[i] && all[j + 1] == ts[j];
    }
    if ts != [] {
      SpacedWindow(all, m.s.cfg.cooldown, 0, 1);
      assert all[1] == ts[0] && 1 as real * m.s.cfg.cooldown == m.s.cfg.cooldown;
    }
  }

  /** The monotonic clock does not go back; restarts keep it. */
  ghost predicate Monotone(evs: seq<ServerEvent>, clock: real)
    decreases |evs|
  {
    evs == [] || (clock <= TimeOf(evs[0], clock) && Monotone(evs[1..], TimeOf(evs[0], clock)))
  }

  function TimeOf(ev: ServerEvent, clock: real): real {
    match ev
    case Wake(now, _, _, _) => now
    case Traffic(now, _, _) => now
    case IdleTick(now, _, _, _, _) => now
    case Restart(now, _) => now
    case _ => clock
  }

  predicate IsIdleOff(r: Record) {
    r.TurnedOff? && r.cause == IdleTimeout
  }

  /** A moment from which the idle clock runs anew. */
  predicate RestartsClock(r: Record) {
    IsIdleOff(r) || r.Used? || r.LeftOn?
  }

  ghost predicate IdleSpaced(log: seq<Record>, d: real) {
    forall i, j :: 0 <= i < j < |log| && RestartsClock(log[i]) && IsIdleOff(log[j]) ==> log[j].at - log[i].at > d
  }

  ghost predicate IdleInv(m: Machine, clock: real) {
    && m.s.lastActivity <= clock
    && (forall i :: 0 <= i < |m.log| && RestartsClock(m.log[i]) ==> m.log[i].at <= m.s.lastActivity)
    && IdleSpaced(m.log, m.s.cfg.idleTimeout)
  }

  lemma IdleFacts(s: ServerState, row: Row, ev: ServerEvent, clock: real)
    requires s.lastActivity <= clock <= TimeOf(ev, clock)
    ensures var r := Effect(s, row, ev).0;
      && r.cfg == s.cfg && s.lastActivity <= r.lastActivity <= TimeOf(ev, clock)
      && (forall x :: x in Records(s, ev) && RestartsClock(x) ==> x.at <= r.lastActivity)
      && (forall x :: x in Records(s, ev) && IsIdleOff(x) ==>
            |Records(s, ev)| == 1 && x.at - s.lastActivity > s.cfg.idleTimeout)
  {
  }

  lemma StepKeepsIdleInv(m: Machine, ev: ServerEvent, clock: real)
    requires IdleInv(m, clock) && clock <= TimeOf(ev, clock)
    ensures IdleInv(Step(m, ev), TimeOf(ev, clock)) && Step(m, ev).s.cfg == m.s.cfg
  {
    hide Effect, Records;
    IdleFacts(m.s, m.row, ev, clock);
    var rs := Records(m.s, ev);
    var r := Step(m, ev);
    forall i | 0 <= i < |r.log| && RestartsClock(r.log[i])
      ensures r.log[i].at <= r.s.lastActivity
    {
      if i >= |m.log| {
        assert r.log[i] == rs[i - |m.log|] && rs[i - |m.log|] in rs;
      }
    }
    forall i, j | 0 <= i < j < |r.log| && RestartsClock(r.log[i]) && IsIdleOff(r.log[j])
      ensures r.log[j].at - r.log[i].at > m.s.cfg.idleTimeout
    {
      if j >= |m.log| {
        assert r.log[j] == rs[j - |m.log|] && rs[j - |m.log|] in rs;
      }
    }
  }

  lemma {:induction false} RunKeepsIdleInv(m: Machine, evs: seq<ServerEvent>, clock: real)
    requires IdleInv(m, clock) && Monotone(evs, clock)
    ensures IdleSpaced(End(m, evs).log, m.s.cfg.idleTimeout)
    decreases |evs|
  {
    hide Step;
    if evs != [] {
      StepKeepsIdleInv(m, evs[0], clock);
      RunKeepsIdleInv(Step(m, evs[0]), evs[1..], TimeOf(evs[0], clock));
    }
  }

  /** In every run, restarts included, an idle power-off comes more than idle_timeout after
      every earlier idle power-off, routed request and pass that saw activity. */
  lemma IdleOffsAreApart(cfg: ServerConfig, now: real, evs: seq<ServerEvent>)
    requires Monotone(evs, now)
    ensures IdleSpaced(End(Booted(cfg, now), evs).log, cfg.idleTimeout)
  {
    RunKeepsIdleInv(Booted(cfg, now), evs, now);
  }

  // ------------------------------------------------------------------- mirror

  ghost predicate Mirrored(m: Machine) {
    m.row == RowOf(m.s)
  }

  lemma StepKeepsMirror(m: Machine, ev: ServerEvent)
    requires Mirrored(m) && WriteOf(ev) == Stored
    requires ev.Restart? ==> ev.reconciled
    ensures Mirrored(Step(m, ev))
  {
  }

  lemma {:induction false} RunKeepsMirror(m: Machine, evs: seq<ServerEvent>)
    requires Mirrored(m)
    requires forall ev :: ev in evs ==> WriteOf(ev) == Stored && (ev.Restart? ==> ev.reconciled)
    ensures Mirrored(End(m, evs))
    decreases |evs|
  {
    hide Step, Mirrored;
    if evs != [] {
      StepKeepsMirror(m, evs[0]);
      RunKeepsMirror(Step(m, evs[0]), evs[1..]);
    }
  }

  /** While writes succeed a restart brings back ownership, override, cycle and power state
      as they were, after any run. */
  lemma RestoreUndoesPersist(cfg: ServerConfig, start: real, evs: seq<ServerEvent>, now: real)
    requires forall ev :: ev in evs ==> WriteOf(ev) == Stored && (ev.Restart? ==> ev.reconciled)
    ensures var m := End(Booted(cfg, start), evs);
      RowOf(Step(m, Restart(now, true)).s) == RowOf(m.s) == m.row
  {
    RunKeepsMirror(Booted(cfg, start), evs);
  }

  /** The event with the fate of its write forgotten. */
  function Blind(ev: ServerEvent): ServerEvent {
    if ev.Restart? then ev else ev.(w := Stored)
  }

  lemma {:induction false} WritesDoNotMatter(a: Machine, b: Machine, evs1: seq<ServerEvent>, evs2: seq<ServerEvent>)
    requires a.s == b.s && a.log == b.log && |evs1| == |evs2|
    requires forall i :: 0 <= i < |evs1| ==> Blind(evs1[i]) == Blind(evs2[i]) && !evs1[i].Restart?
    ensures End(a, evs1).s == End(b, evs2).s && End(a, evs1).log == End(b, evs2).log
    decreases |evs1|
  {
    hide PowerOn, PowerOff, OnRoutedTraffic, ScheduleOff, IdleOff, MaybePowerOn, Records;
    if evs1 != [] {
      var e1, e2 := evs1[0], evs2[0];
      assert Blind(e1) == Blind(e2);
      BlindEffect(a.s, a.row, b.row, e1, e2);
      WritesDoNotMatter(Step(a, e1), Step(b, e2), evs1[1..], evs2[1..]);
    }
  }

  lemma BlindEffect(s: ServerState, row1: Row, row2: Row, e1: ServerEvent, e2: ServerEvent)
    requires Blind(e1) == Blind(e2) && !e1.Restart?
    ensures Effect(s, row1, e1) == Effect(s, row2, e2) && Records(s, e1) == Records(s, e2)
  {
    hide PowerOn, PowerOff, OnRoutedTraffic, ScheduleOff, IdleOff, MaybePowerOn;
  }

  /** Two runs from one boot with the same inputs but different write outcomes agree in
      memory and in everything asked of the backend. */
  lemma MemoryIgnoresStore(cfg: ServerConfig, now: real, evs1: seq<ServerEvent>, evs2: seq<ServerEvent>)
    requires |evs1| == |evs2|
    requires forall i :: 0 <= i < |evs1| ==> Blind(evs1[i]) == Blind(evs2[i]) && !evs1[i].Restart?
    ensures End(Booted(cfg, now), evs1).s == End(Booted(cfg, now), evs2).s
    ensures End(Booted(cfg, now), evs1).log == End(Booted(cfg, now), evs2).log
  {
    WritesDoNotMatter(Booted(cfg, now), Booted(cfg, now), evs1, evs2);
  }
}
