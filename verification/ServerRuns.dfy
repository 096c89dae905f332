/** Whole runs of one server's power engine, restarts and lost writes included. */
module ServerRuns {
  import opened QueueModel
  import opened ServerModel

  datatype Write = Stored | Dropped

  datatype Cause = Schedule | IdleTimeout | Manual

  /** History: what was asked of the backend, and what counts as use of the server. */
  datatype Record =
    | TurnedOn(accepted: bool, byRequest: bool, cycle: nat, at: real)
    | TurnedOff(cause: Cause, accepted: bool, override: Option<bool>, actual: Power, active: bool, at: real)
    | Adopted(cycle: nat)
    | Used(at: real)         // a routed request, or a shutdown pass that saw activity
    | LeftOn(at: real)       // an idle pass that found the server on, but not owned
    | Switched(on: bool)     // the auto-off switch of the monitor

  datatype Machine = Machine(s: ServerState, row: Row, log: seq<Record>)

  datatype ServerEvent =
    | Wake(now: real, accepted: bool, cycle: nat, w: Write)
    | ManualOn(accepted: bool, cycle: nat, w: Write)
    | ManualOff(accepted: bool, w: Write)
    | Traffic(now: real, cycle: nat, w: Write)
    | ServiceReady(w: Write)
    | Toggle(enabled: bool, w: Write)
    | PowerPoll(actual: Power, w: Write)
    | StartupSync(actual: Power, healthy: bool, w: Write)
    | ScheduleTick(wall: int, prevFire: int, active: bool, actual: Power, accepted: bool, w: Write)
    | IdleTick(now: real, active: bool, actual: Power, accepted: bool, w: Write)
    | Restart(now: real, reconciled: bool)

  /** The event's effect on memory, and what it persists. */
  function Effect(s: ServerState, row: Row, ev: ServerEvent): (ServerState, Update) {
    match ev
    case Wake(now, accepted, cycle, _) => MaybePowerOn(s, now, accepted, cycle)
    case ManualOn(accepted, cycle, _) => PowerOn(s, accepted, cycle)
    case ManualOff(accepted, _) => PowerOff(s, accepted)
    case Traffic(now, cycle, _) => OnRoutedTraffic(s, now, cycle)
    case ServiceReady(_) => NotePower(s, On)
    case Toggle(enabled, _) => SetOverride(s, enabled)
    case PowerPoll(actual, _) => NotePower(s, actual)
    case StartupSync(actual, healthy, _) => SyncState(s, actual, healthy)
    case ScheduleTick(wall, prevFire, active, actual, accepted, _) =>
      ScheduleOff(s, wall, prevFire, active, actual, accepted)
    case IdleTick(now, active, actual, accepted, _) => IdleOff(s, now, active, actual, accepted)
    case Restart(now, reconciled) =>
      // a failed reconciliation starts unowned with an unknown power state
      (Restored(NewServer(s.cfg, now), if reconciled then row else NewRow()), NO_UPDATE)
  }

  /** The requests the event makes of the backend, and the uses it notes. */
  function Records(s: ServerState, ev: ServerEvent): seq<Record> {
    match ev
    case Wake(now, accepted, cycle, _) => if WakeDue(s, now) then [TurnedOn(accepted, true, cycle, now)] else []
    case ManualOn(accepted, cycle, _) => [TurnedOn(accepted, false, cycle, 0.0)]
    case ManualOff(accepted, _) => [TurnedOff(Manual, accepted, s.override, s.power, false, 0.0)]
    case Traffic(now, cycle, _) => [Used(now)] + (if Adopts(s) then [Adopted(cycle)] else [])
    case Toggle(enabled, _) => [Switched(enabled)]
    case ScheduleTick(_, prevFire, active, actual, accepted, _) =>
      if ScheduleFires(s, prevFire, active, actual)
      then [TurnedOff(Schedule, accepted, s.override, actual, active, 0.0)] else []
    case IdleTick(now, active, actual, accepted, _) =>
      if IdleFires(s, now, active, actual)
      then [TurnedOff(IdleTimeout, accepted, s.override, actual, active, now)]
      else if active then [Used(now)]
      else if IdleExpired(s, now, active) && actual == On then [LeftOn(now)]
      else []
    case _ => []
  }

  function WriteOf(ev: ServerEvent): Write {
    if ev.Restart? then Stored else ev.w
  }

  function Step(m: Machine, ev: ServerEvent): Machine {
    var e := Effect(m.s, m.row, ev);
    Machine(e.0, if WriteOf(ev) == Stored then Updated(m.row, e.1) else m.row, m.log + Records(m.s, ev))
  }

  function End(m: Machine, evs: seq<ServerEvent>): Machine
    decreases |evs|
  {
    if evs == [] then m else End(Step(m, evs[0]), evs[1..])
  }

  function Booted(cfg: ServerConfig, now: real): Machine {
    Machine(NewServer(cfg, now), NewRow(), [])
  }

  // ---------------------------------------------------------------- provenance

  predicate Grants(r: Record) {
    r.Adopted? || (r.TurnedOn? && r.accepted)
  }

  predicate EndsOwnership(r: Record) {
    r.TurnedOff? && r.accepted
  }

  /** Ownership was taken after the last accepted power-off. */
  ghost predicate Entitled(log: seq<Record>) {
    exists j :: 0 <= j < |log| && Grants(log[j]) && forall l :: j < l < |log| ==> !EndsOwnership(log[l])
  }

  predicate IsAutomaticOff(r: Record) {
    r.TurnedOff? && r.cause != Manual
  }

  /** The auto-off switch if it is set, else the configuration. */
  predicate AutoOffOn(cfg: ServerConfig, override: Option<bool>) {
    override == Some(true) || (override == None && cfg.shutdownEnabled)
  }

  /** The records of the log that turn the power off by themselves are lawful. */
  ghost predicate LawfulOffs(log: seq<Record>, cfg: ServerConfig) {
    forall i :: 0 <= i < |log| && IsAutomaticOff(log[i]) ==>
      Entitled(log[..i]) && AutoOffOn(cfg, log[i].override) && log[i].actual == On && !log[i].active
  }

  ghost predicate Provenance(m: Machine) {
    && (m.s.owned ==> Entitled(m.log))
    && (m.row.owned ==> Entitled(m.log))
    && LawfulOffs(m.log, m.s.cfg)
  }

  /** The one write that must not be lost: the end of an ownership that the row records. */
  predicate OffStored(m: Machine, ev: ServerEvent) {
    m.row.owned && (exists r :: r in Records(m.s, ev) && EndsOwnership(r)) ==> WriteOf(ev) == Stored
  }

  lemma EntitledAppend(log: seq<Record>, r: Record)
    ensures Grants(r) ==> Entitled(log + [r])
    ensures Entitled(log) && !EndsOwnership(r) ==> Entitled(log + [r])
  {
    var more := log + [r];
    if Grants(r) {
      assert Grants(more[|log|]);
    }
    if Entitled(log) && !EndsOwnership(r) {
      var j :| 0 <= j < |log| && Grants(log[j]) && forall l :: j < l < |log| ==> !EndsOwnership(log[l]);
      assert Grants(more[j]) && forall l :: j < l < |more| ==> !EndsOwnership(more[l]);
    }
  }

  lemma EntitledSince(log: seq<Record>, r: Record)
    requires !Entitled(log) && !Grants(r)
    ensures !Entitled(log + [r])
  {
    var more := log + [r];
    forall j | 0 <= j < |more| && Grants(more[j])
      ensures exists l :: j < l < |more| && EndsOwnership(more[l])
    {
      assert Grants(log[j]);
      var l :| j < l < |log| && EndsOwnership(log[l]);
      assert more[l] == log[l];
    }
  }

  lemma LawfulAppend(log: seq<Record>, r: Record, cfg: ServerConfig)
    requires LawfulOffs(log, cfg)
    requires IsAutomaticOff(r) ==> Entitled(log) && AutoOffOn(cfg, r.override) && r.actual == On && !r.active
    ensures LawfulOffs(log + [r], cfg)
  {
    var more := log + [r];
    forall i | 0 <= i < |more| && IsAutomaticOff(more[i])
      ensures Entitled(more[..i]) && AutoOffOn(cfg, more[i].override) && more[i].actual == On && !more[i].active
    {
      if i < |log| {
        assert more[..i] == log[..i];
      } else {
        assert more[..i] == log;
      }
    }
  }

  lemma LastOffEndsIt(log: seq<Record>)
    requires log != [] && EndsOwnership(log[|log| - 1])
    ensures !Entitled(log)
  {
    assert forall j :: 0 <= j < |log| && Grants(log[j]) ==> j < |log| - 1;
  }

  /** An event keeps the provenance of ownership, in memory and in the row, exactly when it
      does not lose the write that ends a recorded ownership. */
  lemma StepProvenanceIff(m: Machine, ev: ServerEvent)
    requires Provenance(m)
    ensures Provenance(Step(m, ev)) <==> OffStored(m, ev)
  {
    hide Entitled, LawfulOffs;
    if OffStored(m, ev) {
      StepProvenance(m, ev);
    } else {
      LostOffLeaves(m, ev);
    }
  }

  /** Records appended by one event, and what they say about ownership. */
  lemma StepProvenance(m: Machine, ev: ServerEvent)
    requires Provenance(m) && OffStored(m, ev)
    ensures Provenance(Step(m, ev)) && Step(m, ev).s.cfg == m.s.cfg
  {
    hide Entitled, LawfulOffs;
    var rs := Records(m.s, ev);
    if |rs| == 2 {
      EntitledAppend(m.log, rs[0]);
      LawfulAppend(m.log, rs[0], m.s.cfg);
      EntitledAppend(m.log + [rs[0]], rs[1]);
      LawfulAppend(m.log + [rs[0]], rs[1], m.s.cfg);
      assert m.log + rs == m.log + [rs[0]] + [rs[1]];
    } else if |rs| == 1 {
      EntitledAppend(m.log, rs[0]);
      LawfulAppend(m.log, rs[0], m.s.cfg);
      assert m.log + rs == m.log + [rs[0]];
      assert rs[0] in rs;
    } else {
      assert m.log + rs == m.log;
    }
  }

  ghost predicate OffsStored(m: Machine, evs: seq<ServerEvent>)
    decreases |evs|
  {
    evs == [] || (OffStored(m, evs[0]) && OffsStored(Step(m, evs[0]), evs[1..]))
  }

  lemma {:induction false} RunProvenance(m: Machine, evs: seq<ServerEvent>)
    requires Provenance(m) && OffsStored(m, evs)
    ensures Provenance(End(m, evs)) && End(m, evs).s.cfg == m.s.cfg
    decreases |evs|
  {
    hide Step, OffStored, Provenance;
    if evs != [] {
      StepProvenance(m, evs[0]);
      RunProvenance(Step(m, evs[0]), evs[1..]);
    }
  }

  /** In every run, restarts included, every automatic power-off follows an accepted power-on
      or an adoption with no accepted power-off in between, and is issued only with auto-off
      enabled, the backend reporting ON and no activity; provided the writes that end a
      recorded ownership were stored. */
  lemma AutomaticOffsAreLawful(cfg: ServerConfig, now: real, evs: seq<ServerEvent>)
    requires OffsStored(Booted(cfg, now), evs)
    ensures LawfulOffs(End(Booted(cfg, now), evs).log, cfg)
  {
    RunProvenance(Booted(cfg, now), evs);
  }

  /** A lost end of ownership comes back with the row: after a restart the idle pass powers off
      a server that the proxy does not own. */
  lemma LostOffComesBack(m: Machine, now: real) returns (evs: seq<ServerEvent>)
    requires m.row.owned && !Entitled(m.log)
    ensures OffsStored(m, evs) && !LawfulOffs(End(m, evs).log, m.s.cfg)
  {
    hide Entitled;
    var later := now + MaxReal(0.0, m.s.cfg.idleTimeout) + 1.0;
    var e0, e1, e2 := Restart(now, true), Toggle(true, Stored), IdleTick(later, false, On, true, Stored);
    evs := [e0, e1, e2];
    var m1 := Step(m, e0);
    assert m1.log == m.log && m1.s.owned && m1.s.lastActivity == now;
    var m2 := Step(m1, e1);
    assert m2.log == m.log + [Switched(true)];
    var m3 := Step(m2, e2);
    var off := TurnedOff(IdleTimeout, true, Some(true), On, false, later);
    assert m3.log == m2.log + [off];
    EndOfThree(m, e0, e1, e2);
    OffsStoredOfThree(m, e0, e1, e2);
    EntitledSince(m.log, Switched(true));
    assert m3.log[..|m2.log|] == m2.log && m3.log[|m2.log|] == off;
  }

  lemma EndOfThree(m: Machine, e0: ServerEvent, e1: ServerEvent, e2: ServerEvent)
    ensures End(m, [e0, e1, e2]) == Step(Step(Step(m, e0), e1), e2)
  {
    hide Step;
    assert [e0, e1, e2][1..] == [e1, e2] && [e1, e2][1..] == [e2] && [e2][1..] == [];
    assert End(Step(Step(m, e0), e1), [e2]) == Step(Step(Step(m, e0), e1), e2);
  }

  lemma OffsStoredOfThree(m: Machine, e0: ServerEvent, e1: ServerEvent, e2: ServerEvent)
    requires WriteOf(e0) == WriteOf(e1) == WriteOf(e2) == Stored
    ensures OffsStored(m, [e0, e1, e2])
  {
    hide Step;
    assert [e0, e1, e2][1..] == [e1, e2] && [e1, e2][1..] == [e2] && [e2][1..] == [];
    assert OffsStored(Step(Step(m, e0), e1), [e2]);
  }

  /** The hypothesis of AutomaticOffsAreLawful is exact: an event stores the end of a recorded
      ownership if and only if every continuation that does so too issues lawful offs only. */
  lemma OffStoredIffLawful(m: Machine, ev: ServerEvent)
    requires Provenance(m)
    ensures OffStored(m, ev) <==>
              forall evs :: OffsStored(Step(m, ev), evs) ==> LawfulOffs(End(Step(m, ev), evs).log, m.s.cfg)
  {
    hide Entitled, LawfulOffs, OffsStored, End;
    if OffStored(m, ev) {
      StepProvenance(m, ev);
      forall evs | OffsStored(Step(m, ev), evs)
        ensures LawfulOffs(End(Step(m, ev), evs).log, m.s.cfg)
      {
        RunProvenance(Step(m, ev), evs);
      }
    } else {
      LostOffLeaves(m, ev);
      var evs := LostOffComesBack(Step(m, ev), 0.0);
    }
  }

  /** What an event that loses the end of a recorded ownership leaves behind. */
  lemma LostOffLeaves(m: Machine, ev: ServerEvent)
    requires !OffStored(m, ev)
    ensures Step(m, ev).row.owned && !Entitled(Step(m, ev).log)
  {
    hide Entitled;
    var rs := Records(m.s, ev);
    assert |rs| == 1 && EndsOwnership(rs[0]);
    LastOffEndsIt(m.log + rs);
  }

  /** Such a run from boot: adopt, switch off with the write lost, restart, and the idle pass powers
      off a server the proxy no longer owns. */
  lemma LostWriteBreaksProvenance() returns (cfg: ServerConfig, evs: seq<ServerEvent>)
    ensures !LawfulOffs(End(Booted(cfg, 0.0), evs).log, cfg)
    ensures |evs| == 4 && evs[1].ManualOff? && evs[1].w == Dropped
    ensures forall i :: 0 <= i < 4 && i != 1 ==> WriteOf(evs[i]) == Stored
  {
    cfg := ServerConfig(true, true, 10.0, 30.0, false);
    var m0 := Booted(cfg, 0.0);
    var e0 := Traffic(1.0, 7, Stored);
    var e1 := ManualOff(true, Dropped);
    var e2 := Restart(2.0, true);
    var e3 := IdleTick(100.0, false, On, true, Stored);
    evs := [e0, e1, e2, e3];
    var m1 := Step(m0, e0);
    assert m1.row.owned;
    var m2 := Step(m1, e1);
    assert m2.row.owned && !m2.s.owned;
    var m3 := Step(m2, e2);
    assert m3.s.owned && m3.log == m2.log;
    var m4 := Step(m3, e3);
    assert m4.log == [Used(1.0), Adopted(7), TurnedOff(Manual, true, None, Unknown, false, 0.0),
                      TurnedOff(IdleTimeout, true, None, On, false, 100.0)];
    assert evs[1..] == [e1, e2, e3] && [e1, e2, e3][1..] == [e2, e3] && [e2, e3][1..] == [e3] && [e3][1..] == [];
    assert End(m3, [e3]) == End(m4, []) == m4;
    assert End(m2, [e2, e3]) == m4;
    assert End(m1, [e1, e2, e3]) == m4;
    assert End(m0, evs) == m4;
    assert m4.log[..3][2] == m4.log[2] && EndsOwnership(m4.log[..3][2]);
    assert !Entitled(m4.log[..3]);
    assert IsAutomaticOff(m4.log[3]);
  }
}
