/** One server with its endpoints: what is going on when the proxy powers the server off by
    itself. Queues, unqueued forwards and the power engine run interleaved in any way. */
module SafePowerOff {
  import opened QueueModel
  import Q = QueueSteps
  import opened QueueInvariants
  import opened QueueRuns
  import opened OwnSpots
  import opened BusyRelease
  import SpotWitnesses
  import opened ServerModel
  import opened ServerRuns
  import opened ServerMemory

  datatype Endpoint = Endpoint(q: QueueState, forwards: nat)

  datatype Site = Site(m: Machine, eps: seq<Endpoint>)

  datatype SiteEvent =
    | AtQueue(i: nat, ev: Q.Event)
    | ForwardBegins(i: nat)
    | ForwardEnds(i: nat)
    | AtServer(sev: ServerEvent)

  predicate EndpointActive(e: Endpoint) {
    HasActivity(e.q) || e.forwards > 0
  }

  ghost predicate SiteActive(eps: seq<Endpoint>) {
    exists e :: e in eps && EndpointActive(e)
  }

  ghost predicate SiteInv(c: Site) {
    forall e :: e in c.eps ==> Inv(e.q)
  }

  /** The shutdown passes see the activity there is. */
  ghost predicate SiteLegal(c: Site, ev: SiteEvent)
    requires SiteInv(c)
  {
    match ev
    case AtQueue(i, e) => i < |c.eps| && Q.Legal(c.eps[i].q, e)
    case ForwardBegins(i) => i < |c.eps|
    case ForwardEnds(i) => i < |c.eps| && c.eps[i].forwards > 0
    case AtServer(e) => e.ScheduleTick? || e.IdleTick? ==> e.active == SiteActive(c.eps)
  }

  /** A restart forgets queues and forwards. */
  function Emptied(eps: seq<Endpoint>): (r: seq<Endpoint>)
    ensures |r| == |eps| && forall i :: 0 <= i < |eps| ==> r[i] == Endpoint(Initial(eps[i].q.cfg), 0)
  {
    if eps == [] then [] else [Endpoint(Initial(eps[0].q.cfg), 0)] + Emptied(eps[1..])
  }

  ghost function SiteStep(c: Site, ev: SiteEvent): Site
    requires SiteInv(c) && SiteLegal(c, ev)
  {
    match ev
    case AtQueue(i, e) => c.(eps := c.eps[i := c.eps[i].(q := Q.Step(c.eps[i].q, e))])
    case ForwardBegins(i) => c.(eps := c.eps[i := c.eps[i].(forwards := c.eps[i].forwards + 1)])
    case ForwardEnds(i) => c.(eps := c.eps[i := c.eps[i].(forwards := c.eps[i].forwards - 1)])
    case AtServer(e) => Site(Step(c.m, e), if e.Restart? then Emptied(c.eps) else c.eps)
  }

  ghost predicate SiteGentle(c: Site, ev: SiteEvent) {
    ev.AtQueue? && ev.i < |c.eps| ==> Gentle(c.eps[ev.i].q, ev.ev)
  }

  ghost predicate SiteOwn(c: Site) {
    forall e :: e in c.eps ==> Own(e.q)
  }

  lemma UpdateMembers<T>(s: seq<T>, i: nat, x: T)
    requires i < |s|
    ensures forall e :: e in s[i := x] ==> e in s || e == x
  {
  }

  lemma EmptiedInv(eps: seq<Endpoint>)
    ensures forall e :: e in Emptied(eps) ==> Inv(e.q) && Own(e.q)
  {
    forall e | e in Emptied(eps)
      ensures Inv(e.q) && Own(e.q)
    {
      var i :| 0 <= i < |eps| && Emptied(eps)[i] == e;
      InitialInv(eps[i].q.cfg);
    }
  }

  lemma SiteStepKeepsInv(c: Site, ev: SiteEvent)
    requires SiteInv(c) && SiteLegal(c, ev)
    ensures SiteInv(SiteStep(c, ev))
    ensures SiteOwn(c) && SiteGentle(c, ev) ==> SiteOwn(SiteStep(c, ev))
  {
    hide SpotsTracked, Ordered, Justified, Own, Q.Legal, Q.Step, Step, Gentle, OrderOf;
    match ev
    case AtQueue(i, e) =>
      StepKeepsInv(c.eps[i].q, e);
      UpdateMembers(c.eps, i, c.eps[i].(q := Q.Step(c.eps[i].q, e)));
      if SiteOwn(c) && SiteGentle(c, ev) {
        GentleStepKeepsOwn(c.eps[i].q, e);
      }
    case ForwardBegins(i) => UpdateMembers(c.eps, i, c.eps[i].(forwards := c.eps[i].forwards + 1));
    case ForwardEnds(i) => UpdateMembers(c.eps, i, c.eps[i].(forwards := c.eps[i].forwards - 1));
    case AtServer(e) => EmptiedInv(c.eps);
  }

  ghost predicate SiteRun(c: Site, evs: seq<SiteEvent>)
    requires SiteInv(c)
    decreases |evs|
  {
    evs == [] ||
    (SiteLegal(c, evs[0]) &&
     (SiteStepKeepsInv(c, evs[0]);
      SiteRun(SiteStep(c, evs[0]), evs[1..])))
  }

  ghost function SiteEnd(c: Site, evs: seq<SiteEvent>): (r: Site)
    requires SiteInv(c) && SiteRun(c, evs)
    ensures SiteInv(r)
    decreases |evs|
  {
    if evs == [] then c
    else
      SiteStepKeepsInv(c, evs[0]);
      SiteEnd(SiteStep(c, evs[0]), evs[1..])
  }

  ghost predicate SiteGentleRun(c: Site, evs: seq<SiteEvent>)
    requires SiteInv(c) && SiteRun(c, evs)
    decreases |evs|
  {
    evs == [] ||
    (SiteGentle(c, evs[0]) &&
     (SiteStepKeepsInv(c, evs[0]);
      SiteGentleRun(SiteStep(c, evs[0]), evs[1..])))
  }

  lemma {:induction false} SiteRunKeepsOwn(c: Site, evs: seq<SiteEvent>)
    requires SiteInv(c) && SiteRun(c, evs) && SiteOwn(c) && SiteGentleRun(c, evs)
    ensures SiteOwn(SiteEnd(c, evs))
    decreases |evs|
  {
    hide SiteStep, SiteLegal, SiteGentle, SiteOwn;
    if evs != [] {
      SiteStepKeepsInv(c, evs[0]);
      SiteRunKeepsOwn(SiteStep(c, evs[0]), evs[1..]);
    }
  }

  // ------------------------------------------------------------------ theorem

  ghost predicate AutomaticOff(c: Site, ev: SiteEvent) {
    && ev.AtServer?
    && exists r :: r in Records(c.m.s, ev.sev) && IsAutomaticOff(r)
  }

  /** Nothing waits, no spot is held and no unqueued forward runs. */
  ghost predicate NothingVisible(e: Endpoint) {
    e.q.queue == [] && e.q.spots == {} && e.forwards == 0
  }

  lemma OffSeesNoActivity(c: Site, ev: SiteEvent)
    requires SiteInv(c) && SiteLegal(c, ev) && AutomaticOff(c, ev)
    ensures forall e :: e in c.eps ==> NothingVisible(e)
  {
    hide Inv, Q.Step, Q.Legal, CanPowerOff;
    var r :| r in Records(c.m.s, ev.sev) && IsAutomaticOff(r);
    assert !SiteActive(c.eps);
    forall e | e in c.eps
      ensures NothingVisible(e)
    {
      assert !EndpointActive(e);
    }
  }

  lemma RunningOwnsSpot(q: QueueState)
    requires Inv(q) && Own(q)
    ensures forall t :: t in q.running ==> t.key in q.spots
  {
    hide SpotsTracked, Ordered, Justified, OrderOf, Wf;
  }

  lemma OwnMeansIdle(q: QueueState)
    requires Inv(q) && Own(q) && q.spots == {}
    ensures q.running == []
  {
    hide Inv, Own;
    RunningOwnsSpot(q);
    NoMembers(q.running);
  }

  /** An automatic power-off (idle or cron) leaves no request of any endpoint waiting, no spot
      held and no unqueued forward running. In every run without spot sharing and without a
      release that leaves a busy session spotless, it moreover cuts off no request in flight. */
  lemma OffCutsNoRequest(start: Site, evs: seq<SiteEvent>, off: SiteEvent)
    requires SiteInv(start) && SiteRun(start, evs)
    requires SiteLegal(SiteEnd(start, evs), off) && AutomaticOff(SiteEnd(start, evs), off)
    ensures forall e :: e in SiteEnd(start, evs).eps ==> NothingVisible(e)
    ensures SiteOwn(start) && SiteGentleRun(start, evs) ==>
              forall e :: e in SiteEnd(start, evs).eps ==> e.q.running == []
  {
    var c := SiteEnd(start, evs);
    OffSeesNoActivity(c, off);
    if SiteOwn(start) && SiteGentleRun(start, evs) {
      SiteRunKeepsOwn(start, evs);
      forall e | e in c.eps
        ensures e.q.running == []
      {
        assert NothingVisible(e);
        OwnMeansIdle(e.q);
      }
    }
  }

  /** What the idle pass of a site decides: it powers off if and only if nothing is visible on
      any endpoint, the backend reports ON, the server is owned, auto-off is on, and the time
      since the last activity exceeds the timeout. */
  lemma IdlePassDecides(c: Site, off: SiteEvent)
    requires SiteInv(c) && SiteLegal(c, off) && off.AtServer? && off.sev.IdleTick?
    ensures AutomaticOff(c, off) <==>
              && (forall e :: e in c.eps ==> NothingVisible(e))
              && off.sev.actual == On && c.m.s.owned && AutoOffOn(c.m.s.cfg, c.m.s.override)
              && off.sev.now - c.m.s.lastActivity > c.m.s.cfg.idleTimeout
  {
    hide Inv, Q.Step, Q.Legal;
    assert SiteActive(c.eps) <==> !forall e :: e in c.eps ==> NothingVisible(e) by {
      assert forall e :: e in c.eps ==> (EndpointActive(e) <==> !NothingVisible(e));
    }
    var ev := off.sev;
    IdlePassIff(c.m.s, ev.now, ev.active, ev.actual, ev.accepted, ev.w);
  }

  /** Endpoints with empty queues satisfy what the theorem asks of its start. */
  lemma StartSite(c: Site)
    requires forall e :: e in c.eps ==> e.q == Initial(e.q.cfg)
    ensures SiteInv(c) && SiteOwn(c)
  {
    forall e | e in c.eps
      ensures Inv(e.q) && Own(e.q)
    {
      InitialInv(e.q.cfg);
    }
  }

  // -------------------------------------------------- both hypotheses matter

  /** The events of one queue as events of a site whose only endpoint has that queue. */
  function Lifted(evs: seq<Q.Event>): (r: seq<SiteEvent>)
    ensures |r| == |evs| && forall i :: 0 <= i < |evs| ==> r[i] == AtQueue(0, evs[i])
  {
    seq(|evs|, i requires 0 <= i < |evs| => AtQueue(0, evs[i]))
  }

  lemma {:induction false} LiftedRun(m: Machine, q: QueueState, evs: seq<Q.Event>)
    requires Inv(q) && Run(q, evs)
    ensures var c := Site(m, [Endpoint(q, 0)]);
      && SiteInv(c) && SiteRun(c, Lifted(evs))
      && SiteEnd(c, Lifted(evs)) == Site(m, [Endpoint(QueueRuns.End(q, evs), 0)])
    decreases |evs|
  {
    hide Q.Step, Q.Legal, SpotsTracked, Ordered, Justified, OrderOf, Wf;
    var c := Site(m, [Endpoint(q, 0)]);
    if evs != [] {
      StepKeepsInv(q, evs[0]);
      LiftedRun(m, Q.Step(q, evs[0]), evs[1..]);
      assert c.eps[0 := Endpoint(Q.Step(q, evs[0]), 0)] == [Endpoint(Q.Step(q, evs[0]), 0)];
      assert Lifted(evs)[1..] == Lifted(evs[1..]);
    }
  }

  const SERVER := ServerConfig(true, true, 10.0, 30.0, false)
  const BOOT := Site(Booted(SERVER, 0.0), [Endpoint(Initial(SpotWitnesses.CFG), 0)])
  const ADOPT := AtServer(Traffic(0.5, 7, Stored))
  const ADOPTED := Step(BOOT.m, ADOPT.sev)

  /** The server just booted is adopted by its first routed request, then the queue runs. */
  lemma AdoptedRun(evs: seq<Q.Event>)
    requires Started(SpotWitnesses.CFG, evs)
    ensures SiteInv(BOOT) && SiteRun(BOOT, [ADOPT] + Lifted(evs))
    ensures SiteEnd(BOOT, [ADOPT] + Lifted(evs)) == Site(ADOPTED, [Endpoint(Reached(SpotWitnesses.CFG, evs), 0)])
  {
    hide Inv, Run, QueueRuns.End;
    InitialInv(SpotWitnesses.CFG);
    LiftedRun(ADOPTED, Initial(SpotWitnesses.CFG), evs);
    assert SiteStep(BOOT, ADOPT) == Site(ADOPTED, [Endpoint(Initial(SpotWitnesses.CFG), 0)]);
    assert ([ADOPT] + Lifted(evs))[1..] == Lifted(evs);
  }

  /** Both hypotheses are needed: after a run from boot with a shared spot but no manual
      release of a busy session, and after one with such a release but without sharing, the
      idle pass powers the server off while a request is in flight. */
  lemma OffCanCutRequest(sharing: bool) returns (evs: seq<Q.Event>, off: SiteEvent)
    ensures Started(SpotWitnesses.CFG, evs)
    ensures if sharing then SpotWitnesses.SparesBusyThroughout(Initial(SpotWitnesses.CFG), evs)
            else forall ev :: ev in evs ==> KeepsSpotsApart(ev)
    ensures SiteInv(BOOT) && SiteRun(BOOT, [ADOPT] + Lifted(evs))
    ensures var c := SiteEnd(BOOT, [ADOPT] + Lifted(evs));
      SiteLegal(c, off) && AutomaticOff(c, off) && |c.eps| == 1 && c.eps[0].q.running != []
  {
    hide Inv, Started, Reached, SiteRun, SiteEnd;
    if sharing {
      evs := SpotWitnesses.SharingHidesRequest();
    } else {
      evs := SpotWitnesses.BusyReleaseHidesRequest();
    }
    AdoptedRun(evs);
    off := AtServer(IdleTick(100.0, false, On, true, Stored));
    assert Records(ADOPTED.s, off.sev) == [TurnedOff(IdleTimeout, true, None, On, false, 100.0)];
    assert TurnedOff(IdleTimeout, true, None, On, false, 100.0) in Records(ADOPTED.s, off.sev);
  }
}
