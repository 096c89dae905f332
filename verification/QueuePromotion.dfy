/** The promotion loop: one pass from left to right does the same, and no wake-up is lost. */
module QueuePromotion {
  import opened QueueModel
  import opened QueueSteps
  import opened QueueInvariants
  import opened QueueRuns
  import opened QueueTheorems
  import opened Subsequences

  // ------------------------------------------------------------- single pass

  /** The fast form: one pass, each request promoted or skipped for good. */
  function SinglePass(q: QueueState, i: nat): QueueState
    requires Wf(q) && i <= |q.queue|
    decreases |q.queue| - i
  {
    if i == |q.queue| then q
    else if Eligible(q, q.queue[i].key) then SinglePass(PromoteAt(q, i), i)
    else SinglePass(q, i + 1)
  }

  /** Promoting a request makes no other request eligible that was not. */
  lemma PromotionUnlocksNobody(q: QueueState, i: nat, k: Key)
    requires Wf(q) && i < |q.queue| && k in q.sessions
    requires Eligible(q, q.queue[i].key) && !Eligible(q, k) && q.inflightTotal >= 0
    ensures !Eligible(PromoteAt(q, i), k)
  {
    hide Overtaken, Count;
  }

  lemma PromotionKeepsFront(q: QueueState, i: nat)
    requires Wf(q) && i < |q.queue|
    ensures var r := PromoteAt(q, i);
      r.inflightTotal == q.inflightTotal + 1 && forall j :: 0 <= j < i ==> r.queue[j] == q.queue[j]
  {
    hide Overtaken, Count;
  }

  lemma {:induction false} LoopIsPassFrom(q: QueueState, i: nat)
    requires Wf(q) && i <= |q.queue| && q.inflightTotal >= 0
    requires forall j :: 0 <= j < i ==> !Eligible(q, q.queue[j].key)
    ensures PromoteLoop(q) == SinglePass(q, i)
    decreases |q.queue| - i
  {
    hide Eligible, PromoteAt, Count;
    if i == |q.queue| {
    } else if Eligible(q, q.queue[i].key) {
      assert FirstEligible(q, 0) == i;
      PromotionKeepsFront(q, i);
      forall j | 0 <= j < i
        ensures !Eligible(PromoteAt(q, i), q.queue[j].key)
      {
        PromotionUnlocksNobody(q, i, q.queue[j].key);
      }
      LoopIsPassFrom(PromoteAt(q, i), i);
    } else {
      LoopIsPassFrom(q, i + 1);
    }
  }

  /** The restarting loop of the program is a single pass over the queue, whatever the caps,
      atomic mode, shared spots and WebSocket spots. */
  lemma RestartIsSinglePass(q: QueueState)
    requires Wf(q) && q.inflightTotal >= 0
    ensures TryPromote(q) == if q.ready then SinglePass(q, 0) else q
  {
    hide PromoteLoop, SinglePass, Eligible;
    if q.ready {
      LoopIsPassFrom(q, 0);
    }
  }

  /** Promotion deletes requests from the queue and never reorders it. */
  lemma {:induction false} PromotionKeepsQueueOrder(q: QueueState)
    requires Wf(q)
    ensures Subsequence(TryPromote(q).queue, q.queue)
    decreases |q.queue|
  {
    hide Eligible, Subsequence;
    var f := FirstEligible(q, 0);
    SubsequenceRefl(q.queue);
    if q.ready && f < |q.queue| {
      PromotionKeepsQueueOrder(PromoteAt(q, f));
      SubsequenceRemoveAt(q.queue, f);
      SubsequenceTrans(PromoteLoop(PromoteAt(q, f)).queue, RemoveAt(q.queue, f), q.queue);
    }
  }

  // --------------------------------------------------------- no lost wake-up

  /** What eligibility looks at. */
  ghost predicate SameChances(q: QueueState, r: QueueState)
  {
    && r.cfg == q.cfg && r.ready == q.ready && r.spots == q.spots && r.inflightTotal == q.inflightTotal
    && (forall t :: t in r.queue ==> t in q.queue)
    && (forall t :: t in r.queue && t.key in q.sessions ==>
          t.key in r.sessions
          && r.sessions[t.key].inflight == q.sessions[t.key].inflight
          && r.sessions[t.key].shared == q.sessions[t.key].shared)
  }

  lemma SameChancesSettled(q: QueueState, r: QueueState)
    requires Wf(q) && Wf(r) && SameChances(q, r) && Settled(q)
    ensures Settled(r)
  {
    hide Eligible, SameChances;
    forall t | r.ready && t in r.queue
      ensures !Eligible(r, t.key)
    {
      SameChance(q, r, t);
      assert !Eligible(q, t.key);
    }
  }

  lemma SameChance(q: QueueState, r: QueueState, t: Ticket)
    requires Wf(q) && Wf(r) && SameChances(q, r) && t in r.queue
    ensures t in q.queue && r.ready == q.ready && (Eligible(r, t.key) <==> Eligible(q, t.key))
  {
    hide Count;
  }

  lemma AbandonKeepsSettled(q: QueueState, t: Ticket)
    requires Wf(q) && (t in q.queue || t in q.running) && Settled(q)
    ensures Settled(Abandon(q, t))
  {
    hide Settled, Count, Eligible;
    if t !in q.running {
      RemoveAtMembers(q.queue, IndexOf(q.queue, t));
      SameChancesSettled(q, Leave(q, t));
    }
  }

  lemma ReportKeepsSettled(q: QueueState, k: Key, status: Status, at: real)
    requires Wf(q) && k in q.sessions && Settled(q)
    ensures Settled(Report(q, k, status, at))
  {
    hide Settled, Count, Eligible;
    SameChancesSettled(q, Report(q, k, status, at));
  }

  lemma TickOneKeepsSettled(q: QueueState, k: Key, now: real)
    requires Wf(q) && k in q.sessions && Settled(q)
    ensures Settled(TickOne(q, k, now))
  {
    hide Settled, SameChances, TickFrees, Eligible, Refresh, Surrender, Forget, TryPromote, Count;
    if !TickFrees(q, k, now) {
      RefreshSettled(q, k, now);
      RefreshedChances(q.cfg, k, q.sessions[k], now);
      var s := q.sessions[k];
      if !s.spotHeld && s.waiting == 0 && s.inflight == 0 {
        ForgetSettled(Refresh(q, k, now), k);
      }
    }
  }

  lemma RefreshSettled(q: QueueState, k: Key, now: real)
    requires Wf(q) && k in q.sessions && Settled(q)
    ensures Settled(Refresh(q, k, now))
    ensures Refresh(q, k, now).sessions[k] == Refreshed(q.cfg, k, q.sessions[k], now)
  {
    hide Settled, Eligible, Refreshed, Count;
    RefreshedChances(q.cfg, k, q.sessions[k], now);
    SameChancesSettled(q, Refresh(q, k, now));
  }

  lemma ForgetSettled(q: QueueState, k: Key)
    requires Wf(q) && k in q.sessions && q.sessions[k].waiting == 0 && Settled(q)
    ensures Settled(Forget(q, k))
  {
    hide Settled, Eligible, WithoutKey, Count;
    SameChancesSettled(q, Forget(q, k));
  }

  lemma RefreshedChances(cfg: Config, k: Key, s: SessionState, now: real)
    ensures Refreshed(cfg, k, s, now).inflight == s.inflight
    ensures Refreshed(cfg, k, s, now).waiting == s.waiting
    ensures Refreshed(cfg, k, s, now).shared == s.shared
  {
  }

  lemma {:induction false} TickKeepsSettled(q: QueueState, keys: seq<Key>, now: real)
    requires Wf(q) && NoDup(keys) && (forall k :: k in keys ==> k in q.sessions) && Settled(q)
    ensures Settled(TickOver(q, keys, now).0)
    decreases |keys|
  {
    hide TickOne, TickFrees, Settled, Wf;
    if keys != [] {
      TickOneKeepsSettled(q, keys[0], now);
      assert forall k :: k in keys[1..] ==> k in keys && k != keys[0];
      TickKeepsSettled(TickOne(q, keys[0], now), keys[1..], now);
    }
  }

  /** Readiness turning on and a changed shared spot can make a waiting request eligible. */
  predicate Unsettling(ev: Event) {
    (ev.ReadyChange? && ev.on) || ev.ShareChange?
  }

  /** Events that always end with a promotion scan (the manager's last step included). */
  predicate Settling(ev: Event) {
    ev.AdmitCall? || ev.ReleaseCall? || ev.PokeCall?
  }

  lemma StepKeepsSettled(q: QueueState, ev: Event)
    requires Inv(q) && Legal(q, ev)
    requires Settling(ev) || (Settled(q) && !Unsettling(ev))
    ensures Settled(Step(q, ev))
  {
    hide Eligible, TickOver, TryPromote, Register, Join, Finish, Surrender, SpotsTracked, Ordered, Justified, Count;
    hide Abandon, Report, SetShared, FirstEligible, PromoteLoop;
    match ev
    case AbandonCall(t) =>
      AbandonKeepsSettled(q, t);
    case TickCall(now) => TickKeepsSettled(q, q.order, now);
    case ReportChange(k, status, at) => ReportKeepsSettled(q, k, status, at);
    case _ =>
  }

  lemma {:induction false} RunKeepsSettled(q: QueueState, evs: seq<Event>)
    requires Inv(q) && Run(q, evs) && Settled(q)
    requires forall ev :: ev in evs ==> Settling(ev) || !Unsettling(ev)
    ensures Settled(End(q, evs))
    decreases |evs|
  {
    hide Step, Legal, Settled, Settling, Unsettling;
    if evs != [] {
      StepKeepsSettled(q, evs[0]);
      StepKeepsInv(q, evs[0]);
      RunKeepsSettled(Step(q, evs[0]), evs[1..]);
    }
  }

  lemma SettledMeansHeldBack(q: QueueState)
    requires Wf(q) && Settled(q) && q.ready
    ensures forall t :: t in q.queue ==> HeldBack(q, t.key)
  {
    hide Eligible, HeldBack, Count;
    forall t | t in q.queue
      ensures HeldBack(q, t.key)
    {
      EligibleIsNotHeldBack(q, t.key);
    }
  }

  /** Whatever the run before, once a promotion scan has happened after the last change of
      readiness or sharing, no request that could run is left waiting: on a ready endpoint
      every waiting request is held back by atomic mode, by its session's cap, or for want of
      a spot. With an unlimited cap and no atomic mode, a session on a spot has none waiting. */
  lemma NoLostWakeUp(cfg: Config, before: seq<Event>, scan: Event, after: seq<Event>)
    requires Started(cfg, before) && Settling(scan)
    requires Legal(Reached(cfg, before), scan)
    requires (StepKeepsInv(Reached(cfg, before), scan); Run(Step(Reached(cfg, before), scan), after))
    requires forall ev :: ev in after ==> Settling(ev) || !Unsettling(ev)
    ensures var q := End(Step(Reached(cfg, before), scan), after);
      q.ready ==>
        && (forall t :: t in q.queue ==> HeldBack(q, t.key))
        && (cfg.cap < 0 && !cfg.atomic ==> forall t :: t in q.queue ==> !OnSpot(q, t.key))
  {
    hide Step, Legal, Settled, Settling, Unsettling, Started, Reached, Run, End;
    var q := Reached(cfg, before);
    StepKeepsSettled(q, scan);
    StepKeepsInv(q, scan);
    RunKeepsSettled(Step(q, scan), after);
    var r := End(Step(q, scan), after);
    if r.ready {
      SettledMeansHeldBack(r);
    }
    ScannedConfig(cfg, before, scan, after);
  }

  lemma ScannedConfig(cfg: Config, before: seq<Event>, scan: Event, after: seq<Event>)
    requires Started(cfg, before) && Legal(Reached(cfg, before), scan)
    requires (StepKeepsInv(Reached(cfg, before), scan); Run(Step(Reached(cfg, before), scan), after))
    ensures End(Step(Reached(cfg, before), scan), after).cfg == cfg
  {
    hide Step, Legal, Run, End;
    InitialInv(cfg);
    RunKeepsConfig(Initial(cfg), before);
    StepKeepsConfig(Reached(cfg, before), scan);
    StepKeepsInv(Reached(cfg, before), scan);
    RunKeepsConfig(Step(Reached(cfg, before), scan), after);
  }

  /** Steps 2 and 3 of the queue manager; probe is the outcome of its readiness check, if
      it makes one. The power-on between them does not touch the queue. */
  function ManagerTick(q: QueueState, now: real, probe: Option<bool>): (r: QueueState)
    requires Wf(q) && OrderOf(q)
    ensures Wf(r)
  {
    var p := Tick(q, now).0;
    if p.queue == [] then p
    else
      var c := if probe.Some? then SetReady(p, probe.value) else p;
      if c.ready then TryPromote(c) else c
  }

  lemma ManagerTickSettles(q: QueueState, now: real, probe: Option<bool>)
    requires Wf(q) && OrderOf(q)
    ensures Settled(ManagerTick(q, now, probe))
    ensures var p := Tick(q, now).0;
      ManagerTick(q, now, probe).ready == if p.queue != [] && probe.Some? then probe.value else p.ready
  {
    hide Tick, TryPromote;
    var p := Tick(q, now).0;
    PromotionKeepsReady(SetReady(p, if probe.Some? then probe.value else p.ready));
  }

  lemma PromotionKeepsReady(q: QueueState)
    requires Wf(q)
    ensures TryPromote(q).ready == q.ready
  {
    hide PromoteLoop;
    if q.ready {
      LoopKeepsReady(q);
    }
  }

  lemma {:induction false} LoopKeepsReady(q: QueueState)
    requires Wf(q)
    ensures PromoteLoop(q).ready == q.ready
    decreases |q.queue|
  {
    hide Eligible, Overtaken, Count;
    var f := FirstEligible(q, 0);
    if f < |q.queue| {
      LoopKeepsReady(PromoteAt(q, f));
    }
  }
}
