/** What one tick does to every session: whose spot it frees, exactly, and which records go. */
module TickDecisions {
  import opened QueueModel
  import opened QueueSteps
  import opened QueueInvariants
  import opened QueueRuns
  import opened BoundedSurrender
  import opened NoEarlySurrender

  // ----------------------------------------------------------- the countdowns

  /** Tick stamps do not decrease. */
  ghost predicate TicksRise(evs: seq<Event>, last: real)
    decreases |evs|
  {
    evs == [] || (last <= TickStamp(evs[0], last) && TicksRise(evs[1..], TickStamp(evs[0], last)))
  }

  /** Every countdown was started by a tick stamped last or before. */
  ghost predicate CountdownsPast(q: QueueState, last: real) {
    forall k :: k in q.sessions && q.sessions[k].idleSince.Some? ==> q.sessions[k].idleSince.value <= last
  }

  predicate RefreshedBy(a: Atom, last: real) {
    a.ARefresh? ==> a.now <= last
  }

  lemma RefreshCountdowns(q: QueueState, k: Key, now: real, last: real)
    requires Wf(q) && k in q.sessions && CountdownsPast(q, last) && now <= last
    ensures CountdownsPast(Refresh(q, k, now), last)
  {
    hide Count, CurrentStatus;
  }

  lemma AtomCountdowns(q: QueueState, a: Atom, last: real)
    requires Wf(q) && Enabled(q, a) && CountdownsPast(q, last) && RefreshedBy(a, last)
    ensures CountdownsPast(Apply(q, a), last)
  {
    hide Refresh, PromoteAt, Surrender, Count, IndexOf, RemoveAt, WithoutKey, Eligible, FirstEligible;
    if a.ARefresh? {
      RefreshCountdowns(q, a.key, a.now, last);
    } else if a.APromote? {
      PromotionCountdowns(q, FirstEligible(q, 0), last);
    } else if a.ASurrender? {
      SurrenderCountdowns(q, a.key, last);
    }
  }

  lemma PromotionCountdowns(q: QueueState, i: nat, last: real)
    requires Wf(q) && i < |q.queue| && CountdownsPast(q, last)
    ensures CountdownsPast(PromoteAt(q, i), last)
  {
    hide Count, Overtaken, RemoveAt, Live;
  }

  lemma SurrenderCountdowns(q: QueueState, k: Key, last: real)
    requires Wf(q) && k in q.sessions && CountdownsPast(q, last)
    ensures CountdownsPast(Surrender(q, k), last)
  {
    hide Count, WithoutKey;
  }

  lemma {:induction false} TraceCountdowns(q: QueueState, atoms: seq<Atom>, last: real)
    requires Wf(q) && Trace(q, atoms) && CountdownsPast(q, last) && forall a :: a in atoms ==> RefreshedBy(a, last)
    ensures CountdownsPast(After(q, atoms), last)
    decreases |atoms|
  {
    hide Apply, Enabled, CountdownsPast, RefreshedBy;
    if atoms != [] {
      AtomCountdowns(q, atoms[0], last);
      TraceCountdowns(Apply(q, atoms[0]), atoms[1..], last);
    }
  }

  lemma StepCountdowns(q: QueueState, ev: Event, last: real)
    requires Inv(q) && Legal(q, ev) && CountdownsPast(q, last) && last <= TickStamp(ev, last)
    ensures CountdownsPast(Step(q, ev), TickStamp(ev, last))
  {
    hide Step, Legal, Trace, After, SpotsTracked, Ordered, Justified;
    var atoms := EventTrace(q, ev, multiset{});
    forall a | a in atoms
      ensures RefreshedBy(a, TickStamp(ev, last))
    {
      assert Within(q, ev, a);
    }
    TraceCountdowns(q, atoms, TickStamp(ev, last));
  }

  lemma {:induction false} RunCountdowns(q: QueueState, evs: seq<Event>, last: real)
    requires Inv(q) && Run(q, evs) && CountdownsPast(q, last) && TicksRise(evs, last)
    ensures CountdownsPast(End(q, evs), LastTick(evs, last))
    decreases |evs|
  {
    hide Step, Legal, CountdownsPast;
    if evs != [] {
      StepCountdowns(q, evs[0], last);
      StepKeepsInv(q, evs[0]);
      RunCountdowns(Step(q, evs[0]), evs[1..], TickStamp(evs[0], last));
    }
  }

  // ---------------------------------------------------- holders that stay put

  /** The session holds a spot and has nothing in flight, and no promotion can change that: it
      has nothing waiting, or the endpoint is not ready, or atomic mode or its cap of zero
      keeps its requests waiting. */
  ghost predicate Parked(q: QueueState, k: Key) {
    && k in q.sessions && k in q.spots && q.sessions[k].spotHeld && q.sessions[k].inflight == 0
    && (q.sessions[k].waiting == 0 || !q.ready || (q.cfg.atomic && q.inflightTotal > 0) || q.cfg.cap == 0)
  }

  lemma ParkedStays(q: QueueState, i: nat, k: Key)
    requires Wf(q) && Parked(q, k) && q.ready && q.inflightTotal >= 0
    requires i < |q.queue| && Eligible(q, q.queue[i].key)
    ensures q.queue[i].key != k
    ensures Parked(PromoteAt(q, i), k) && SameFor(q, PromoteAt(q, i), k) && PromoteAt(q, i).inflightTotal >= 0
  {
    hide Overtaken;
    if q.sessions[k].waiting == 0 {
      NothingWaits(q, k);
    }
    assert q.queue[i] in q.queue;
  }

  lemma {:induction false} LoopParked(q: QueueState, k: Key)
    requires Wf(q) && Parked(q, k) && q.ready && q.inflightTotal >= 0
    ensures Parked(PromoteLoop(q), k) && SameFor(q, PromoteLoop(q), k)
    decreases |q.queue|
  {
    hide PromoteAt, Count, Eligible, Parked;
    var f := FirstEligible(q, 0);
    if f < |q.queue| {
      ParkedStays(q, f, k);
      ReadyStays(q, f);
      LoopParked(PromoteAt(q, f), k);
    }
  }

  lemma ReadyStays(q: QueueState, i: nat)
    requires Wf(q) && i < |q.queue|
    ensures PromoteAt(q, i).ready == q.ready
  {
  }

  lemma TickOneParked(q: QueueState, j: Key, now: real, k: Key)
    requires Wf(q) && j in q.sessions && j != k && Parked(q, k) && q.inflightTotal >= 0
    ensures Parked(TickOne(q, j, now), k) && SameFor(q, TickOne(q, j, now), k)
  {
    hide Count, Refreshed, PromoteLoop, WithoutKey, TickFrees, Parked, Refresh, Surrender;
    RefreshedCounters(q.cfg, j, q.sessions[j], now);
    RefreshParked(q, j, now, k);
    if TickFrees(q, j, now) {
      SurrenderParked(Refresh(q, j, now), j, k);
      var p := Surrender(Refresh(q, j, now), j);
      if p.ready {
        LoopParked(p, k);
      }
    } else if !q.sessions[j].spotHeld && q.sessions[j].waiting == 0 && q.sessions[j].inflight == 0 {
      ForgetParked(Refresh(q, j, now), j, k);
    }
  }

  lemma RefreshParked(q: QueueState, j: Key, now: real, k: Key)
    requires Wf(q) && j in q.sessions && j != k && Parked(q, k)
    ensures var r := Refresh(q, j, now);
      && Parked(r, k) && SameFor(q, r, k) && r.inflightTotal == q.inflightTotal
      && r.sessions[j] == Refreshed(q.cfg, j, q.sessions[j], now)
  {
    hide Count, Refreshed;
  }

  lemma SurrenderParked(q: QueueState, j: Key, k: Key)
    requires Wf(q) && j in q.sessions && j != k && Parked(q, k)
    ensures var r := Surrender(q, j);
      Parked(r, k) && SameFor(q, r, k) && r.inflightTotal == q.inflightTotal
  {
    hide Count, WithoutKey;
  }

  lemma ForgetParked(q: QueueState, j: Key, k: Key)
    requires Wf(q) && j in q.sessions && j != k && Parked(q, k) && q.sessions[j].waiting == 0
    ensures Parked(Forget(q, j), k) && SameFor(q, Forget(q, j), k)
  {
    hide Count, WithoutKey;
  }

  lemma TickOneOwn(q: QueueState, k: Key, now: real)
    requires Wf(q) && Parked(q, k)
    ensures TickFrees(q, k, now) <==> Due(q.cfg, k, Refreshed(q.cfg, k, q.sessions[k], now), now)
    ensures !TickFrees(q, k, now) ==> TickOne(q, k, now) == Refresh(q, k, now)
    ensures !TickFrees(q, k, now) ==>
              Parked(TickOne(q, k, now), k) && TickOne(q, k, now).sessions[k] == Refreshed(q.cfg, k, q.sessions[k], now)
  {
    hide Count, Refreshed, Due;
    RefreshedCounters(q.cfg, k, q.sessions[k], now);
  }

  lemma {:induction false} OthersTicked(q: QueueState, keys: seq<Key>, now: real, k: Key)
    requires Inv(q) && NoDup(keys) && (forall x :: x in keys ==> x in q.sessions && x != k) && Parked(q, k)
    ensures SameFor(q, TickOver(q, keys, now).0, k)
    decreases |keys|
  {
    hide TickOne, TickFrees, Parked, OrderOf, SpotsTracked, Ordered, Justified;
    if keys != [] {
      TickOneParked(q, keys[0], now, k);
      TickOneKeepsInv(q, keys[0], now);
      assert forall x :: x in keys[1..] ==> x in keys && x != keys[0];
      OthersTicked(TickOne(q, keys[0], now), keys[1..], now, k);
    }
  }

  lemma TickOneKeepsInv(q: QueueState, k: Key, now: real)
    requires Inv(q) && k in q.sessions
    ensures Inv(TickOne(q, k, now))
  {
    hide TickOne, Trace, After, OrderOf, SpotsTracked, Ordered, Justified;
    var atoms := TickOneTrace(q, k, now);
    TraceKeepsInv(q, atoms);
  }

  /** A whole tick frees a parked holder exactly when the status it finds makes it due; else
      it stores that status and leaves the spot. */
  lemma {:induction false} TickDecides(q: QueueState, keys: seq<Key>, now: real, k: Key)
    requires Inv(q) && NoDup(keys) && (forall x :: x in keys ==> x in q.sessions)
    requires k in keys && Parked(q, k)
    ensures var s := Refreshed(q.cfg, k, q.sessions[k], now);
      var r := TickOver(q, keys, now);
      && (k in r.1 <==> Due(q.cfg, k, s, now))
      && (k !in r.1 ==> k in r.0.sessions && r.0.sessions[k] == s && k in r.0.spots)
    decreases |keys|
  {
    hide TickOne, TickFrees, Parked, OrderOf, SpotsTracked, Ordered, Justified, Refreshed, Due;
    var r := TickOne(q, keys[0], now);
    TickOneKeepsInv(q, keys[0], now);
    assert forall x :: x in keys[1..] ==> x in keys && x != keys[0];
    if keys[0] == k {
      TickOneOwn(q, k, now);
      FreedAreVisited(r, keys[1..], now);
      if !TickFrees(q, k, now) {
        OthersTicked(r, keys[1..], now, k);
        ParkedHolds(r, k);
      }
    } else {
      TickOneParked(q, keys[0], now, k);
      TickDecides(r, keys[1..], now, k);
    }
  }

  lemma ParkedHolds(q: QueueState, k: Key)
    requires Parked(q, k)
    ensures k in q.sessions && k in q.spots && q.sessions[k].inflight == 0
  {
  }

  // ------------------------------------------------------- the exact decision

  function CountdownStart(s: SessionState, now: real): real {
    if s.idleSince.Some? then s.idleSince.value else now
  }

  lemma KnownDue(cfg: Config, k: Key, s: SessionState, now: real)
    requires Known(k) && s.inflight == 0 && CountdownStart(s, now) <= now
    ensures Due(cfg, k, Refreshed(cfg, k, s, now), now) <==>
              !SaysBusy(s, now) && (SaysDone(cfg, s, now) || now >= CountdownStart(s, now) + cfg.expiry)
  {
  }

  lemma UnknownDue(cfg: Config, k: Key, s: SessionState, now: real)
    requires !Known(k) && s.inflight == 0
    ensures Due(cfg, k, Refreshed(cfg, k, s, now), now) <==> now >= UnknownDeadline(cfg, s)
  {
  }

  /** After any run, a tick frees the spot of a holder with nothing in flight exactly when: for
      a known client, the client does not freshly say that it works, and freshly says that it
      is done or has been counted down for the expiry; for an unknown one, its deadline has
      passed. A spot that is not freed stays where it was. */
  lemma HolderFreedIff(cfg: Config, evs: seq<Event>, start: real, now: real, k: Key)
    requires Started(cfg, evs) && TicksRise(evs, start) && LastTick(evs, start) <= now
    requires Parked(Reached(cfg, evs), k)
    ensures var q := Reached(cfg, evs);
      var s := q.sessions[k];
      && (k in Tick(q, now).1 <==>
            if Known(k)
            then !SaysBusy(s, now) && (SaysDone(cfg, s, now) || now >= CountdownStart(s, now) + cfg.expiry)
            else now >= UnknownDeadline(cfg, s))
      && (k !in Tick(q, now).1 ==> k in Tick(q, now).0.spots)
  {
    hide TickOver, SaysBusy, SaysDone, UnknownDeadline, Run, End;
    InitialInv(cfg);
    var q := Reached(cfg, evs);
    ConfigKept(cfg, evs);
    RunCountdowns(Initial(cfg), evs, start);
    TickDecides(q, q.order, now, k);
    if Known(k) {
      KnownDue(cfg, k, q.sessions[k], now);
    } else {
      UnknownDue(cfg, k, q.sessions[k], now);
    }
  }

  /** The status a tick leaves on a holder that keeps its spot: a known client's fresh report
      or idle without one, an unknown client's busy window; the countdown runs exactly in the
      statuses that can end in a surrender, from where it was. */
  lemma HolderStatus(q: QueueState, now: real, k: Key)
    requires Inv(q) && Parked(q, k) && k !in Tick(q, now).1
    ensures var s := q.sessions[k];
      var r := Tick(q, now).0;
      && k in r.sessions
      && (Known(k) && Fresh(s, now) ==> Some(r.sessions[k].status) == s.clientStatus)
      && (Known(k) && !Fresh(s, now) ==> r.sessions[k].status.Idle?)
      && (!Known(k) ==> r.sessions[k].status == if now < s.lastRequestAt + q.cfg.busyWindow then Busy else Idle)
      && r.sessions[k].idleSince ==
           (if r.sessions[k].status.Busy? || r.sessions[k].status.Retry? then None else Some(CountdownStart(s, now)))
  {
    hide TickOver, SpotsTracked, Ordered, Justified;
    TickDecides(q, q.order, now, k);
  }

  // ------------------------------------------------ who is listed, who is gone

  lemma {:induction false} LoopRaises(q: QueueState, k: Key)
    requires Wf(q) && k in q.sessions
    ensures var r := PromoteLoop(q);
      && q.spots <= r.spots
      && r.sessions[k].inflight >= q.sessions[k].inflight
      && (r.sessions[k].inflight == q.sessions[k].inflight ==> r.sessions[k].spotHeld == q.sessions[k].spotHeld)
      && (r.sessions[k].inflight == q.sessions[k].inflight ==> r.sessions[k].waiting == q.sessions[k].waiting)
    decreases |q.queue|
  {
    hide Eligible, Overtaken, Count;
    var f := FirstEligible(q, 0);
    if f < |q.queue| {
      LoopRaises(PromoteAt(q, f), k);
    }
  }

  /** Another session's turn only promotes. */
  lemma OtherTurn(q: QueueState, j: Key, now: real, k: Key)
    requires Wf(q) && j in q.sessions && k in q.sessions && j != k
    ensures var r := TickOne(q, j, now);
      && (k in q.spots ==> k in r.spots)
      && r.sessions[k].inflight >= q.sessions[k].inflight
      && (r.sessions[k].inflight == q.sessions[k].inflight ==>
            r.sessions[k].spotHeld == q.sessions[k].spotHeld && r.sessions[k].waiting == q.sessions[k].waiting)
  {
    hide Count, TickFrees, Refreshed, PromoteLoop, WithoutKey;
    RefreshedCounters(q.cfg, j, q.sessions[j], now);
    if TickFrees(q, j, now) {
      LoopRaises(Surrender(Refresh(q, j, now), j), k);
    }
  }

  lemma OwnTurn(q: QueueState, k: Key, now: real)
    requires Inv(q) && k in q.sessions
    ensures TickFrees(q, k, now) ==> k in q.spots && q.sessions[k].spotHeld && q.sessions[k].inflight == 0
    ensures !TickFrees(q, k, now) ==> TickOne(q, k, now).spots == q.spots
  {
    hide Count, Refreshed, ReleaseSpot, OrderOf, Ordered, Justified, Due;
    RefreshedCounters(q.cfg, k, q.sessions[k], now);
    TickFreesIdle(q, k, now);
  }

  lemma {:induction false} ListedIff(q: QueueState, keys: seq<Key>, now: real, k: Key)
    requires Inv(q) && NoDup(keys) && (forall x :: x in keys ==> x in q.sessions) && k in q.sessions
    ensures k in TickOver(q, keys, now).1 ==> q.sessions[k].spotHeld && q.sessions[k].inflight == 0
    ensures k in q.spots && k !in TickOver(q, keys, now).0.spots ==> k in TickOver(q, keys, now).1
    decreases |keys|
  {
    hide TickOne, TickFrees, OrderOf, SpotsTracked, Ordered, Justified;
    if keys != [] {
      var r := TickOne(q, keys[0], now);
      TickOneKeepsInv(q, keys[0], now);
      assert forall x :: x in keys[1..] ==> x in keys && x != keys[0];
      if keys[0] == k {
        OwnTurn(q, k, now);
        FreedAreVisited(r, keys[1..], now);
        UnvisitedKeeps(r, keys[1..], now, k);
      } else {
        OtherTurn(q, keys[0], now, k);
        ListedIff(r, keys[1..], now, k);
        InFlightCounted(q, k);
      }
    }
  }

  lemma InFlightCounted(q: QueueState, k: Key)
    requires Inv(q) && k in q.sessions
    ensures q.sessions[k].inflight >= 0
  {
    hide OrderOf, SpotsTracked, Ordered, Justified, Wf;
  }

  /** The rest of a tick takes nothing from a session whose turn is over. */
  lemma {:induction false} UnvisitedKeeps(q: QueueState, keys: seq<Key>, now: real, k: Key)
    requires Inv(q) && NoDup(keys) && forall x :: x in keys ==> x in q.sessions && x != k
    ensures k in q.spots ==> k in TickOver(q, keys, now).0.spots
    decreases |keys|
  {
    hide TickOne, TickFrees, OrderOf, Ordered, Justified;
    if keys != [] {
      TickOneKeepsInv(q, keys[0], now);
      assert forall x :: x in keys[1..] ==> x in keys && x != keys[0];
      if k in q.spots {
        OtherTurn(q, keys[0], now, k);
      }
      UnvisitedKeeps(TickOne(q, keys[0], now), keys[1..], now, k);
    }
  }

  /** After any run, a tick lists only sessions that held a spot with nothing in flight, and
      every session that loses its spot in a tick is listed. */
  lemma LostSpotsAreListed(cfg: Config, evs: seq<Event>, now: real, k: Key)
    requires Started(cfg, evs)
    ensures var q := Reached(cfg, evs);
      var r := Tick(q, now);
      && (k in r.1 ==> k in q.spots && q.sessions[k].inflight == 0)
      && (k in q.spots && k !in r.0.spots ==> k in r.1)
  {
    hide TickOver, Ordered, Justified, Started, Reached;
    var q := Reached(cfg, evs);
    FreedAreVisited(q, q.order, now);
    if k in q.sessions {
      ListedIff(q, q.order, now, k);
    }
  }

  // -------------------------------------------------------------- dead records

  /** The session holds a spot or has requests. */
  ghost predicate Alive(q: QueueState, k: Key) {
    k in q.sessions ==> q.sessions[k].spotHeld || q.sessions[k].waiting > 0 || q.sessions[k].inflight > 0
  }

  lemma {:induction false} LoopKeepsAlive(q: QueueState, k: Key)
    requires Books(q, multiset{}) && k in q.sessions && Alive(q, k)
    ensures Alive(PromoteLoop(q), k)
    decreases |q.queue|
  {
    hide Eligible, Count, PromoteAt, OrderOf;
    var f := FirstEligible(q, 0);
    if f < |q.queue| {
      PromoteFirstKeepsBooks(q, multiset{});
      PromotionKeepsAlive(q, f, k);
      LoopKeepsAlive(PromoteAt(q, f), k);
    }
  }

  lemma PromotionKeepsAlive(q: QueueState, i: nat, k: Key)
    requires Books(q, multiset{}) && i < |q.queue| && k in q.sessions && Alive(q, k)
    ensures k in PromoteAt(q, i).sessions && Alive(PromoteAt(q, i), k)
  {
    hide Overtaken, OrderOf, Count;
    assert forall x :: x in q.sessions ==> q.sessions[x].inflight >= 0;
  }

  lemma OtherTurnKeepsAlive(q: QueueState, j: Key, now: real, k: Key)
    requires Inv(q) && j in q.sessions && j != k && Alive(q, k)
    ensures Alive(TickOne(q, j, now), k)
  {
    hide Count, TickFrees, Refreshed, PromoteLoop, WithoutKey, OrderOf, SpotsTracked, Ordered, Justified;
    RefreshedCounters(q.cfg, j, q.sessions[j], now);
    if TickFrees(q, j, now) {
      UpdateKeepsBooks(q, j, Refreshed(q.cfg, j, q.sessions[j], now), multiset{});
      SurrenderKeepsBooks(Refresh(q, j, now), j, multiset{});
      if k in q.sessions {
        LoopKeepsAlive(Surrender(Refresh(q, j, now), j), k);
      }
    }
  }

  lemma OwnTurnLeavesAlive(q: QueueState, k: Key, now: real)
    requires Inv(q) && k in q.sessions
    ensures Alive(TickOne(q, k, now), k)
  {
    hide Count, TickFrees, Refreshed, PromoteLoop, WithoutKey, OrderOf, SpotsTracked, Ordered, Justified;
    RefreshedCounters(q.cfg, k, q.sessions[k], now);
    InFlightCounted(q, k);
    if TickFrees(q, k, now) {
      UpdateKeepsBooks(q, k, Refreshed(q.cfg, k, q.sessions[k], now), multiset{});
      SurrenderKeepsBooks(Refresh(q, k, now), k, multiset{});
      if k in Surrender(Refresh(q, k, now), k).sessions {
        LoopKeepsAlive(Surrender(Refresh(q, k, now), k), k);
      }
    }
  }

  lemma {:induction false} TickOverLeavesAlive(q: QueueState, keys: seq<Key>, now: real, k: Key)
    requires Inv(q) && NoDup(keys) && (forall x :: x in keys ==> x in q.sessions)
    requires k in keys || Alive(q, k)
    ensures Alive(TickOver(q, keys, now).0, k)
    decreases |keys|
  {
    hide TickOne, TickFrees, OrderOf, SpotsTracked, Ordered, Justified, Alive;
    if keys != [] {
      TickOneKeepsInv(q, keys[0], now);
      assert forall x :: x in keys[1..] ==> x in keys && x != keys[0];
      if keys[0] == k {
        OwnTurnLeavesAlive(q, k, now);
      } else if k !in keys {
        OtherTurnKeepsAlive(q, keys[0], now, k);
      }
      TickOverLeavesAlive(TickOne(q, keys[0], now), keys[1..], now, k);
    }
  }

  /** After a tick every session record left holds a spot or has requests. */
  lemma TickLeavesNoDeadRecord(cfg: Config, evs: seq<Event>, now: real)
    requires Started(cfg, evs)
    ensures var r := Tick(Reached(cfg, evs), now).0;
      forall k :: k in r.sessions ==>
        r.sessions[k].spotHeld || r.sessions[k].waiting > 0 || r.sessions[k].inflight > 0
  {
    hide TickOver, SpotsTracked, Ordered, Justified, Started, Reached;
    var q := Reached(cfg, evs);
    var r := Tick(q, now).0;
    forall k | k in r.sessions
      ensures r.sessions[k].spotHeld || r.sessions[k].waiting > 0 || r.sessions[k].inflight > 0
    {
      TickOverLeavesAlive(q, q.order, now, k);
    }
  }

  lemma {:induction false} LoopStopsCountdown(q: QueueState, k: Key)
    requires Wf(q) && k in q.sessions && q.sessions[k].idleSince.None?
    ensures PromoteLoop(q).sessions[k].idleSince.None?
    decreases |q.queue|
  {
    hide Eligible, Overtaken, Count;
    var f := FirstEligible(q, 0);
    if f < |q.queue| {
      LoopStopsCountdown(PromoteAt(q, f), k);
    }
  }

  /** The manual release of a holder: a session with requests stays, out of its countdown, any
      other is forgotten; a session without a spot is left alone. */
  lemma ManualReleaseDecides(q: QueueState, k: Key)
    requires Inv(q) && k in q.sessions
    ensures var s := q.sessions[k];
      var r := ReleaseSession(q, k);
      if !s.spotHeld then r == q
      else
        && (k in r.sessions <==> s.waiting > 0 || s.inflight > 0)
        && (k in r.sessions ==> r.sessions[k].idleSince.None?)
        && (k in r.spots ==> s.waiting > 0 && r.sessions[k].inflight > s.inflight)
  {
    hide Count, PromoteLoop, WithoutKey, OrderOf, Ordered, Justified;
    InFlightCounted(q, k);
    if q.sessions[k].spotHeld {
      var p := Surrender(q, k);
      if p.ready && k in p.sessions {
        LoopStopsCountdown(p, k);
        LoopWinsByPromotion(p, k);
      } else if p.ready {
        PromoteLoopFrame(p, k);
      }
    }
  }

  /** A session without a spot gets one only by a promotion of its own. */
  lemma {:induction false} LoopWinsByPromotion(q: QueueState, k: Key)
    requires Wf(q) && k in q.sessions && k !in q.spots
    ensures k in PromoteLoop(q).spots ==>
              q.sessions[k].waiting > 0 && PromoteLoop(q).sessions[k].inflight > q.sessions[k].inflight
    decreases |q.queue|
  {
    hide Eligible, Overtaken;
    var f := FirstEligible(q, 0);
    if f < |q.queue| {
      var p := PromoteAt(q, f);
      if q.queue[f].key == k {
        assert q.queue[f] in q.queue;
        LoopRaises(p, k);
      } else {
        LoopWinsByPromotion(p, k);
      }
    }
  }
}
