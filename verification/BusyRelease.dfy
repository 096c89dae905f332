/** Exactly which events break "in flight owns a spot" and the cap bound when no spot is
    shared: manual releases of a busy session, depending on whether the session wins a spot
    back in the promotions that follow the release. */
module BusyRelease {
  import opened QueueModel
  import opened QueueSteps
  import opened QueueInvariants
  import opened QueueRuns
  import opened QueueTheorems
  import opened QueuePromotion
  import opened OwnSpots

  // ----------------------------------------------------- who gets a free spot

  predicate Waits(queue: seq<Ticket>, k: Key) {
    exists t :: t in queue && t.key == k
  }

  /** The sessions without a spot that wait ahead of the first request of k. */
  function SpotlessAhead(queue: seq<Ticket>, spots: set<Key>, k: Key): set<Key> {
    if queue == [] || queue[0].key == k then {}
    else (if queue[0].key in spots then {} else {queue[0].key}) + SpotlessAhead(queue[1..], spots, k)
  }

  /** A free spot is left for k when every spotless session ahead of it has taken one. */
  predicate Wins(queue: seq<Ticket>, spots: set<Key>, maxSpots: nat, k: Key) {
    Waits(queue, k) && |SpotlessAhead(queue, spots, k)| + |spots| < maxSpots
  }

  lemma WaitsStep(queue: seq<Ticket>, k: Key)
    requires queue != []
    ensures Waits(queue, k) <==> queue[0].key == k || Waits(queue[1..], k)
  {
    assert forall t :: t in queue <==> t == queue[0] || t in queue[1..];
  }

  lemma {:induction false} AheadAfterTaking(queue: seq<Ticket>, spots: set<Key>, k: Key, x: Key)
    ensures SpotlessAhead(queue, spots + {x}, k) == SpotlessAhead(queue, spots, k) - {x}
  {
    if queue != [] && queue[0].key != k {
      AheadAfterTaking(queue[1..], spots, k, x);
    }
  }

  lemma {:induction false} AheadWithoutOwn(queue: seq<Ticket>, spots: set<Key>, k: Key)
    ensures SpotlessAhead(queue, spots - {k}, k) == SpotlessAhead(queue, spots, k)
  {
    if queue != [] && queue[0].key != k {
      AheadWithoutOwn(queue[1..], spots, k);
    }
  }

  /** How the first request decides: k takes a free spot, a spot holder takes none, anybody
      else takes one away. */
  lemma WinsStep(queue: seq<Ticket>, spots: set<Key>, maxSpots: nat, k: Key)
    requires queue != []
    ensures queue[0].key == k ==> (Wins(queue, spots, maxSpots, k) <==> |spots| < maxSpots)
    ensures queue[0].key != k && queue[0].key in spots ==>
              (Wins(queue, spots, maxSpots, k) <==> Wins(queue[1..], spots, maxSpots, k))
    ensures queue[0].key != k && queue[0].key !in spots ==>
              (Wins(queue, spots, maxSpots, k) <==> Wins(queue[1..], spots + {queue[0].key}, maxSpots, k))
  {
    var x := queue[0].key;
    WaitsStep(queue, k);
    if x != k && x !in spots {
      AheadAfterTaking(queue[1..], spots, k, x);
      var rest := SpotlessAhead(queue[1..], spots, k);
      assert SpotlessAhead(queue, spots, k) == (rest - {x}) + {x};
      assert |spots + {x}| == |spots| + 1;
    }
  }

  lemma {:induction false} PassGrows(q: QueueState, i: nat)
    requires Wf(q) && i <= |q.queue|
    ensures q.spots <= SinglePass(q, i).spots
    decreases |q.queue| - i
  {
    hide Eligible, Overtaken, Count;
    if i < |q.queue| {
      if Eligible(q, q.queue[i].key) {
        PassGrows(PromoteAt(q, i), i);
      } else {
        PassGrows(q, i + 1);
      }
    }
  }

  /** A session without a spot comes out of a promotion pass with one exactly when it wins. */
  lemma {:induction false} PassWins(q: QueueState, i: nat, k: Key)
    requires Wf(q) && i <= |q.queue| && Unshared(q) && !q.cfg.atomic && k !in q.spots
    ensures k in SinglePass(q, i).spots <==> Wins(q.queue[i..], q.spots, q.cfg.maxSpots, k)
    decreases |q.queue| - i
  {
    hide Overtaken, Count, Unshared, Wins, Eligible;
    if i < |q.queue| {
      var x := q.queue[i].key;
      WinsStep(q.queue[i..], q.spots, q.cfg.maxSpots, k);
      assert q.queue[i..][1..] == q.queue[i + 1..];
      PromotionKeepsUnshared(q, i);
      ChancesUnshared(q, i);
      if Eligible(q, x) {
        var p := PromoteAt(q, i);
        assert p.queue[i..] == q.queue[i + 1..];
        if x == k {
          PassGrows(p, i);
        } else {
          PassWins(p, i, k);
        }
      } else {
        PassWins(q, i + 1, k);
        NoRoomNoWin(q.queue[i..], q.spots, q.cfg.maxSpots, k);
        NoRoomNoWin(q.queue[i + 1..], q.spots, q.cfg.maxSpots, k);
      }
    } else {
      NobodyWins(q.spots, q.cfg.maxSpots, k);
      assert q.queue[i..] == [];
    }
  }

  lemma NobodyWins(spots: set<Key>, maxSpots: nat, k: Key)
    ensures !Wins([], spots, maxSpots, k)
  {
  }

  lemma NoRoomNoWin(queue: seq<Ticket>, spots: set<Key>, maxSpots: nat, k: Key)
    ensures |spots| >= maxSpots ==> !Wins(queue, spots, maxSpots, k)
  {
  }

  /** Without sharing and atomic mode a session with no spot is eligible exactly when one is free. */
  lemma ChancesUnshared(q: QueueState, i: nat)
    requires Wf(q) && i < |q.queue| && Unshared(q) && !q.cfg.atomic
    ensures q.queue[i].key !in q.spots ==> (Eligible(q, q.queue[i].key) <==> |q.spots| < q.cfg.maxSpots)
  {
    hide Count;
  }

  // ------------------------------------------ the promotions after the release

  /** Everybody else in flight owns a spot. */
  ghost predicate OthersOwn(q: QueueState, k: Key) {
    forall x :: x in q.sessions && x != k && q.sessions[x].inflight > 0 ==> x in q.spots
  }

  lemma PromotionGrows(q: QueueState, i: nat, k: Key)
    requires Wf(q) && i < |q.queue| && k in q.sessions
    ensures var r := PromoteAt(q, i);
      r.cfg == q.cfg && q.spots <= r.spots && r.sessions[k].inflight >= q.sessions[k].inflight
  {
    hide Overtaken, Count;
  }

  lemma {:induction false} LoopGrows(q: QueueState, k: Key)
    requires Wf(q) && k in q.sessions
    ensures var r := PromoteLoop(q);
      r.cfg == q.cfg && q.spots <= r.spots && r.sessions[k].inflight >= q.sessions[k].inflight
    decreases |q.queue|
  {
    hide PromoteAt, Eligible, Count;
    var f := FirstEligible(q, 0);
    if f < |q.queue| {
      PromotionGrows(q, f, k);
      LoopGrows(PromoteAt(q, f), k);
    }
  }

  lemma {:induction false} LoopKeepsOwn(q: QueueState)
    requires Books(q, multiset{}) && Own(q)
    ensures KeepsOwn(q, PromoteLoop(q))
    decreases |q.queue|
  {
    hide PromoteAt, Eligible, Count, Own, WithinCap, OrderOf;
    var f := FirstEligible(q, 0);
    if f < |q.queue| {
      PromoteFirstKeepsOwn(q);
      PromoteFirstKeepsBooks(q, multiset{});
      LoopKeepsOwn(PromoteAt(q, f));
    }
  }

  /** A promotion of another session. */
  lemma OtherPromoted(q: QueueState, i: nat, k: Key)
    requires Books(q, multiset{}) && Unshared(q) && OthersOwn(q, k) && k in q.sessions && k !in q.spots
    requires i < |q.queue| && Eligible(q, q.queue[i].key) && q.queue[i].key != k
    ensures var r := PromoteAt(q, i);
      && r.cfg == q.cfg && Unshared(r) && OthersOwn(r, k) && k !in r.spots
      && r.sessions[k].inflight == q.sessions[k].inflight
      && (WithinCap(q) ==> WithinCap(r))
  {
    hide Overtaken, OrderOf, Count, Eligible, WithinCap;
    assert q.sessions[q.queue[i].key].inflight >= 0;
    PromotionKeepsUnshared(q, i);
    if WithinCap(q) {
      PromotionKeepsCap(q, i);
    }
  }

  /** The released session itself is promoted: it takes a spot again. */
  lemma ReleasedPromoted(q: QueueState, i: nat, k: Key)
    requires Books(q, multiset{}) && Unshared(q) && OthersOwn(q, k) && k in q.sessions && k !in q.spots
    requires i < |q.queue| && q.queue[i].key == k
    ensures var r := PromoteAt(q, i);
      && r.cfg == q.cfg && Own(r) && k in r.spots
      && r.sessions[k].inflight == q.sessions[k].inflight + 1
      && (WithinCap(q) ==> (WithinCap(r) <==> CapAllowsOneMore(q, k)))
  {
    hide Overtaken, OrderOf, Count;
    PromotionKeepsUnshared(q, i);
  }

  predicate CapAllowsOneMore(q: QueueState, k: Key)
    requires k in q.sessions
  {
    q.cfg.cap >= 0 ==> q.sessions[k].inflight < Max(1, q.cfg.cap)
  }

  lemma TooManyStay(q: QueueState, r: QueueState, k: Key)
    requires k in q.sessions && k in r.sessions && r.cfg == q.cfg
    requires r.sessions[k].inflight >= q.sessions[k].inflight
    requires q.cfg.cap >= 0 && q.sessions[k].inflight > Max(1, q.cfg.cap)
    ensures !WithinCap(r)
  {
  }

  /** The promotion loop's verdict on the released session k, started in q and ended in r. */
  ghost predicate Decided(q: QueueState, r: QueueState, k: Key)
    requires k in q.sessions
  {
    && OthersOwn(r, k) && Unshared(r)
    && (WithinCap(q) ==> (WithinCap(r) <==> (k in r.spots ==> CapAllowsOneMore(q, k))))
  }

  lemma DecidedByPromotion(q: QueueState, i: nat, k: Key)
    requires Books(q, multiset{}) && Unshared(q) && OthersOwn(q, k) && k in q.sessions && k !in q.spots
    requires i < |q.queue| && q.queue[i].key == k && Eligible(q, k)
    ensures Decided(q, PromoteLoop(PromoteAt(q, i)), k)
  {
    hide PromoteAt, PromoteLoop, Count, OrderOf, WithinCap, Unshared, OthersOwn, InFlightOwnsSpot, Eligible;
    var p := PromoteAt(q, i);
    PromoteKeepsBooks(q, i, multiset{});
    ReleasedPromoted(q, i, k);
    LoopGrows(p, k);
    LoopKeepsOwn(p);
    OwnMeansOthersOwn(PromoteLoop(p), k);
    if q.cfg.cap >= 0 && p.sessions[k].inflight > Max(1, q.cfg.cap) {
      TooManyStay(p, PromoteLoop(p), k);
    }
  }

  lemma NothingDecided(q: QueueState, k: Key)
    requires OthersOwn(q, k) && Unshared(q) && k in q.sessions && k !in q.spots
    ensures Decided(q, q, k)
  {
  }

  lemma DecidedLater(q: QueueState, i: nat, r: QueueState, k: Key)
    requires Books(q, multiset{}) && Unshared(q) && OthersOwn(q, k) && k in q.sessions && k !in q.spots
    requires i < |q.queue| && Eligible(q, q.queue[i].key) && q.queue[i].key != k
    requires k in PromoteAt(q, i).sessions && Decided(PromoteAt(q, i), r, k)
    ensures Decided(q, r, k)
  {
    hide PromoteAt, Count, OrderOf, WithinCap, Unshared, OthersOwn, Eligible;
    OtherPromoted(q, i, k);
  }

  lemma {:induction false} LoopAfterRelease(q: QueueState, k: Key)
    requires Books(q, multiset{}) && Unshared(q) && OthersOwn(q, k) && k in q.sessions && k !in q.spots
    ensures Decided(q, PromoteLoop(q), k)
    decreases |q.queue|
  {
    hide PromoteAt, Count, OrderOf, Unshared, OthersOwn, Eligible, Decided;
    var f := FirstEligible(q, 0);
    if f == |q.queue| {
      NothingDecided(q, k);
    } else if q.queue[f].key == k {
      DecidedByPromotion(q, f, k);
    } else {
      PromoteFirstKeepsBooks(q, multiset{});
      OtherPromoted(q, f, k);
      LoopAfterRelease(PromoteAt(q, f), k);
      DecidedLater(q, f, PromoteLoop(q), k);
    }
  }

  lemma OwnMeansOthersOwn(q: QueueState, k: Key)
    requires Own(q)
    ensures OthersOwn(q, k)
  {
  }

  // ------------------------------------------------------ the exact conditions

  /** After its spot is taken, the promotions give the session a spot again. */
  predicate WinsSpotBack(q: QueueState, k: Key) {
    && q.ready && !q.cfg.atomic && Waits(q.queue, k)
    && |SpotlessAhead(q.queue, q.spots, k)| + |q.spots| <= q.cfg.maxSpots
  }

  predicate BusyReleased(q: QueueState, ev: Event) {
    ev.ManualRelease? && HoldsSpot(q, ev.key) && q.sessions[ev.key].inflight > 0
  }

  /** A busy session is released and does not win its spot back. */
  predicate LosesSpot(q: QueueState, ev: Event) {
    BusyReleased(q, ev) && !WinsSpotBack(q, ev.key)
  }

  /** A busy session with as many requests in flight as it may have wins its spot back. */
  predicate OverfillsSession(q: QueueState, ev: Event) {
    BusyReleased(q, ev) && WinsSpotBack(q, ev.key) && !CapAllowsOneMore(q, ev.key)
  }

  lemma Surrendered(q: QueueState, k: Key)
    requires Inv(q) && Own(q) && HoldsSpot(q, k) && q.sessions[k].inflight > 0
    ensures var p := Surrender(q, k);
      && Books(p, multiset{}) && Unshared(p) && OthersOwn(p, k)
      && k in p.sessions && k !in p.spots && p.sessions[k].inflight == q.sessions[k].inflight
      && p.spots == q.spots - {k} && |p.spots| == |q.spots| - 1
      && p.queue == q.queue && p.cfg == q.cfg && p.ready == q.ready && p.inflightTotal == q.inflightTotal > 0
      && (WithinCap(q) ==> WithinCap(p))
  {
    hide Count, OrderOf, Ordered, Justified;
    SurrenderKeepsBooks(q, k, multiset{});
    FinishableMeansRunning(q, k);
  }

  lemma FinishableMeansRunning(q: QueueState, k: Key)
    requires Inv(q) && k in q.sessions && q.sessions[k].inflight > 0
    ensures q.inflightTotal > 0
  {
    hide SpotsTracked, Ordered, Justified, OrderOf;
    assert Count(q.running, k) > 0;
  }

  lemma AtomicStops(q: QueueState)
    requires Wf(q) && q.cfg.atomic && q.inflightTotal > 0
    ensures PromoteLoop(q) == q
  {
    hide Count;
    assert forall i :: 0 <= i < |q.queue| ==> !Eligible(q, q.queue[i].key);
  }

  /** What the manual release of a busy session does to its spot and to the cap bound. */
  lemma BusyReleaseIff(q: QueueState, k: Key)
    requires Inv(q) && Own(q) && HoldsSpot(q, k) && q.sessions[k].inflight > 0
    ensures InFlightOwnsSpot(ReleaseSession(q, k)) <==> WinsSpotBack(q, k)
    ensures Unshared(ReleaseSession(q, k))
    ensures WithinCap(q) ==>
              (WithinCap(ReleaseSession(q, k)) <==> (WinsSpotBack(q, k) ==> CapAllowsOneMore(q, k)))
  {
    hide Surrender, Count, OrderOf, SpotsTracked, Ordered, Justified, PromoteLoop, SinglePass, OthersOwn;
    hide Own, InFlightOwnsSpot, WithinCap, Unshared, CapAllowsOneMore, SpotlessAhead, Waits;
    Surrendered(q, k);
    var p := Surrender(q, k);
    AheadWithoutOwn(q.queue, q.spots, k);
    NothingDecided(p, k);
    if p.ready && !p.cfg.atomic {
      LoopIsPassFrom(p, 0);
      assert p.queue[0..] == p.queue;
      PassWins(p, 0, k);
      LoopGrows(p, k);
      LoopAfterRelease(p, k);
    } else if p.ready {
      AtomicStops(p);
    }
    OwnershipIffSpot(ReleaseSession(q, k), k);
    SameCap(q, p, k);
  }

  lemma OwnershipIffSpot(q: QueueState, k: Key)
    requires OthersOwn(q, k) && k in q.sessions && q.sessions[k].inflight > 0
    ensures InFlightOwnsSpot(q) <==> k in q.spots
  {
  }

  lemma SameCap(q: QueueState, p: QueueState, k: Key)
    requires k in q.sessions && k in p.sessions && p.cfg == q.cfg
    requires p.sessions[k].inflight == q.sessions[k].inflight
    ensures CapAllowsOneMore(p, k) <==> CapAllowsOneMore(q, k)
  {
  }

  lemma ShareKeepsOwnership(q: QueueState, k: Key, with: Option<Key>)
    requires Wf(q) && k in q.sessions
    ensures InFlightOwnsSpot(SetShared(q, k, with)) <==> InFlightOwnsSpot(q)
    ensures WithinCap(SetShared(q, k, with)) <==> WithinCap(q)
  {
    hide Count;
    var r := SetShared(q, k, with);
    assert r.sessions.Keys == q.sessions.Keys;
    assert forall x :: x in q.sessions ==> r.sessions[x].inflight == q.sessions[x].inflight;
  }

  /** Where every session in flight owns a spot and none is shared, an event keeps ownership
      exactly when it does not release a busy session that then fails to win a spot back, and
      it keeps the cap bound exactly when it does not release a full session that then does. */
  lemma StepKeepsOwnIff(q: QueueState, ev: Event)
    requires Inv(q) && Own(q) && Legal(q, ev)
    ensures InFlightOwnsSpot(Step(q, ev)) <==> !LosesSpot(q, ev)
    ensures KeepsSpotsApart(ev) ==> Unshared(Step(q, ev))
    ensures WithinCap(q) ==> (WithinCap(Step(q, ev)) <==> !OverfillsSession(q, ev))
  {
    hide WinsSpotBack, InFlightOwnsSpot, WithinCap, CapAllowsOneMore, Unshared, OrderOf, SpotsTracked, Ordered, Justified;
    hide ReleaseSession, Admit, Abandon, Release, TickOver, Poke, Report, SetReady, SetShared, Count;
    if BusyReleased(q, ev) {
      BusyReleaseIff(q, ev.key);
    } else if ev.ShareChange? {
      ShareKeepsOwnership(q, ev.key, ev.with);
      if KeepsSpotsApart(ev) {
        StepKeepsOwn(q, ev);
      }
    } else {
      StepKeepsOwn(q, ev);
    }
  }

  /** In a settled queue only the sessions ahead matter: the released session wins its spot
      back exactly when it waits itself and no session without a spot waits ahead of it. */
  lemma SettledWinsSpotBack(q: QueueState, k: Key)
    requires Inv(q) && Own(q) && Settled(q)
    ensures WinsSpotBack(q, k) <==>
              q.ready && !q.cfg.atomic && Waits(q.queue, k) && SpotlessAhead(q.queue, q.spots, k) == {}
  {
    hide OrderOf, SpotsTracked, Ordered, Justified, Count;
    AheadWaits(q.queue, q.spots, k);
    var ahead := SpotlessAhead(q.queue, q.spots, k);
    if q.ready && !q.cfg.atomic && ahead != {} {
      var x :| x in ahead;
      var i :| 0 <= i < |q.queue| && q.queue[i].key == x;
      ChancesUnshared(q, i);
      assert !Eligible(q, x);
    }
  }

  lemma {:induction false} AheadWaits(queue: seq<Ticket>, spots: set<Key>, k: Key)
    ensures forall x :: x in SpotlessAhead(queue, spots, k) ==>
              x !in spots && exists i :: 0 <= i < |queue| && queue[i].key == x
  {
    if queue != [] && queue[0].key != k {
      AheadWaits(queue[1..], spots, k);
      forall x | x in SpotlessAhead(queue, spots, k)
        ensures x !in spots && exists i :: 0 <= i < |queue| && queue[i].key == x
      {
        if x in SpotlessAhead(queue[1..], spots, k) {
          var i :| 0 <= i < |queue[1..]| && queue[1..][i].key == x;
          assert queue[i + 1].key == x;
        } else {
          assert queue[0].key == x;
        }
      }
    }
  }

  // --------------------------------------------------------------------- runs

  /** No sharing, and no release that leaves a busy session without a spot. */
  ghost predicate Gentle(q: QueueState, ev: Event) {
    KeepsSpotsApart(ev) && !LosesSpot(q, ev)
  }

  ghost predicate GentleRun(q: QueueState, evs: seq<Event>)
    requires Inv(q) && Run(q, evs)
    decreases |evs|
  {
    evs == [] ||
    (Gentle(q, evs[0]) &&
     (StepKeepsInv(q, evs[0]);
      GentleRun(Step(q, evs[0]), evs[1..])))
  }

  /** No step releases a full session that at once wins a spot back. */
  ghost predicate NothingOverfilled(q: QueueState, evs: seq<Event>)
    requires Inv(q) && Run(q, evs)
    decreases |evs|
  {
    evs == [] ||
    (!OverfillsSession(q, evs[0]) &&
     (StepKeepsInv(q, evs[0]);
      NothingOverfilled(Step(q, evs[0]), evs[1..])))
  }

  lemma GentleStepKeepsOwn(q: QueueState, ev: Event)
    requires Inv(q) && Own(q) && Legal(q, ev) && Gentle(q, ev)
    ensures Own(Step(q, ev))
  {
    hide Step, Legal, LosesSpot, InFlightOwnsSpot, Unshared, Inv;
    StepKeepsOwnIff(q, ev);
  }

  lemma {:induction false} GentleRunKeepsOwn(q: QueueState, evs: seq<Event>)
    requires Inv(q) && Own(q) && Run(q, evs) && GentleRun(q, evs)
    ensures Own(End(q, evs))
    ensures WithinCap(q) && NothingOverfilled(q, evs) ==> WithinCap(End(q, evs))
    decreases |evs|
  {
    hide Step, Legal, Gentle, Own, WithinCap, OverfillsSession, LosesSpot;
    if evs != [] {
      GentleStepKeepsOwn(q, evs[0]);
      StepKeepsOwnIff(q, evs[0]);
      StepKeepsInv(q, evs[0]);
      GentleRunKeepsOwn(Step(q, evs[0]), evs[1..]);
    }
  }

  // ------------------------------------------------------------ the theorem

  ghost function InFlightSessions(q: QueueState): set<Key> {
    set k | k in q.sessions && q.sessions[k].inflight > 0
  }

  lemma {:induction false} SumBound(sessions: map<Key, SessionState>, order: seq<Key>, spots: set<Key>, m: nat)
    requires NoDup(order) && forall k :: k in order ==> k in sessions
    requires forall k :: k in order ==> sessions[k].inflight <= if k in spots then m else 0
    ensures SumInflight(sessions, order) <= |spots| * m
    decreases |order|
  {
    if order != [] {
      var k := order[0];
      assert forall x :: x in order[1..] ==> x in order && x != k;
      SumBound(sessions, order[1..], spots - {k}, m);
      if k in spots {
        assert |spots - {k}| == |spots| - 1;
        assert (|spots| - 1) * m + m == |spots| * m;
      } else {
        assert spots - {k} == spots;
      }
    }
  }

  lemma SubsetSize(a: set<Key>, b: set<Key>)
    requires a <= b
    ensures |a| <= |b|
  {
    if a != {} {
      var x :| x in a;
      SubsetSize(a - {x}, b - {x});
    }
  }

  /** At most maxSpots sessions run at once, and unless a release overfills a session each of
      them has at most max(1, cap) requests in flight. */
  lemma InFlightIsBounded(cfg: Config, evs: seq<Event>)
    requires Started(cfg, evs)
    requires (InitialInv(cfg); GentleRun(Initial(cfg), evs))
    ensures var q := Reached(cfg, evs);
      && InFlightOwnsSpot(q)
      && |InFlightSessions(q)| <= cfg.maxSpots
      && (cfg.cap >= 0 && (InitialInv(cfg); NothingOverfilled(Initial(cfg), evs)) ==>
            && (forall k :: k in q.sessions ==> q.sessions[k].inflight <= Max(1, cfg.cap))
            && q.inflightTotal <= cfg.maxSpots * Max(1, cfg.cap))
  {
    InitialInv(cfg);
    var q := Reached(cfg, evs);
    GentleRunKeepsOwn(Initial(cfg), evs);
    RunKeepsConfig(Initial(cfg), evs);
    SubsetSize(InFlightSessions(q), q.spots);
    if cfg.cap >= 0 && NothingOverfilled(Initial(cfg), evs) {
      var m := Max(1, cfg.cap);
      BookkeepingAgrees(cfg, evs);
      SumBound(q.sessions, q.order, q.spots, m);
      MulMonotone(|q.spots|, cfg.maxSpots, m);
    }
  }

  lemma MulMonotone(a: nat, b: nat, m: nat)
    requires a <= b
    ensures a * m <= b * m
  {
  }
}
