/** What holds in every reachable state of one endpoint's queue (HTTP traffic). */
module QueueTheorems {
  import opened QueueModel
  import opened QueueSteps
  import opened QueueInvariants
  import opened QueueRuns

  // ------------------------------------------------------------- bookkeeping

  function SumInflight(sessions: map<Key, SessionState>, order: seq<Key>): int
    requires forall k :: k in order ==> k in sessions
  {
    if order == [] then 0
    else sessions[order[0]].inflight + SumInflight(sessions, order[1..])
  }

  function SumCount(s: seq<Ticket>, order: seq<Key>): nat {
    if order == [] then 0 else Count(s, order[0]) + SumCount(s, order[1..])
  }

  lemma {:induction false} SumCountStep(s: seq<Ticket>, order: seq<Key>)
    requires s != [] && NoDup(order)
    ensures SumCount(s, order) == SumCount(s[1..], order) + (if s[0].key in order then 1 else 0)
    decreases |order|
  {
    if order != [] {
      SumCountStep(s, order[1..]);
      assert forall x :: x in order[1..] ==> x != order[0];
    }
  }

  lemma {:induction false} SumCountAll(s: seq<Ticket>, order: seq<Key>)
    requires NoDup(order) && forall t :: t in s ==> t.key in order
    ensures SumCount(s, order) == |s|
  {
    if s != [] {
      SumCountStep(s, order);
      SumCountAll(s[1..], order);
    } else {
      SumCountNone(order);
    }
  }

  lemma {:induction false} SumCountNone(order: seq<Key>)
    ensures SumCount([], order) == 0
  {
    if order != [] {
      SumCountNone(order[1..]);
    }
  }

  lemma {:induction false} SumInflightIsSumCount(q: QueueState, order: seq<Key>)
    requires Books(q, multiset{}) && forall k :: k in order ==> k in q.sessions
    ensures SumInflight(q.sessions, order) == SumCount(q.running, order)
    decreases |order|
  {
    hide OrderOf, Wf;
    if order != [] {
      SumInflightIsSumCount(q, order[1..]);
    }
  }

  /** All redundant counters and flags agree in every reachable state. */
  lemma BookkeepingAgrees(cfg: Config, evs: seq<Event>)
    requires Started(cfg, evs)
    ensures var q := Reached(cfg, evs);
      && (forall t :: t in q.queue || t in q.running ==> t.key in q.sessions)
      && (forall k :: k in q.spots ==> k in q.sessions)
      && (forall k :: k in q.sessions ==>
            && (q.sessions[k].spotHeld <==> k in q.spots)
            && q.sessions[k].waiting == Count(q.queue, k)
            && q.sessions[k].inflight == Count(q.running, k))
      && NoDup(q.order) && (forall k :: k in q.order <==> k in q.sessions)
      && q.inflightTotal == |q.running| == SumInflight(q.sessions, q.order)
  {
    var q := Reached(cfg, evs);
    SumInflightIsSumCount(q, q.order);
    SumCountAll(q.running, q.order);
  }

  /** The clamps max(0, ..) and the guard inflight > 0 never bite: leaving and finishing
      subtract exactly one from every counter they touch. */
  lemma ClampsNeverBite(cfg: Config, evs: seq<Event>, t: Ticket, now: real)
    requires Started(cfg, evs)
    ensures var q := Reached(cfg, evs);
      && (t in q.queue ==>
            Leave(q, t).sessions[t.key].waiting == q.sessions[t.key].waiting - 1)
      && (t in q.running ==>
            Finish(q, t, now).sessions[t.key].inflight == q.sessions[t.key].inflight - 1
            && Finish(q, t, now).inflightTotal == q.inflightTotal - 1)
  {
    var q := Reached(cfg, evs);
    if t in q.queue {
      LeaveKeepsBooks(q, t, multiset{});
    }
    if t in q.running {
      FinishKeepsBooks(q, t, now, multiset{});
    }
  }

  // ---------------------------------------------------- capacity and fairness

  lemma CapacityRespected(cfg: Config, evs: seq<Event>)
    requires Started(cfg, evs)
    ensures |Reached(cfg, evs).spots| <= cfg.maxSpots
    ensures cfg.atomic ==> |Reached(cfg, evs).running| <= 1
  {
    InitialInv(cfg);
    RunKeepsConfig(Initial(cfg), evs);
  }

  /** Over a whole run: every admitted request is promoted at most once, the requests of one
      session are promoted in the order they were queued, and a request p is promoted past a
      waiting request a of another session only when p already runs on a live spot, or a
      has a live spot and is held back by its session's cap. In particular requests that
      need a new spot get it first come, first served. */
  lemma OvertakingIsBounded(cfg: Config, evs: seq<Event>)
    requires Started(cfg, evs)
    ensures var log := Reached(cfg, evs).log;
      && (forall i, j :: 0 <= i < j < |log| ==> log[i].ticket.id != log[j].ticket.id)
      && (forall i, j :: 0 <= i < j < |log| && log[i].ticket.key == log[j].ticket.key ==>
            log[i].ticket.id < log[j].ticket.id)
      && (forall p, a :: p in log && a in p.passed ==>
            && a.ticket.key != p.ticket.key
            && (!p.newSpot || a.live)
            && (a.live ==> cfg.cap >= 0 && a.inflight >= cfg.cap))
  {
    var log := Reached(cfg, evs).log;
    assert forall i, j :: 0 <= i < j < |log| ==> Before(log[i].ticket, log[j].ticket);
    InitialInv(cfg);
    RunKeepsConfig(Initial(cfg), evs);
    assert forall p, a :: p in log && a in p.passed ==> Fair(p, a, cfg.cap);
  }

  /** The session owns a spot or shares one that is held. */
  predicate OnSpot(q: QueueState, k: Key)
    requires k in q.sessions
  {
    k in q.spots || (q.sessions[k].shared.Some? && q.sessions[k].shared.value in q.spots)
  }

  /** The reasons for which a request of the session may have to wait on a ready endpoint:
      atomic mode with a request in flight, its session's cap on a spot, or no spot for it
      and none free. */
  predicate HeldBack(q: QueueState, k: Key)
    requires k in q.sessions
  {
    || (q.cfg.atomic && q.inflightTotal > 0)
    || (OnSpot(q, k) && q.cfg.cap >= 0 && q.sessions[k].inflight >= q.cfg.cap)
    || (!OnSpot(q, k) && |q.spots| >= q.cfg.maxSpots)
  }

  lemma EligibleIsNotHeldBack(q: QueueState, k: Key)
    requires k in q.sessions
    ensures Eligible(q, k) <==> !HeldBack(q, k)
    ensures Live(q, k) <==> OnSpot(q, k)
  {
  }

  /** The scan promotes the first request that nothing holds back, and only one such. */
  lemma ScanTakesFirstFree(q: QueueState)
    requires Wf(q)
    ensures forall i :: 0 <= i < |q.queue| ==>
              (FirstEligible(q, 0) == i <==>
                 !HeldBack(q, q.queue[i].key) && forall j :: 0 <= j < i ==> HeldBack(q, q.queue[j].key))
  {
    hide Eligible, HeldBack, Count;
    forall i | 0 <= i < |q.queue|
      ensures Eligible(q, q.queue[i].key) <==> !HeldBack(q, q.queue[i].key)
    {
      EligibleIsNotHeldBack(q, q.queue[i].key);
    }
  }

  /** What a promotion records is the truth: everything queued earlier is in `passed`. */
  lemma PassedIsEverythingAhead(q: QueueState, t: Ticket)
    requires Inv(q) && FirstEligible(q, 0) < |q.queue| && t in q.queue
    requires t.id < q.queue[FirstEligible(q, 0)].id
    ensures var r := PromoteAt(q, FirstEligible(q, 0));
      && r.log[..|q.log|] == q.log && |r.log| == |q.log| + 1
      && r.log[|q.log|].ticket == q.queue[FirstEligible(q, 0)]
      && r.log[|q.log|].newSpot == !OnSpot(q, r.log[|q.log|].ticket.key)
      && Passed(t, OnSpot(q, t.key), q.sessions[t.key].inflight) in r.log[|q.log|].passed
  {
    hide OrderOf, SpotsTracked, Justified, RunningLogged, Count, Overtaken, Eligible, HeldBack, OnSpot, Live;
    var f := FirstEligible(q, 0);
    var j :| 0 <= j < |q.queue| && q.queue[j] == t;
    assert j < f;
    EligibleIsNotHeldBack(q, q.queue[f].key);
    EligibleIsNotHeldBack(q, t.key);
    assert Overtaken(q, f)[j] == Passed(t, Live(q, t.key), q.sessions[t.key].inflight);
  }

  /** A promoted session runs on a live spot; a promotion on a shared or held spot leaves
      the spots alone, any other takes exactly one. */
  lemma PromotionRunsOnSpot(q: QueueState, i: nat)
    requires Wf(q) && i < |q.queue| && Eligible(q, q.queue[i].key)
    ensures var r := PromoteAt(q, i);
      var k := q.queue[i].key;
      && OnSpot(r, k)
      && (OnSpot(q, k) ==> r.spots == q.spots)
      && (!OnSpot(q, k) ==> r.spots == q.spots + {k} && |r.spots| == |q.spots| + 1)
  {
    hide Overtaken, Count;
    if !Live(q, q.queue[i].key) {
      assert q.queue[i].key !in q.spots;
    }
  }
}
