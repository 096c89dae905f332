/** The life of an admitted request: wait_for_slot and _admit_queued of every caller,
    interleaved in any way with each other and with promotion.

    A caller is suspended between checking `go` and learning whether its client hung up, so
    a promotion can win that race; it then has to release instead of abandon. */
module Lifecycle {
  import opened QueueModel
  import opened QueueSteps
  import opened QueueInvariants
  import opened QueueRuns

  datatype Phase =
    | Polling      // about to look at `go`
    | Probing      // `go` was not set; awaiting the disconnect check
    | Forwarding   // promoted and being served
    | Over         // returned to the client

  datatype Call = Released(ticket: Ticket) | Abandoned(ticket: Ticket)

  /** calls: every release and abandon made so far. */
  datatype Callers = Callers(q: QueueState, phase: map<Ticket, Phase>, calls: seq<Call>)

  datatype Move =
    | Arrive(key: Key, now: real)
    | CheckGo(ticket: Ticket)
    | Resume(ticket: Ticket, hungUp: bool, timedOut: bool, now: real)
    | Respond(ticket: Ticket, now: real)
    | Background(ev: Event)

  ghost predicate InPhase(c: Callers, t: Ticket, p: Phase) {
    t in c.phase && c.phase[t] == p
  }

  ghost predicate Possible(c: Callers, m: Move) {
    match m
    case Arrive(_, _) => true
    case CheckGo(t) => InPhase(c, t, Polling)
    case Resume(t, _, _, _) => InPhase(c, t, Probing)
    case Respond(t, _) => InPhase(c, t, Forwarding)
    case Background(ev) => !ev.AdmitCall? && !ev.AbandonCall? && !ev.ReleaseCall? && Legal(c.q, ev)
  }

  /** Where the tickets are, phase by phase. */
  ghost predicate Placed(queue: seq<Ticket>, running: seq<Ticket>, nextId: nat, phase: map<Ticket, Phase>) {
    && (forall t :: t in phase ==> t.id < nextId)
    && (forall t :: t in queue ==> t in phase && (phase[t] == Polling || phase[t] == Probing))
    && (forall t :: t in running ==> t in phase && phase[t] != Over)
    && (forall t :: t in phase && phase[t] != Over ==> t in queue || t in running)
    && (forall t :: t in phase && phase[t] == Forwarding ==> t in running)
  }

  /** Exactly one call for every caller that is over, none for the others. */
  ghost predicate Accounted(phase: map<Ticket, Phase>, calls: seq<Call>) {
    && (forall c :: c in calls ==> c.ticket in phase && phase[c.ticket] == Over)
    && (forall t :: t in phase && phase[t] == Over ==> Mentions(calls, t) == 1)
  }

  /** The promoted tickets are those running and those released. */
  ghost predicate LogMatches(log: seq<Promotion>, running: seq<Ticket>, calls: seq<Call>) {
    forall t :: Logged(log, t) <==> t in running || Released(t) in calls
  }

  ghost predicate CallerInv(c: Callers) {
    && Inv(c.q)
    && Placed(c.q.queue, c.q.running, c.q.nextId, c.phase)
    && Accounted(c.phase, c.calls)
    && LogMatches(c.q.log, c.q.running, c.calls)
  }

  /** Number of calls made for a ticket. */
  function Mentions(calls: seq<Call>, t: Ticket): (n: nat)
    ensures n > 0 <==> exists c :: c in calls && c.ticket == t
  {
    if calls == [] then 0
    else
      var n := (if calls[0].ticket == t then 1 else 0) + Mentions(calls[1..], t);
      assert calls[0] in calls && forall c :: c in calls <==> c == calls[0] || c in calls[1..];
      n
  }

  lemma {:induction false} MentionsAppend(calls: seq<Call>, c: Call, t: Ticket)
    ensures Mentions(calls + [c], t) == Mentions(calls, t) + (if c.ticket == t then 1 else 0)
  {
    if calls == [] {
      assert [c][1..] == [];
    } else {
      assert (calls + [c])[1..] == calls[1..] + [c];
      MentionsAppend(calls[1..], c, t);
    }
  }

  function Answer(c: Callers, t: Ticket, now: real): Callers
    requires Inv(c.q) && (t in c.q.queue || t in c.q.running)
  {
    // entry.done: promoted, so release it; otherwise abandon it
    if t in c.q.running then
      Callers(Release(c.q, t, now), c.phase[t := Over], c.calls + [Released(t)])
    else
      Callers(Abandon(c.q, t), c.phase[t := Over], c.calls + [Abandoned(t)])
  }

  function Next(c: Callers, m: Move): Callers
    requires Inv(c.q) && Placed(c.q.queue, c.q.running, c.q.nextId, c.phase) && Possible(c, m)
  {
    hide Ordered, Justified, SpotsTracked, Count;
    match m
    case Arrive(k, now) => Callers(Admit(c.q, k, now), c.phase[Ticket(c.q.nextId, k) := Polling], c.calls)
    case CheckGo(t) => c.(phase := c.phase[t := if t in c.q.running then Forwarding else Probing])
    case Resume(t, hungUp, timedOut, now) =>
      if hungUp || timedOut then Answer(c, t, now) else c.(phase := c.phase[t := Polling])
    case Respond(t, now) => Answer(c, t, now)
    case Background(ev) => c.(q := Step(c.q, ev))
  }

  // ------------------------------------------------- what moves between lists

  /** Tickets move from the queue to running, recorded in the log, and in no other way. */
  ghost predicate MovedLists(queue: seq<Ticket>, running: seq<Ticket>, log: seq<Promotion>,
      queue': seq<Ticket>, running': seq<Ticket>, log': seq<Promotion>)
  {
    && (forall t :: t in queue' ==> t in queue)
    && (forall t :: t in running ==> t in running')
    && (forall t :: t in queue && t !in queue' ==> t in running')
    && (forall t :: t in running' && t !in running ==> t in queue && t !in queue')
    && (forall t :: Logged(log', t) <==> Logged(log, t) || (t in running' && t !in running))
  }

  ghost predicate Moved(q: QueueState, r: QueueState) {
    r.nextId == q.nextId && MovedLists(q.queue, q.running, q.log, r.queue, r.running, r.log)
  }

  lemma LoggedAppend(log: seq<Promotion>, p: Promotion, t: Ticket)
    ensures Logged(log + [p], t) <==> Logged(log, t) || t == p.ticket
  {
    assert forall x :: x in log + [p] <==> x in log || x == p;
    if t == p.ticket {
      assert p in log + [p];
    }
  }

  lemma PromoteMovesLists(queue: seq<Ticket>, running: seq<Ticket>, log: seq<Promotion>, f: nat, p: Promotion)
    requires f < |queue| && p.ticket == queue[f] && queue[f] !in running
    requires forall i, j :: 0 <= i < j < |queue| ==> queue[i].id < queue[j].id
    ensures MovedLists(queue, running, log, RemoveAt(queue, f), running + [queue[f]], log + [p])
  {
    hide Logged;
    RemoveAtMembers(queue, f);
    assert queue[f] !in RemoveAt(queue, f);
    forall x
      ensures Logged(log + [p], x) <==> Logged(log, x) || x == queue[f]
    {
      LoggedAppend(log, p, x);
    }
  }

  lemma PromoteMoves(q: QueueState)
    requires Wf(q) && Ordered(q) && FirstEligible(q, 0) < |q.queue|
    ensures Moved(q, PromoteAt(q, FirstEligible(q, 0)))
  {
    hide Eligible, Overtaken, RunningLogged, Count, MovedLists;
    var f := FirstEligible(q, 0);
    WaitingNotRunning(q, q.queue[f]);
    PromoteMovesLists(q.queue, q.running, q.log, f, Promotion(q.queue[f], !Live(q, q.queue[f].key), Overtaken(q, f)));
  }

  lemma NothingMoves(q: QueueState, r: QueueState)
    requires r.nextId == q.nextId && r.queue == q.queue && r.running == q.running && r.log == q.log
    ensures Moved(q, r)
  {
  }

  predicate MovesOnly(a: Atom) {
    !a.AJoin? && !a.ALeave? && !a.AFinish?
  }

  lemma AtomMoves(q: QueueState, a: Atom)
    requires Inv(q) && Enabled(q, a) && MovesOnly(a)
    ensures Moved(q, Apply(q, a))
  {
    hide PromoteAt, Refreshed, OrderOf, SpotsTracked, Ordered, Justified, Count, Moved, WithoutKey;
    if a.APromote? {
      PromoteMoves(q);
    } else {
      NothingMoves(q, Apply(q, a));
    }
  }

  lemma MovedTrans(q: QueueState, r: QueueState, s: QueueState)
    requires Moved(q, r) && Moved(r, s)
    ensures Moved(q, s)
  {
  }

  lemma {:induction false} TraceMoves(q: QueueState, atoms: seq<Atom>)
    requires Inv(q) && Trace(q, atoms) && forall a :: a in atoms ==> MovesOnly(a)
    ensures Moved(q, After(q, atoms)) && Inv(After(q, atoms))
    decreases |atoms|
  {
    hide Apply, Enabled, OrderOf, SpotsTracked, Ordered, Justified, MovesOnly;
    if atoms != [] {
      hide Moved;
      AtomMoves(q, atoms[0]);
      AtomKeepsInv(q, atoms[0]);
      TraceMoves(Apply(q, atoms[0]), atoms[1..]);
      MovedTrans(q, Apply(q, atoms[0]), After(q, atoms));
    }
  }

  lemma TryPromoteMoves(q: QueueState)
    requires Inv(q)
    ensures Moved(q, TryPromote(q)) && Inv(TryPromote(q))
  {
    hide TryPromote, Trace, After, SpotsTracked, Ordered, Justified, Moved, OrderOf;
    NoAtoms(q);
    var atoms := TryPromoteTrace(q, []);
    TraceMoves(q, atoms);
  }

  // -------------------------------------------------------------- invariant

  lemma MovedKeeps(q: QueueState, r: QueueState, phase: map<Ticket, Phase>, calls: seq<Call>)
    requires Moved(q, r)
    requires Placed(q.queue, q.running, q.nextId, phase) && LogMatches(q.log, q.running, calls)
    ensures Placed(r.queue, r.running, r.nextId, phase) && LogMatches(r.log, r.running, calls)
  {
    hide Logged;
  }

  lemma ArriveKeeps(c: Callers, k: Key, now: real)
    requires CallerInv(c)
    ensures CallerInv(Next(c, Arrive(k, now)))
  {
    hide TryPromote, OrderOf, SpotsTracked, Ordered, Justified, Count, Logged, Accounted, LogMatches, Inv, Moved, Placed;
    var q := c.q;
    assert Inv(q) && Wf(q) by {
      InvWf(q);
    }
    AtomKeepsInv(q, ARegister(k, now));
    var r := Register(q, k, now);
    AtomKeepsInv(r, AJoin(k));
    var j := Join(r, k);
    var t := Ticket(q.nextId, k);
    TryPromoteMoves(j);
    NewcomerPlaced(q.queue, q.running, q.nextId, c.phase, k);
    MovedKeeps(j, TryPromote(j), c.phase[t := Polling], c.calls);
    NewcomerAccounted(c.phase, c.calls, q.nextId, k, q.queue, q.running);
  }

  lemma NewcomerPlaced(queue: seq<Ticket>, running: seq<Ticket>, nextId: nat, phase: map<Ticket, Phase>, k: Key)
    requires Placed(queue, running, nextId, phase)
    ensures var t := Ticket(nextId, k);
      t !in phase && Placed(queue + [t], running, nextId + 1, phase[t := Polling])
  {
  }

  lemma NewcomerAccounted(phase: map<Ticket, Phase>, calls: seq<Call>, nextId: nat, k: Key,
      queue: seq<Ticket>, running: seq<Ticket>)
    requires Placed(queue, running, nextId, phase) && Accounted(phase, calls)
    ensures Accounted(phase[Ticket(nextId, k) := Polling], calls)
  {
    hide Mentions;
  }

  lemma OneMoreCall(phase: map<Ticket, Phase>, calls: seq<Call>, call: Call)
    requires Accounted(phase, calls) && call.ticket in phase && phase[call.ticket] != Over
    ensures Accounted(phase[call.ticket := Over], calls + [call])
    ensures forall x :: x in calls + [call] <==> x in calls || x == call
  {
    assert forall x :: x in calls ==> x.ticket != call.ticket;
    forall t | t in phase[call.ticket := Over] && phase[call.ticket := Over][t] == Over
      ensures Mentions(calls + [call], t) == 1
    {
      MentionsAppend(calls, call, t);
    }
  }

  lemma TakenOut(s: seq<Ticket>, i: nat)
    requires NoDup(s) && i < |s|
    ensures forall x :: x in RemoveAt(s, i) <==> x in s && x != s[i]
  {
    RemoveAtMembers(s, i);
  }

  /** A ticket leaves one of the two lists as its caller is done. */
  lemma OverPlaced(queue: seq<Ticket>, running: seq<Ticket>, nextId: nat, phase: map<Ticket, Phase>, t: Ticket,
      queue': seq<Ticket>, running': seq<Ticket>)
    requires Placed(queue, running, nextId, phase) && t in phase
    requires forall x :: x in queue' <==> x in queue && x != t
    requires forall x :: x in running' <==> x in running && x != t
    ensures Placed(queue', running', nextId, phase[t := Over])
  {
  }

  lemma FinishPlaced(q: QueueState, t: Ticket, phase: map<Ticket, Phase>, calls: seq<Call>)
    requires Inv(q) && t in q.running && Placed(q.queue, q.running, q.nextId, phase)
    requires LogMatches(q.log, q.running, calls)
    ensures var rest := RemoveAt(q.running, IndexOf(q.running, t));
      && Placed(q.queue, rest, q.nextId, phase[t := Over])
      && LogMatches(q.log, rest, calls + [Released(t)])
  {
    hide Books, SpotsTracked, Justified, Logged, InOrder, RemoveAt, Count;
    TakenOut(q.running, IndexOf(q.running, t));
    if t in q.queue {
      WaitingNotRunning(q, t);
    }
    OverPlaced(q.queue, q.running, q.nextId, phase, t, q.queue, RemoveAt(q.running, IndexOf(q.running, t)));
    assert forall x :: x in calls + [Released(t)] <==> x in calls || x == Released(t);
  }

  lemma ReleaseKeeps(c: Callers, t: Ticket, now: real)
    requires CallerInv(c) && t in c.phase && t in c.q.running
    ensures CallerInv(Answer(c, t, now))
  {
    hide TryPromote, OrderOf, SpotsTracked, Ordered, Justified, Count, Logged, Accounted, LogMatches, Moved;
    AtomKeepsInv(c.q, AFinish(t, now));
    var f := Finish(c.q, t, now);
    TryPromoteMoves(f);
    FinishPlaced(c.q, t, c.phase, c.calls);
    MovedKeeps(f, TryPromote(f), c.phase[t := Over], c.calls + [Released(t)]);
    OneMoreCall(c.phase, c.calls, Released(t));
  }

  lemma LeavePlaced(q: QueueState, t: Ticket, phase: map<Ticket, Phase>, calls: seq<Call>)
    requires Inv(q) && t in q.queue && Placed(q.queue, q.running, q.nextId, phase)
    requires LogMatches(q.log, q.running, calls)
    ensures Placed(RemoveAt(q.queue, IndexOf(q.queue, t)), q.running, q.nextId, phase[t := Over])
    ensures LogMatches(q.log, q.running, calls + [Abandoned(t)])
  {
    hide Books, SpotsTracked, Justified, Logged, RunningLogged, RemoveAt, Count;
    WaitingNotRunning(q, t);
    TakenOut(q.queue, IndexOf(q.queue, t));
    OverPlaced(q.queue, q.running, q.nextId, phase, t, RemoveAt(q.queue, IndexOf(q.queue, t)), q.running);
    assert forall x :: x in calls + [Abandoned(t)] <==> x in calls || x == Abandoned(t);
  }

  lemma AbandonKeeps(c: Callers, t: Ticket, now: real)
    requires CallerInv(c) && t in c.phase && t in c.q.queue && t !in c.q.running
    ensures CallerInv(Answer(c, t, now))
  {
    assert c.phase[t] != Over;
    hide OrderOf, SpotsTracked, Ordered, Justified, Count, Logged, Accounted, LogMatches, Placed, IndexOf;
    LeaveKeepsInv(c.q, t);
    LeavePlaced(c.q, t, c.phase, c.calls);
    OneMoreCall(c.phase, c.calls, Abandoned(t));
  }

  lemma AnswerKeeps(c: Callers, t: Ticket, now: real)
    requires CallerInv(c) && t in c.phase && (t in c.q.queue || t in c.q.running)
    ensures CallerInv(Answer(c, t, now))
  {
    hide Answer, CallerInv;
    if t in c.q.running {
      ReleaseKeeps(c, t, now);
    } else {
      AbandonKeeps(c, t, now);
    }
  }

  lemma BackgroundKeeps(c: Callers, ev: Event)
    requires CallerInv(c) && Possible(c, Background(ev))
    ensures CallerInv(Next(c, Background(ev)))
  {
    hide Step, Trace, After, OrderOf, SpotsTracked, Ordered, Justified, Logged, Accounted, LogMatches, Placed, Moved, Legal;
    var atoms := EventTrace(c.q, ev, multiset{});
    forall a | a in atoms
      ensures MovesOnly(a)
    {
      assert Within(c.q, ev, a);
    }
    TraceMoves(c.q, atoms);
    MovedKeeps(c.q, Step(c.q, ev), c.phase, c.calls);
  }

  /** The caller stays where it is and only looks again. */
  lemma RephaseKeeps(c: Callers, t: Ticket, p: Phase)
    requires CallerInv(c) && t in c.phase && c.phase[t] != Over && p != Over
    requires p == Forwarding ==> t in c.q.running
    requires p != Forwarding || t !in c.q.queue
    ensures CallerInv(c.(phase := c.phase[t := p]))
  {
    hide Inv, LogMatches, Mentions;
  }

  lemma NextKeeps(c: Callers, m: Move)
    requires CallerInv(c) && Possible(c, m)
    ensures CallerInv(Next(c, m))
  {
    hide Mentions, LogMatches, Release, Abandon, Admit, Step, OrderOf, SpotsTracked, Justified, Ordered, Count;
    match m
    case Arrive(k, now) => ArriveKeeps(c, k, now);
    case Background(ev) => BackgroundKeeps(c, ev);
    case CheckGo(t) =>
      if t in c.q.queue {
        WaitingNotRunning(c.q, t);
      }
      RephaseKeeps(c, t, if t in c.q.running then Forwarding else Probing);
    case Resume(t, hungUp, timedOut, now) =>
      if hungUp || timedOut {
        AnswerKeeps(c, t, now);
      } else {
        RephaseKeeps(c, t, Polling);
      }
    case Respond(t, now) => AnswerKeeps(c, t, now);
  }

  // --------------------------------------------------------------- theorems

  ghost predicate CallerRun(c: Callers, moves: seq<Move>)
    requires CallerInv(c)
    decreases |moves|
  {
    moves == [] ||
    (Possible(c, moves[0]) &&
     (NextKeeps(c, moves[0]);
      CallerRun(Next(c, moves[0]), moves[1..])))
  }

  ghost function CallerEnd(c: Callers, moves: seq<Move>): (r: Callers)
    requires CallerInv(c) && CallerRun(c, moves)
    ensures CallerInv(r)
    decreases |moves|
  {
    if moves == [] then c
    else
      NextKeeps(c, moves[0]);
      CallerEnd(Next(c, moves[0]), moves[1..])
  }

  lemma StartInv(cfg: Config)
    ensures CallerInv(Callers(Initial(cfg), map[], []))
  {
    InitialInv(cfg);
  }

  ghost predicate CallersStarted(cfg: Config, moves: seq<Move>) {
    StartInv(cfg);
    CallerRun(Callers(Initial(cfg), map[], []), moves)
  }

  ghost function CallersReached(cfg: Config, moves: seq<Move>): (c: Callers)
    requires CallersStarted(cfg, moves)
    ensures CallerInv(c)
  {
    StartInv(cfg);
    CallerEnd(Callers(Initial(cfg), map[], []), moves)
  }

  /** For every interleaving: a caller that is over made exactly one call, a release if and
      only if its request was promoted, an abandon if and only if it never was; a caller
      that is not over made none. */
  lemma ExactlyOnce(cfg: Config, moves: seq<Move>, t: Ticket)
    requires CallersStarted(cfg, moves)
    requires t in CallersReached(cfg, moves).phase
    ensures var c := CallersReached(cfg, moves);
      if c.phase[t] == Over then
        && Mentions(c.calls, t) == 1
        && (Released(t) in c.calls <==> Logged(c.q.log, t))
        && (Abandoned(t) in c.calls <==> !Logged(c.q.log, t))
      else Mentions(c.calls, t) == 0
  {
    hide Logged, CallersReached, CallersStarted, Inv;
    var c := CallersReached(cfg, moves);
    if c.phase[t] == Over {
      assert t !in c.q.running;
      var call :| call in c.calls && call.ticket == t;
      assert call == Released(t) || call == Abandoned(t);
      if Released(t) in c.calls && Abandoned(t) in c.calls {
        TwoMentions(c.calls, Released(t), Abandoned(t));
      }
    }
  }

  lemma {:induction false} TwoMentions(calls: seq<Call>, a: Call, b: Call)
    requires a in calls && b in calls && a != b && a.ticket == b.ticket
    ensures Mentions(calls, a.ticket) >= 2
  {
    if calls[0] != a && calls[0] != b {
      TwoMentions(calls[1..], a, b);
    } else {
      var other := if calls[0] == a then b else a;
      assert other in calls[1..];
    }
  }

  /** When every caller is over, nothing is left behind. */
  lemma NothingLeftBehind(cfg: Config, moves: seq<Move>)
    requires CallersStarted(cfg, moves)
    requires forall t :: t in CallersReached(cfg, moves).phase ==> CallersReached(cfg, moves).phase[t] == Over
    ensures var q := CallersReached(cfg, moves).q;
      && q.queue == [] && q.running == [] && q.inflightTotal == 0
      && forall k :: k in q.sessions ==> q.sessions[k].waiting == 0 && q.sessions[k].inflight == 0
  {
    hide CallersReached, CallersStarted, SpotsTracked, Ordered, Justified, OrderOf, Accounted, LogMatches;
    var q := CallersReached(cfg, moves).q;
    NoMembers(q.queue);
    NoMembers(q.running);
  }
}
