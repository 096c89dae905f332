/** The queue as the program has it: session objects reached from a dictionary, from queue
    entries and from running requests, all updated in place.

    Every method is proved to do to the abstract state View() what the function of the same
    name in QueueModel does, and to keep one session object per key.
 */
module EndpointQueues {
  import opened QueueModel
  import opened QueueSteps
  import opened QueueInvariants
  import opened QueueRuns
  import opened QueueTheorems

  class Session {
    const key: Key
    var lastRequestAt: real
    var inflight: int
    var waiting: int
    var spotHeld: bool
    var shared: Option<Key>
    var idleSince: Option<real>
    var status: Status
    var clientStatus: Option<Status>
    var clientStatusAt: real

    constructor (key: Key, now: real)
      ensures this.key == key
      ensures View() == SessionState(now, 0, 0, false, None, None, Busy, None, 0.0)
    {
      this.key := key;
      lastRequestAt, inflight, waiting, spotHeld, shared := now, 0, 0, false, None;
      idleSince, status, clientStatus, clientStatusAt := None, Busy, None, 0.0;
    }

    /** The session's part of a promotion. */
    method StartRequest(newSpot: bool)
      modifies this
      ensures View() == old(View()).(waiting := old(waiting) - 1, inflight := old(inflight) + 1, idleSince := None,
                                     spotHeld := newSpot || old(spotHeld), status := Busy)
    {
      waiting := waiting - 1;
      inflight := inflight + 1;
      idleSince := None;
      if newSpot {
        spotHeld := true;
      }
      status := Busy;
    }

    /** The session's part of a finished request. */
    method EndRequest(now: real)
      modifies this
      ensures View() == old(View()).(inflight := if old(inflight) > 0 then old(inflight) - 1 else old(inflight),
                                     lastRequestAt := now)
    {
      if inflight > 0 {
        inflight := inflight - 1;
      }
      lastRequestAt := now;
    }

    method Share(with: Option<Key>)
      modifies this`shared
      ensures View() == old(View()).(shared := with)
    {
      shared := with;
    }

    method Hear(status: Status, at: real)
      modifies this`clientStatus, this`clientStatusAt
      ensures View() == old(View()).(clientStatus := Some(status), clientStatusAt := at)
    {
      clientStatus, clientStatusAt := Some(status), at;
    }

    method Revive(now: real)
      modifies this`lastRequestAt, this`idleSince
      ensures View() == old(View()).(lastRequestAt := now, idleSince := None)
    {
      lastRequestAt, idleSince := now, None;
    }

    method StartWaiting()
      modifies this`waiting
      ensures View() == old(View()).(waiting := old(waiting) + 1)
    {
      waiting := waiting + 1;
    }

    /** The session's part of giving up a spot. */
    method Unspot()
      modifies this
      ensures View() == old(View()).(spotHeld := false, idleSince := None)
    {
      spotHeld, idleSince := false, None;
    }

    /** Applies a recomputed status and starts, keeps or stops the idle countdown. */
    method SetStatus(status: Status, now: real)
      modifies this
      ensures View() == old(View()).(status := status,
                                     idleSince := if status == Idle || status == Waiting
                                                  then (if old(idleSince).None? then Some(now) else old(idleSince))
                                                  else None)
    {
      this.status := status;
      if status == Idle || status == Waiting {
        if idleSince.None? {
          idleSince := Some(now);
        }
      } else {
        idleSince := None;
      }
    }

    ghost function View(): SessionState
      reads this
    {
      SessionState(lastRequestAt, inflight, waiting, spotHeld, shared, idleSince, status, clientStatus, clientStatusAt)
    }
  }

  class QueueEntry {
    const session: Session
    ghost const id: nat
    var done: bool             // promoted; `go` is set at the same moment

    constructor (session: Session, ghost id: nat)
      ensures this.session == session && this.id == id && !done
    {
      this.session, this.id, done := session, id, false;
    }

    ghost function View(): Ticket {
      Ticket(id, session.key)
    }
  }

  ghost function Tickets(s: seq<QueueEntry>): (r: seq<Ticket>)
    ensures |r| == |s| && forall i :: 0 <= i < |s| ==> r[i] == s[i].View()
  {
    seq(|s|, i requires 0 <= i < |s| => s[i].View())
  }

  lemma TicketsRemoveAt(s: seq<QueueEntry>, i: nat)
    requires i < |s|
    ensures Tickets(RemoveAt(s, i)) == RemoveAt(Tickets(s), i)
  {
  }

  lemma TicketsAppend(s: seq<QueueEntry>, e: QueueEntry)
    ensures Tickets(s + [e]) == Tickets(s) + [e.View()]
  {
  }

  ghost function Entries(s: seq<QueueEntry>): set<QueueEntry> {
    set e | e in s
  }

  /** Moving an entry from one list to the other keeps the set of entries. */
  lemma MoveKeepsEntries(a: seq<QueueEntry>, i: nat, b: seq<QueueEntry>)
    requires i < |a|
    ensures Entries(RemoveAt(a, i)) + Entries(b + [a[i]]) == Entries(a) + Entries(b)
  {
    RemoveAtMembers(a, i);
  }

  ghost function Views(sessions: map<Key, Session>): map<Key, SessionState>
    reads sessions.Values
  {
    map k | k in sessions :: sessions[k].View()
  }

  lemma ViewsAdd(sessions: map<Key, Session>, s: Session)
    requires s.key !in sessions
    ensures Views(sessions[s.key := s]) == Views(sessions)[s.key := s.View()]
  {
  }

  ghost predicate Keyed(sessions: map<Key, Session>) {
    forall k :: k in sessions ==> sessions[k].key == k
  }

  /** The entries hold the dictionary's session objects, and have been promoted or not. */
  ghost predicate Attached(entries: seq<QueueEntry>, sessions: map<Key, Session>, done: bool)
    reads entries
  {
    forall e :: e in entries ==> e.session.key in sessions && sessions[e.session.key] == e.session && e.done == done
  }

  lemma AttachedRemoveAt(entries: seq<QueueEntry>, i: nat, sessions: map<Key, Session>, done: bool)
    requires i < |entries| && Attached(entries, sessions, done)
    ensures Attached(RemoveAt(entries, i), sessions, done)
  {
    RemoveAtMembers(entries, i);
  }

  lemma AttachedAppend(entries: seq<QueueEntry>, e: QueueEntry, sessions: map<Key, Session>, done: bool)
    requires Attached(entries, sessions, done) && Attached([e], sessions, done)
    ensures Attached(entries + [e], sessions, done)
  {
    assert e in [e];
  }

  lemma AttachedAdd(entries: seq<QueueEntry>, sessions: map<Key, Session>, s: Session, done: bool)
    requires s.key !in sessions && Attached(entries, sessions, done)
    ensures Attached(entries, sessions[s.key := s], done)
  {
  }

  lemma AttachedDrop(entries: seq<QueueEntry>, key: Key, sessions: map<Key, Session>, done: bool)
    requires Attached(entries, sessions, done)
    requires forall i :: 0 <= i < |entries| ==> entries[i].session.key != key
    ensures Attached(entries, sessions - {key}, done)
  {
  }

  lemma ViewsDrop(sessions: map<Key, Session>, key: Key)
    ensures Views(sessions - {key}) == Views(sessions) - {key}
  {
  }

  class EndpointQueue {
    const cfg: Config
    var ready: bool
    var sessions: map<Key, Session>
    var order: seq<Key>
    var spots: set<Key>
    var queue: seq<QueueEntry>
    var inflightTotal: int
    ghost var running: seq<QueueEntry>
    ghost var nextId: nat
    ghost var log: seq<Promotion>

    constructor (maxSpots: int, cap: int, busyWindow: real, expiry: real, atomic: bool, immediateIdle: bool)
      ensures Valid() && fresh(Repr())
      ensures View() == Initial(Config(if maxSpots >= 1 then maxSpots else 1, cap, busyWindow, expiry, atomic, immediateIdle))
    {
      cfg := Config(if maxSpots >= 1 then maxSpots else 1, cap, busyWindow, expiry, atomic, immediateIdle);
      ready, sessions, order, spots, queue, inflightTotal := false, map[], [], {}, [], 0;
      running, nextId, log := [], 0, [];
      new;
      InitialInv(cfg);
    }

    ghost function View(): QueueState
      reads this, sessions.Values
    {
      QueueState(cfg, ready, Views(sessions), order, spots, Tickets(queue), inflightTotal,
                 Tickets(running), nextId, log)
    }

    ghost function Repr(): set<object>
      reads this
    {
      {this} + sessions.Values + (Entries(queue) + Entries(running))
    }

    /** The session object is the dictionary's. */
    ghost predicate Owns(s: Session)
      reads this
    {
      s.key in sessions && sessions[s.key] == s
    }

    /** One session object per key: the dictionary's is the one of every live entry. */
    ghost predicate Linked()
      reads this, queue, running
    {
      Keyed(sessions) && Attached(queue, sessions, false) && Attached(running, sessions, true)
    }

    ghost predicate Valid()
      reads this, sessions.Values, queue, running
    {
      Linked() && Inv(View())
    }

    // ------------------------------------------------------------ promotion

    function SpotKeyOf(s: Session): (r: Option<Key>)
      requires Owns(s)
      reads this, s, sessions.Values
      ensures r == SpotKey(View(), s.key)
    {
      if s.key in spots then Some(s.key)
      else if s.shared.Some? && s.shared.value in spots then s.shared
      else None
    }

    predicate CanRun(e: QueueEntry)
      requires Owns(e.session)
      reads this, e.session, sessions.Values
      ensures CanRun(e) <==> Eligible(View(), e.session.key)
      ensures CanRun(e) <==> !HeldBack(View(), e.session.key)
    {
      if cfg.atomic && inflightTotal > 0 then false
      else if SpotKeyOf(e.session).Some? then cfg.cap < 0 || e.session.inflight < cfg.cap
      else |spots| < cfg.maxSpots
    }

    /** Front-to-back scan for the first entry that may run. */
    method NextTarget() returns (i: nat)
      requires Valid()
      ensures i == FirstEligible(View(), 0)
    {
      i := 0;
      while i < |queue| && !CanRun(queue[i])
        invariant i <= |queue|
        invariant FirstEligible(View(), i) == FirstEligible(View(), 0)
      {
        assert Tickets(queue)[i] == queue[i].View();
        i := i + 1;
      }
      if i < |queue| {
        assert Tickets(queue)[i] == queue[i].View();
      }
    }

    /** What Inv(View()) says about the entry objects. */
    lemma EntryFacts(i: nat)
      requires Valid() && i < |queue|
      ensures Wf(View()) && View().queue[i] == queue[i].View() && Owns(queue[i].session)
      ensures forall j :: 0 <= j < |queue| && j != i ==> queue[j] != queue[i]
    {
      hide Books, SpotsTracked, Justified, RunningLogged;
      InvWf(View());
      forall j | 0 <= j < |queue| && j != i
        ensures queue[j] != queue[i]
      {
        assert View().queue[j].id != View().queue[i].id;
      }
    }

    /** The entry at position i leaves the queue and runs. */
    method Transfer(i: nat, newSpot: bool, ghost record: Promotion)
      requires i < |queue|
      modifies this, queue[i], queue[i].session
      ensures queue == RemoveAt(old(queue), i) && running == old(running) + [old(queue)[i]]
      ensures log == old(log) + [record] && inflightTotal == old(inflightTotal) + 1
      ensures spots == (if newSpot then old(spots) + {old(queue)[i].session.key} else old(spots))
      ensures ready == old(ready) && sessions == old(sessions) && order == old(order) && nextId == old(nextId)
      ensures old(queue)[i].done
      ensures var s := old(queue)[i].session;
        s.View() == old(s.View()).(waiting := old(s.waiting) - 1, inflight := old(s.inflight) + 1, idleSince := None,
                                   spotHeld := newSpot || old(s.spotHeld), status := Busy)
    {
      var target := queue[i];
      queue := RemoveAt(queue, i);
      running, log := running + [target], log + [record];
      inflightTotal := inflightTotal + 1;
      if newSpot {
        spots := spots + {target.session.key};
      }
      target.done := true;
      target.session.StartRequest(newSpot);
    }

    method Promote(i: nat)
      requires Valid() && ready && i < |queue| && i == FirstEligible(View(), 0)
      modifies this, queue[i], queue[i].session
      ensures View() == PromoteAt(old(View()), i)
      ensures Valid()
      ensures ready && sessions == old(sessions) && Repr() == old(Repr())
    {
      hide Inv, Wf, Eligible, FirstEligible, Overtaken, RemoveAt;
      ghost var before := View();
      EntryFacts(i);
      assert Inv(PromoteAt(before, i)) by {
        PromoteKeepsInv(before);
      }
      var session := queue[i].session;
      assert queue[i] !in RemoveAt(queue, i) by {
        RemoveAtMembers(queue, i);
      }
      var newSpot := SpotKeyOf(session).None?;
      Transfer(i, newSpot, Promotion(queue[i].View(), newSpot, Overtaken(before, i)));
      assert View() == PromoteAt(before, i) by {
        TicketsRemoveAt(old(queue), i);
        TicketsAppend(old(running), old(queue)[i]);
        assert Views(sessions) == before.sessions[session.key := session.View()];
      }
      assert Linked() by {
        RemoveAtMembers(old(queue), i);
      }
      assert Repr() == old(Repr()) by {
        MoveKeepsEntries(old(queue), i, old(running));
      }
    }

    lemma InRepr(i: nat)
      requires Linked() && i < |queue|
      ensures this in Repr() && queue[i] in Repr() && queue[i].session in Repr()
    {
      assert Owns(queue[i].session);
    }

    /** One round of the promotion loop: scan from the front, promote what is found. */
    method PromoteFirst() returns (found: bool)
      requires Valid() && ready
      modifies Repr()
      ensures Valid() && ready && sessions == old(sessions) && Repr() == old(Repr())
      ensures Wf(old(View())) && Wf(View()) && PromoteLoop(View()) == PromoteLoop(old(View()))
      ensures if found then |queue| < |old(queue)| else PromoteLoop(View()) == View()
    {
      hide Inv, Linked, PromoteAt, Eligible, Views, Tickets, Repr, Wf;
      InvWf(View());
      var i := NextTarget();
      found := i < |queue|;
      if found {
        InRepr(i);
        Promote(i);
        InvWf(View());
      }
    }

    /** Restart the scan from the front after every promotion. */
    method TryPromote()
      requires Valid()
      modifies Repr()
      ensures View() == QueueModel.TryPromote(old(View()))
      ensures Valid()
      ensures sessions == old(sessions) && Repr() == old(Repr()) && ready == old(ready)
    {
      hide Inv, Linked, Wf, PromoteLoop, Views, Tickets, Repr;
      InvWf(View());
      if !ready {
        return;
      }
      var found := true;
      while found
        invariant Valid() && ready && Wf(View())
        invariant sessions == old(sessions) && Repr() == old(Repr())
        invariant PromoteLoop(View()) == PromoteLoop(old(View()))
        invariant found || PromoteLoop(View()) == View()
        decreases found, |queue|
      {
        found := PromoteFirst();
      }
    }

    // -------------------------------------------------- sessions and requests

    /** A new request revives a session that was in its idle countdown. */
    method GetOrCreateSession(key: Key, now: real) returns (session: Session)
      requires Valid()
      modifies this, sessions.Values
      ensures View() == Register(old(View()), key, now)
      ensures Valid()
      ensures Owns(session) && session.key == key
      ensures key in old(sessions) ==> session == old(sessions)[key]
      ensures key !in old(sessions) ==> fresh(session)
      ensures sessions == old(sessions)[key := session] && queue == old(queue) && running == old(running)
    {
      hide Inv, Linked;
      InvWf(View());
      RegisterKeepsInv(View(), key, now);
      if key in sessions {
        LinkedSession(key);
        session := sessions[key];
        ReviveSession(session, now);
      } else {
        session := AddSession(key, now);
      }
    }

    lemma LinkedSession(key: Key)
      requires Linked() && key in sessions
      ensures Owns(sessions[key]) && sessions[key].key == key
    {
    }

    method ReviveSession(session: Session, now: real)
      requires Linked() && Owns(session) && Wf(View())
      modifies session
      ensures View() == Register(old(View()), session.key, now)
      ensures Linked()
    {
      hide Wf;
      session.Revive(now);
      assert Views(sessions) == old(Views(sessions))[session.key := session.View()];
    }

    method AddSession(key: Key, now: real) returns (session: Session)
      requires Linked() && key !in sessions && Wf(View())
      modifies this`sessions, this`order
      ensures View() == Register(old(View()), key, now)
      ensures Linked()
      ensures fresh(session) && session.key == key && Owns(session)
      ensures sessions == old(sessions)[key := session] && queue == old(queue) && running == old(running)
    {
      hide Wf, Count;
      session := new Session(key, now);
      ViewsAdd(sessions, session);
      AttachedAdd(queue, sessions, session, false);
      AttachedAdd(running, sessions, session, true);
      assert Views(sessions) == old(Views(sessions));
      hide Attached, Tickets, Views;
      sessions, order := sessions[key := session], order + [key];
    }

    method JoinQueue(entry: QueueEntry)
      requires Linked() && Wf(View()) && Owns(entry.session) && entry.id == nextId && !entry.done
      modifies this`queue, this`nextId, entry.session`waiting
      ensures View() == Join(old(View()), entry.session.key)
      ensures Linked()
      ensures sessions == old(sessions) && queue == old(queue) + [entry] && running == old(running)
    {
      hide Wf, Count;
      var session := entry.session;
      TicketsAppend(queue, entry);
      AttachedAppend(queue, entry, sessions, false);
      hide Attached, Tickets;
      queue, nextId := queue + [entry], nextId + 1;
      session.StartWaiting();
      assert Views(sessions) == old(Views(sessions))[session.key := session.View()];
    }

    method Enqueue(entry: QueueEntry)
      requires Valid() && Owns(entry.session) && entry.id == nextId && !entry.done
      modifies Repr(), entry
      ensures View() == QueueModel.Enqueue(old(View()), entry.session.key)
      ensures Valid()
      ensures sessions == old(sessions) && Repr() == old(Repr()) + {entry}
    {
      hide Inv, Linked, Wf;
      InvWf(View());
      JoinKeepsInv(View(), entry.session.key);
      assert entry.session in Repr();
      JoinQueue(entry);
      assert Entries(queue) == old(Entries(queue)) + {entry};
      TryPromote();
    }

    /** The only entry with its ticket, in either list. */
    lemma UniqueTicket(entry: QueueEntry)
      requires Valid()
      ensures entry in queue ==>
                entry.View() in View().queue && Owns(entry.session)
                && IndexOf(View().queue, entry.View()) == IndexOf(queue, entry)
      ensures entry in running ==>
                entry.View() in View().running && Owns(entry.session)
                && IndexOf(View().running, entry.View()) == IndexOf(running, entry)
      ensures entry in queue ==> !entry.done && entry.View() !in View().running
      ensures entry in running ==> entry.done
    {
      hide Books, SpotsTracked, Justified, Logged;
      if entry in queue {
        var i := IndexOf(queue, entry);
        assert View().queue[i] == entry.View();
        assert forall j :: 0 <= j < i ==> View().queue[j].id != entry.View().id;
        WaitingNotRunning(View(), entry.View());
      }
      if entry in running {
        var i := IndexOf(running, entry);
        assert View().running[i] == entry.View();
        assert forall j :: 0 <= j < i ==> View().running[j] != entry.View();
      }
    }

    method LeaveQueue(i: nat)
      requires Linked() && Wf(View()) && i < |queue|
      requires queue[i].View() in View().queue && IndexOf(View().queue, queue[i].View()) == i
      modifies this`queue, queue[i].session`waiting
      ensures View() == Leave(old(View()), old(queue)[i].View())
      ensures Linked()
      ensures sessions == old(sessions) && queue == RemoveAt(old(queue), i) && running == old(running)
    {
      hide Wf, IndexOf, RemoveAt, Count;
      var session := queue[i].session;
      assert Owns(session);
      TicketsRemoveAt(queue, i);
      AttachedRemoveAt(queue, i, sessions, false);
      hide Attached, Tickets;
      queue := RemoveAt(queue, i);
      session.waiting := Max(0, session.waiting - 1);
      assert Views(sessions) == old(Views(sessions))[session.key := session.View()];
    }

    /** Drops a waiting entry; a promoted one is left for its caller to release. */
    method Abandon(entry: QueueEntry)
      requires Valid() && (entry in queue || entry in running)
      modifies this, entry.session
      ensures Wf(old(View())) && (entry.View() in old(View()).queue || entry.View() in old(View()).running)
      ensures View() == QueueModel.Abandon(old(View()), entry.View())
      ensures Valid() && sessions == old(sessions) && Repr() <= old(Repr())
    {
      hide Inv, Linked, Wf, Leave, IndexOf;
      InvWf(View());
      UniqueTicket(entry);
      if entry.done {
        return;
      }
      LeaveKeepsInv(View(), entry.View());
      var i := 0;
      while queue[i] != entry
        invariant i <= IndexOf(queue, entry)
        decreases IndexOf(queue, entry) - i
      {
        i := i + 1;
      }
      RemoveAtMembers(queue, i);
      LeaveQueue(i);
    }

    /** The queue's own part of a finished request. */
    method StopTracking(entry: QueueEntry, ghost i: nat)
      requires Attached(running, sessions, true) && i < |running|
      modifies this`running, this`inflightTotal
      ensures running == RemoveAt(old(running), i) && Attached(running, sessions, true)
      ensures Tickets(running) == RemoveAt(old(Tickets(running)), i)
      ensures inflightTotal == if entry.session.inflight > 0 then Max(0, old(inflightTotal) - 1) else old(inflightTotal)
    {
      TicketsRemoveAt(running, i);
      AttachedRemoveAt(running, i, sessions, true);
      hide Attached, Tickets, RemoveAt;
      running := RemoveAt(running, i);
      inflightTotal := if entry.session.inflight > 0 then Max(0, inflightTotal - 1) else inflightTotal;
    }

    method FinishEntry(entry: QueueEntry, now: real, ghost i: nat)
      requires Linked() && Wf(View()) && i < |running| && running[i] == entry
      requires entry.View() in View().running && IndexOf(View().running, entry.View()) == i
      modifies this`running, this`inflightTotal, entry.session
      ensures View() == Finish(old(View()), entry.View(), now)
      ensures Linked()
      ensures sessions == old(sessions) && queue == old(queue) && running == RemoveAt(old(running), i)
    {
      hide Wf, IndexOf, RemoveAt, Count;
      assert Owns(entry.session);
      StopTracking(entry, i);
      hide Attached, Tickets;
      entry.session.EndRequest(now);
      assert Views(sessions) == old(Views(sessions))[entry.session.key := entry.session.View()];
    }

    /** Called exactly once when a promoted request finishes. */
    method Release(entry: QueueEntry, now: real)
      requires Valid() && entry in running
      modifies Repr()
      ensures Wf(old(View())) && entry.View() in old(View()).running && entry.session.key in old(View()).sessions
      ensures View() == QueueModel.Release(old(View()), entry.View(), now)
      ensures Valid() && sessions == old(sessions) && Repr() <= old(Repr())
    {
      hide Inv, Linked, Wf, Finish, IndexOf;
      InvWf(View());
      UniqueTicket(entry);
      assert entry.session in Repr();
      FinishKeepsInv(View(), entry.View(), now);
      RemoveAtMembers(running, IndexOf(running, entry));
      FinishEntry(entry, now, IndexOf(running, entry));
      TryPromote();
    }

    // --------------------------------------------------- spots, status, ticks

    lemma NoneWaiting(key: Key)
      requires Linked() && Wf(View()) && key in sessions && sessions[key].waiting == 0
      ensures forall i :: 0 <= i < |queue| ==> queue[i].session.key != key
    {
      assert View().sessions[key].waiting == Count(View().queue, key);
      assert forall i :: 0 <= i < |queue| ==> View().queue[i] in View().queue;
    }

    method DropSession(key: Key)
      requires Linked() && Wf(View()) && key in sessions
      requires sessions[key].waiting == 0
      requires forall i :: 0 <= i < |running| ==> running[i].session.key != key
      modifies this`sessions, this`order
      ensures View() == Forget(old(View()), key)
      ensures Linked()
      ensures sessions == old(sessions) - {key}
    {
      hide Count, Wf;
      NoneWaiting(key);
      AttachedDrop(queue, key, sessions, false);
      AttachedDrop(running, key, sessions, true);
      ViewsDrop(sessions, key);
      hide Attached, Views, Tickets;
      sessions, order := sessions - {key}, WithoutKey(order, key);
    }

    /** The spot itself; the record goes too once it has no requests at all. */
    method FreeSpot(session: Session)
      requires Valid() && Owns(session) && session.spotHeld
      modifies this, session
      ensures Wf(old(View())) && session.key in old(View()).sessions
      ensures View() == Surrender(old(View()), session.key)
      ensures Linked() && queue == old(queue) && running == old(running)
      ensures sessions == old(sessions) || sessions == old(sessions) - {session.key}
      ensures old(session.waiting) != 0 || old(session.inflight) != 0 ==> sessions == old(sessions)
    {
      hide Inv, Wf, Forget;
      InvWf(View());
      NoneRunning(session.key);
      spots := spots - {session.key};
      session.Unspot();
      assert Views(sessions) == old(Views(sessions))[session.key := session.View()];
      SurrenderedWf(old(View()), session.key);
      if session.waiting == 0 && session.inflight == 0 {
        DropSession(session.key);
      }
    }

    lemma NoneRunning(key: Key)
      requires Valid() && key in sessions
      ensures sessions[key].inflight == 0 ==> forall i :: 0 <= i < |running| ==> running[i].session.key != key
      ensures sessions[key].inflight >= 0
    {
      hide SpotsTracked, Ordered, Justified, OrderOf, Wf;
      assert View().sessions[key].inflight == Count(View().running, key);
      assert forall i :: 0 <= i < |running| ==> View().running[i] in View().running;
    }

    lemma SurrenderedWf(q: QueueState, k: Key)
      requires Wf(q) && k in q.sessions
      ensures Wf(q.(spots := q.spots - {k},
                    sessions := q.sessions[k := q.sessions[k].(spotHeld := false, idleSince := None)]))
    {
      hide Count;
    }

    method ReleaseSpot(session: Session)
      requires Valid() && Owns(session) && session.spotHeld
      modifies Repr()
      ensures Wf(old(View())) && session.key in old(View()).sessions
      ensures View() == QueueModel.ReleaseSpot(old(View()), session.key)
      ensures Valid() && Repr() <= old(Repr())
      ensures sessions == old(sessions) || sessions == old(sessions) - {session.key}
    {
      hide Inv, Linked, Wf, Surrender, Tickets;
      InvWf(View());
      SurrenderKeepsInv(View(), session.key);
      assert session in Repr();
      FreeSpot(session);
      assert sessions.Values <= old(sessions).Values;
      TryPromote();
    }

    /** Surrenders a session's spot by hand; true when a spot was released. */
    method ReleaseSession(key: Key) returns (released: bool)
      requires Valid()
      modifies Repr()
      ensures Wf(old(View()))
      ensures View() == QueueModel.ReleaseSession(old(View()), key)
      ensures released == HoldsSpot(old(View()), key)
      ensures Valid() && Repr() <= old(Repr())
    {
      hide Inv, Linked, Wf, QueueModel.ReleaseSpot;
      InvWf(View());
      if key !in sessions || !sessions[key].spotHeld {
        return false;
      }
      LinkedSession(key);
      ReleaseSpot(sessions[key]);
      return true;
    }

    function CurrentStatusOf(s: Session, now: real): (r: Status)
      reads s
      ensures r == CurrentStatus(cfg, s.key, s.View(), now)
    {
      if s.inflight > 0 then Busy
      else if s.key.client != "unknown" then
        if s.clientStatus.Some? && now - s.clientStatusAt < STATUS_UNREACHABLE_GRACE then s.clientStatus.value
        else Idle
      else if now - s.lastRequestAt < cfg.busyWindow then Busy
      else Idle
    }

    predicate HasFreshReport(s: Session, now: real)
      reads s
      ensures HasFreshReport(s, now) <==> FreshReport(s.View(), now)
    {
      s.clientStatus.Some? && s.clientStatusAt > 0.0 && now - s.clientStatusAt < STATUS_UNREACHABLE_GRACE
    }

    function ReleaseDeadlineOf(s: Session, now: real): (r: Option<real>)
      reads s
      ensures r == ReleaseDeadline(cfg, s.key, s.View(), now)
    {
      if s.inflight > 0 then None
      else if s.key.client != "unknown" then
        if s.status !in {Idle, Waiting} || s.idleSince.None? then None
        else if s.status == Waiting then
          if HasFreshReport(s, now) then s.idleSince else Some(s.idleSince.value + cfg.expiry)
        else if cfg.immediateIdle && s.clientStatus == Some(Idle) && HasFreshReport(s, now)
                && s.clientStatusAt > s.lastRequestAt
        then s.idleSince
        else Some(s.idleSince.value + cfg.expiry)
      else Some(s.lastRequestAt + if cfg.busyWindow >= cfg.expiry then cfg.busyWindow else cfg.expiry)
    }

    /** The status part of a session's turn in a tick. */
    method RefreshSession(s: Session, now: real)
      requires Linked() && Owns(s) && Wf(View())
      modifies s
      ensures View() == Refresh(old(View()), s.key, now)
      ensures Linked()
      ensures s.inflight > 0 ==> s.status.Busy?
      ensures s.inflight <= 0 && s.key.client != "unknown" ==>
                if s.clientStatus.Some? && now - s.clientStatusAt < 30.0 then Some(s.status) == s.clientStatus
                else s.status.Idle?
      ensures s.inflight <= 0 && s.key.client == "unknown" ==>
                s.status == if now < s.lastRequestAt + cfg.busyWindow then Busy else Idle
      ensures s.idleSince == if s.status.Busy? || s.status.Retry? then None
                             else if old(s.idleSince).Some? then old(s.idleSince) else Some(now)
    {
      hide Wf, Count, Tickets, Attached;
      s.SetStatus(CurrentStatusOf(s, now), now);
      assert Views(sessions) == old(Views(sessions))[s.key := s.View()];
    }

    /** A session's whole turn in a tick; true when its spot was freed. */
    method TickSession(s: Session, now: real) returns (freed: bool)
      requires Valid() && Owns(s)
      modifies Repr()
      ensures Wf(old(View())) && s.key in old(View()).sessions
      ensures View() == TickOne(old(View()), s.key, now)
      ensures freed == TickFrees(old(View()), s.key, now)
      ensures Valid() && Repr() <= old(Repr())
      ensures sessions == old(sessions) || sessions == old(sessions) - {s.key}
    {
      hide Inv, Linked, Wf, QueueModel.ReleaseSpot, Refreshed, ReleaseDeadline, Forget, Tickets;
      InvWf(View());
      RefreshKeepsInv(View(), s.key, now);
      RefreshedCounters(cfg, s.key, s.View(), now);
      assert s in Repr();
      RefreshSession(s, now);
      if s.spotHeld {
        var deadline := ReleaseDeadlineOf(s, now);
        freed := deadline.Some? && now >= deadline.value;
        if freed {
          ReleaseSpot(s);
        }
      } else {
        freed := false;
        if s.waiting == 0 && s.inflight == 0 {
          ForgetKeepsInv(View(), s.key);
          NoneRunning(s.key);
          DropSession(s.key);
        }
      }
    }

    /** The whole result is what is released so far followed by the rest of the loop. */
    static ghost predicate Resumes(whole: (QueueState, seq<Key>), released: seq<Key>, rest: (QueueState, seq<Key>)) {
      whole.0 == rest.0 && whole.1 == released + rest.1
    }

    static lemma ResumesTrans(whole: (QueueState, seq<Key>), a: seq<Key>, mid: (QueueState, seq<Key>), b: seq<Key>,
        rest: (QueueState, seq<Key>))
      requires Resumes(whole, a, mid) && Resumes(mid, b, rest)
      ensures Resumes(whole, a + b, rest)
      ensures b == [] ==> a + b == a
    {
    }

    static lemma ResumesStart(whole: (QueueState, seq<Key>))
      ensures Resumes(whole, [], whole)
    {
    }

    static lemma ResumesEnd(whole: (QueueState, seq<Key>), released: seq<Key>, q: QueueState)
      requires Resumes(whole, released, (q, []))
      ensures whole.0 == q && whole.1 == released
    {
    }

    static lemma TickOverCons(q: QueueState, k: Key, rest: seq<Key>, now: real)
      requires Wf(q) && NoDup([k] + rest) && forall x :: x in [k] + rest ==> x in q.sessions
      ensures k in q.sessions && NoDup(rest) && k !in rest
      ensures forall x :: x in rest ==> x in TickOne(q, k, now).sessions && x in q.sessions
      ensures Resumes(TickOver(q, [k] + rest, now), if TickFrees(q, k, now) then [k] else [],
                      TickOver(TickOne(q, k, now), rest, now))
    {
      hide TickOne, TickFrees, Wf;
      assert k in [k] + rest;
      assert ([k] + rest)[1..] == rest;
      assert forall x :: x in rest ==> x in [k] + rest;
      assert forall i :: 0 <= i < |rest| ==> rest[i] == ([k] + rest)[i + 1] && ([k] + rest)[0] != rest[i];
    }

    static lemma TickOverNil(q: QueueState, now: real)
      requires Wf(q)
      ensures TickOver(q, [], now) == (q, [])
    {
    }

    lemma OrderedKeys(q: QueueState)
      requires OrderOf(q)
      ensures NoDup(q.order) && forall k :: k in q.order ==> k in q.sessions
    {
    }

    /** Recomputes statuses, surrenders expired spots, drops dead records; the freed keys. */
    method Tick(now: real) returns (released: seq<Key>)
      requires Valid()
      modifies Repr()
      ensures Wf(old(View())) && OrderOf(old(View()))
      ensures View() == QueueModel.Tick(old(View()), now).0
      ensures released == QueueModel.Tick(old(View()), now).1
      ensures Valid() && Repr() <= old(Repr())
    {
      hide Inv, Linked, Wf, TickOne, TickFrees, TickOver, Tickets, Repr, OrderOf, Resumes;
      InvWf(View());
      InvOrder(View());
      OrderedKeys(View());
      ghost var before := View();
      var keys, snapshot := order, sessions;
      released := [];
      var i := 0;
      assert keys[0..] == keys;
      ResumesStart(TickOver(before, keys, now));
      while i < |keys|
        invariant 0 <= i <= |keys| && Valid() && Wf(View()) && Repr() <= old(Repr())
        invariant NoDup(keys[i..]) && forall k :: k in keys[i..] ==> k in sessions
        invariant forall k :: k in keys ==> k in snapshot
        invariant forall k :: k in keys[i..] ==> sessions[k] == snapshot[k]
        invariant Resumes(TickOver(before, keys, now), released, TickOver(View(), keys[i..], now))
      {
        var key := keys[i];
        assert keys[i..] == [key] + keys[i + 1..];
        LinkedSession(key);
        TickOverCons(View(), key, keys[i + 1..], now);
        var session := snapshot[key];
        ghost var mid := TickOver(View(), keys[i..], now);
        var freed := TickSession(session, now);
        InvWf(View());
        ResumesTrans(TickOver(before, keys, now), released, mid, if freed then [key] else [],
                     TickOver(View(), keys[i + 1..], now));
        if freed {
          released := released + [key];
        }
        i := i + 1;
      }
      assert keys[i..] == [];
      TickOverNil(View(), now);
      ResumesEnd(TickOver(before, keys, now), released, View());
    }

    method HasActivity() returns (active: bool)
      ensures active <==> QueueModel.HasActivity(View())
      ensures active <==> (queue != [] || spots != {})
    {
      active := |queue| > 0 || spots != {};
    }

    // ------------------------------------ writes by the probe and the poller

    method SetReady(on: bool)
      requires Valid()
      modifies this`ready
      ensures Wf(old(View())) && View() == QueueModel.SetReady(old(View()), on)
      ensures Valid() && Repr() == old(Repr())
    {
      hide Inv, Wf;
      InvWf(View());
      AnyReadyKeepsInv(View(), on);
      ready := on;
    }

    method SetShared(s: Session, with: Option<Key>)
      requires Valid() && Owns(s)
      modifies s`shared
      ensures Wf(old(View())) && s.key in old(View()).sessions
      ensures View() == QueueModel.SetShared(old(View()), s.key, with)
      ensures Valid() && Repr() == old(Repr())
    {
      hide Inv, Wf;
      InvWf(View());
      ShareKeepsInv(View(), s.key, with);
      s.Share(with);
      assert Views(sessions) == old(Views(sessions))[s.key := s.View()];
    }

    method ApplyReport(s: Session, status: Status, at: real)
      requires Valid() && Owns(s)
      modifies s`clientStatus, s`clientStatusAt
      ensures Wf(old(View())) && s.key in old(View()).sessions
      ensures View() == Report(old(View()), s.key, status, at)
      ensures Valid() && Repr() == old(Repr())
    {
      hide Inv, Wf;
      InvWf(View());
      ReportKeepsInv(View(), s.key, status, at);
      s.Hear(status, at);
      assert Views(sessions) == old(Views(sessions))[s.key := s.View()];
    }
  }
}
