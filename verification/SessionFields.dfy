/** Where the fields of a session come from: each is the latest thing said about it. */
module SessionFields {
  import opened QueueModel
  import opened QueueSteps
  import opened QueueInvariants
  import opened QueueRuns

  /** What requests, reports and the poller write, and nothing else does. */
  predicate SameWritten(a: SessionState, b: SessionState) {
    && a.lastRequestAt == b.lastRequestAt
    && a.clientStatus == b.clientStatus && a.clientStatusAt == b.clientStatusAt
    && a.shared == b.shared
  }

  predicate WritesTo(a: Atom, k: Key) {
    match a
    case ARegister(x, _) => x == k
    case AFinish(t, _) => t.key == k
    case AShare(x, _) => x == k
    case AReport(x, _, _) => x == k
    case _ => false
  }

  lemma PromoteAtWrites(q: QueueState, i: nat, k: Key)
    requires Wf(q) && i < |q.queue| && k in q.sessions
    ensures SameWritten(q.sessions[k], PromoteAt(q, i).sessions[k])
  {
    hide Overtaken, Count;
  }

  lemma RefreshWrites(q: QueueState, j: Key, now: real, k: Key)
    requires Wf(q) && j in q.sessions && k in q.sessions
    ensures SameWritten(q.sessions[k], Refresh(q, j, now).sessions[k])
  {
    hide Count;
  }

  lemma SurrenderWrites(q: QueueState, j: Key, k: Key)
    requires Wf(q) && j in q.sessions && k in Surrender(q, j).sessions
    ensures k in q.sessions && SameWritten(q.sessions[k], Surrender(q, j).sessions[k])
  {
    hide Count;
  }

  lemma AtomWrites(q: QueueState, a: Atom, k: Key)
    requires Wf(q) && Enabled(q, a) && !WritesTo(a, k) && k in Apply(q, a).sessions
    ensures k in q.sessions && SameWritten(q.sessions[k], Apply(q, a).sessions[k])
  {
    hide PromoteAt, Refresh, Surrender, Count, IndexOf, RemoveAt, WithoutKey, Eligible;
    match a
    case APromote => PromoteAtWrites(q, FirstEligible(q, 0), k);
    case ARefresh(j, now) => RefreshWrites(q, j, now, k);
    case ASurrender(j, _) => SurrenderWrites(q, j, k);
    case _ =>
  }

  lemma {:induction false} TraceWrites(q: QueueState, atoms: seq<Atom>, k: Key)
    requires Wf(q) && Trace(q, atoms) && k in After(q, atoms).sessions
    requires forall a :: a in atoms ==> !WritesTo(a, k)
    ensures k in q.sessions && SameWritten(q.sessions[k], After(q, atoms).sessions[k])
    decreases |atoms|
  {
    hide Apply, Enabled, WritesTo;
    if atoms != [] {
      TraceWrites(Apply(q, atoms[0]), atoms[1..], k);
      AtomWrites(q, atoms[0], k);
    }
  }

  lemma TryPromoteWrites(q: QueueState, k: Key)
    requires Wf(q) && k in q.sessions
    ensures SameWritten(q.sessions[k], TryPromote(q).sessions[k])
  {
    hide TryPromote, Trace, After;
    NoAtoms(q);
    var atoms := TryPromoteTrace(q, []);
    TraceWrites(q, atoms, k);
  }

  /** The event is a request of the session arriving or ending. */
  predicate Requests(ev: Event, k: Key) {
    (ev.AdmitCall? && ev.key == k) || (ev.ReleaseCall? && ev.ticket.key == k)
  }

  function RequestTime(ev: Event): real
    requires ev.AdmitCall? || ev.ReleaseCall?
  {
    ev.now
  }

  function Untouched(now: real): SessionState {
    SessionState(now, 0, 0, false, None, None, Busy, None, 0.0)
  }

  /** The session as the event finds it; only an admission brings a new one. */
  function AsFound(q: QueueState, ev: Event, k: Key): SessionState {
    if k in q.sessions then q.sessions[k] else Untouched(if ev.AdmitCall? then ev.now else 0.0)
  }

  lemma AdmitWrites(q: QueueState, k: Key, now: real)
    requires Wf(q)
    ensures k in Admit(q, k, now).sessions
    ensures var b := if k in q.sessions then q.sessions[k] else Untouched(now);
      SameWritten(b.(lastRequestAt := now), Admit(q, k, now).sessions[k])
  {
    hide TryPromote, Count;
    TryPromoteWrites(Join(Register(q, k, now), k), k);
  }

  lemma ReleaseWrites(q: QueueState, t: Ticket, now: real)
    requires Wf(q) && t in q.running && t.key in q.sessions
    ensures t.key in Release(q, t, now).sessions
    ensures SameWritten(q.sessions[t.key].(lastRequestAt := now), Release(q, t, now).sessions[t.key])
  {
    hide TryPromote, Count, IndexOf, RemoveAt;
    TryPromoteWrites(Finish(q, t, now), t.key);
  }

  /** The event writes to the session otherwise. */
  predicate Tells(ev: Event, k: Key) {
    (ev.ReportChange? && ev.key == k) || (ev.ShareChange? && ev.key == k)
  }

  lemma OtherEventWrites(q: QueueState, ev: Event, k: Key)
    requires Inv(q) && Legal(q, ev) && k in Step(q, ev).sessions && !Requests(ev, k) && !Tells(ev, k)
    ensures k in q.sessions && SameWritten(q.sessions[k], Step(q, ev).sessions[k])
  {
    hide Step, Legal, Trace, After, SpotsTracked, Ordered, Justified;
    var atoms := EventTrace(q, ev, multiset{});
    forall a | a in atoms
      ensures !WritesTo(a, k)
    {
      assert Within(q, ev, a);
    }
    TraceWrites(q, atoms, k);
  }

  lemma TellWrites(q: QueueState, ev: Event, k: Key)
    requires Wf(q) && OrderOf(q) && Legal(q, ev) && Tells(ev, k)
    ensures k in q.sessions && k in Step(q, ev).sessions
    ensures var r := Step(q, ev).sessions[k];
      if ev.ReportChange? then r == q.sessions[k].(clientStatus := Some(ev.status), clientStatusAt := ev.at)
      else r == q.sessions[k].(shared := ev.with)
  {
    hide Count, OrderOf;
  }

  /** Of the four fields, a request arriving or ending writes its time, a report the status and
      its time, the poller the shared spot, and no event anything else; a session that was not
      there starts with no report and no shared spot. */
  lemma StepWrites(q: QueueState, ev: Event, k: Key)
    requires Inv(q) && Legal(q, ev) && k in Step(q, ev).sessions
    ensures k in q.sessions || (ev.AdmitCall? && ev.key == k)
    ensures var b := AsFound(q, ev, k);
      var r := Step(q, ev).sessions[k];
      && r.lastRequestAt == (if Requests(ev, k) then RequestTime(ev) else b.lastRequestAt)
      && (r.clientStatus, r.clientStatusAt) ==
           (if ev.ReportChange? && ev.key == k then (Some(ev.status), ev.at) else (b.clientStatus, b.clientStatusAt))
      && r.shared == (if ev.ShareChange? && ev.key == k then ev.with else b.shared)
  {
    hide Admit, Release, Report, SetShared, Tick, ReleaseSession, Abandon, Poke, Count, SpotsTracked, Ordered, Justified;
    if Tells(ev, k) {
      TellWrites(q, ev, k);
    } else if ev.AdmitCall? && ev.key == k {
      AdmitWrites(q, k, ev.now);
    } else if ev.ReleaseCall? && ev.ticket.key == k {
      ReleaseWrites(q, ev.ticket, ev.now);
    } else {
      OtherEventWrites(q, ev, k);
    }
  }

  // --------------------------------------------------------------------- runs

  /** The time of the session's latest request event, else the one given. */
  function LatestRequest(evs: seq<Event>, k: Key, before: Option<real>): Option<real> {
    if evs == [] then before
    else LatestRequest(evs[1..], k, if Requests(evs[0], k) then Some(RequestTime(evs[0])) else before)
  }

  lemma {:induction false} RunWritesRequests(q: QueueState, evs: seq<Event>, k: Key, before: Option<real>)
    requires Inv(q) && Run(q, evs) && (k in q.sessions ==> before == Some(q.sessions[k].lastRequestAt))
    ensures k in End(q, evs).sessions ==> LatestRequest(evs, k, before) == Some(End(q, evs).sessions[k].lastRequestAt)
    decreases |evs|
  {
    hide Step, Legal, SpotsTracked, Ordered, Justified;
    if evs != [] {
      var r := Step(q, evs[0]);
      StepKeepsInv(q, evs[0]);
      if k in r.sessions {
        StepWrites(q, evs[0], k);
        AdmissionRequests(evs[0], k);
      }
      RunWritesRequests(r, evs[1..], k, if Requests(evs[0], k) then Some(RequestTime(evs[0])) else before);
    }
  }

  lemma AdmissionRequests(ev: Event, k: Key)
    ensures ev.AdmitCall? && ev.key == k ==> Requests(ev, k)
  {
  }

  /** `last_request_at`, from which all surrender deadlines count, is the time at which the
      latest request of the session arrived or ended, in every reachable state. */
  lemma LastRequestIsLatest(cfg: Config, evs: seq<Event>, k: Key)
    requires Started(cfg, evs) && k in Reached(cfg, evs).sessions
    ensures LatestRequest(evs, k, None) == Some(Reached(cfg, evs).sessions[k].lastRequestAt)
  {
    hide Run, End;
    InitialInv(cfg);
    RunWritesRequests(Initial(cfg), evs, k, None);
  }

  // ---------------------------------------------------------------- readiness

  lemma AtomReady(q: QueueState, a: Atom)
    requires Wf(q) && Enabled(q, a)
    ensures Apply(q, a).ready == if a.AReady? then a.on else q.ready
    ensures !q.ready ==> Apply(q, a).log == q.log
  {
    hide Count, IndexOf, RemoveAt, WithoutKey, Refreshed, Overtaken, Eligible;
  }

  lemma {:induction false} TraceReady(q: QueueState, atoms: seq<Atom>)
    requires Wf(q) && Trace(q, atoms) && forall a :: a in atoms ==> !a.AReady?
    ensures After(q, atoms).ready == q.ready && (!q.ready ==> After(q, atoms).log == q.log)
    decreases |atoms|
  {
    hide Apply, Enabled;
    if atoms != [] {
      AtomReady(q, atoms[0]);
      TraceReady(Apply(q, atoms[0]), atoms[1..]);
    }
  }

  /** Only the probe changes readiness, and nothing is promoted on an endpoint that is not
      ready: its requests wait instead of failing. */
  lemma NoPromotionUnlessReady(q: QueueState, ev: Event)
    requires Inv(q) && Legal(q, ev)
    ensures Step(q, ev).ready == if ev.ReadyChange? then ev.on else q.ready
    ensures !q.ready ==> Step(q, ev).log == q.log
  {
    hide Trace, After, Legal, Admit, Abandon, Release, ReleaseSession, Tick, Poke, SetShared, Report;
    hide SpotsTracked, Ordered, Justified, Count;
    if !ev.ReadyChange? {
      var atoms := EventTrace(q, ev, multiset{});
      forall a | a in atoms
        ensures !a.AReady?
      {
        assert Within(q, ev, a);
      }
      TraceReady(q, atoms);
    }
  }

  // ------------------------------------------------------------ order of records

  /** The keys of the order that are in the set. */
  function Only(order: seq<Key>, keys: set<Key>): seq<Key> {
    if order == [] then []
    else (if order[0] in keys then [order[0]] else []) + Only(order[1..], keys)
  }

  lemma {:induction false} OnlyAll(order: seq<Key>, keys: set<Key>)
    requires forall k :: k in order ==> k in keys
    ensures Only(order, keys) == order
  {
    if order != [] {
      OnlyAll(order[1..], keys);
    }
  }

  lemma {:induction false} OnlyOnly(order: seq<Key>, a: set<Key>, b: set<Key>)
    requires b <= a
    ensures Only(Only(order, a), b) == Only(order, b)
  {
    if order != [] {
      OnlyOnly(order[1..], a, b);
      if order[0] in a {
        assert ([order[0]] + Only(order[1..], a))[1..] == Only(order[1..], a);
      } else {
        assert [] + Only(order[1..], a) == Only(order[1..], a);
      }
    }
  }

  lemma {:induction false} WithoutKeyIsOnly(order: seq<Key>, k: Key, keys: set<Key>)
    requires forall x :: x in order ==> x == k || x in keys
    requires k !in keys
    ensures WithoutKey(order, k) == Only(order, keys)
  {
    if order != [] {
      WithoutKeyIsOnly(order[1..], k, keys);
    }
  }

  lemma SameRecords(q: QueueState, r: QueueState)
    requires OrderOf(q) && r.order == q.order && r.sessions.Keys == q.sessions.Keys
    ensures r.order == Only(q.order, r.sessions.Keys)
  {
    OnlyAll(q.order, r.sessions.Keys);
  }

  lemma ForgetOrder(q: QueueState, k: Key)
    requires Wf(q) && OrderOf(q) && k in q.sessions && q.sessions[k].waiting == 0
    ensures Forget(q, k).order == Only(q.order, Forget(q, k).sessions.Keys)
  {
    hide Count;
    WithoutKeyIsOnly(q.order, k, Forget(q, k).sessions.Keys);
  }

  lemma SurrenderOrder(q: QueueState, k: Key)
    requires Wf(q) && OrderOf(q) && k in q.sessions
    ensures Surrender(q, k).order == Only(q.order, Surrender(q, k).sessions.Keys)
  {
    hide Count;
    var r := Surrender(q, k);
    if r.sessions.Keys == q.sessions.Keys {
      SameRecords(q, r);
    } else {
      WithoutKeyIsOnly(q.order, k, r.sessions.Keys);
    }
  }

  lemma AtomOrder(q: QueueState, a: Atom)
    requires Books(q, multiset{}) && Enabled(q, a) && !a.ARegister?
    ensures Apply(q, a).order == Only(q.order, Apply(q, a).sessions.Keys)
    ensures Apply(q, a).sessions.Keys <= q.sessions.Keys
  {
    hide Forget, Surrender, Count, OrderOf, IndexOf, RemoveAt, Overtaken, Eligible, Refreshed, Only;
    if a.AForget? {
      ForgetOrder(q, a.key);
    } else if a.ASurrender? {
      SurrenderOrder(q, a.key);
    } else {
      SameRecords(q, Apply(q, a));
    }
  }

  lemma {:induction false} TraceOrder(q: QueueState, atoms: seq<Atom>)
    requires Books(q, multiset{}) && Trace(q, atoms) && forall a :: a in atoms ==> !a.ARegister?
    ensures After(q, atoms).order == Only(q.order, After(q, atoms).sessions.Keys)
    ensures After(q, atoms).sessions.Keys <= q.sessions.Keys
    decreases |atoms|
  {
    hide Apply, Enabled, Only;
    if atoms == [] {
      SameRecords(q, q);
    } else {
      var n := Apply(q, atoms[0]);
      AtomOrder(q, atoms[0]);
      AtomKeepsBooks(q, atoms[0], multiset{});
      TraceOrder(n, atoms[1..]);
      OnlyOnly(q.order, n.sessions.Keys, After(n, atoms[1..]).sessions.Keys);
    }
  }

  lemma JoinedOrder(q: QueueState, k: Key, now: real)
    requires Inv(q)
    ensures var j := Join(Register(q, k, now), k);
      Books(j, multiset{}) && j.order == q.order + (if k in q.sessions then [] else [k])
  {
    hide Count, SpotsTracked, Ordered, Justified, OrderOf;
    RegisterKeepsBooks(q, k, now, multiset{});
    JoinKeepsBooks(Register(q, k, now), k, multiset{});
  }

  lemma PromotionKeepsOrder(q: QueueState)
    requires Books(q, multiset{})
    ensures TryPromote(q).order == q.order
  {
    hide TryPromote, Trace, After, Count, Only;
    NoAtoms(q);
    var atoms := TryPromoteTrace(q, []);
    TraceOrder(q, atoms);
    OnlyAll(q.order, q.sessions.Keys);
  }

  lemma AdmitOrder(q: QueueState, k: Key, now: real)
    requires Inv(q)
    ensures Admit(q, k, now).order == q.order + (if k in q.sessions then [] else [k])
  {
    hide TryPromote, Join, Register, Count, SpotsTracked, Ordered, Justified;
    JoinedOrder(q, k, now);
    PromotionKeepsOrder(Join(Register(q, k, now), k));
  }

  /** The records stay in the order in which their sessions were registered: an admission of a
      new session puts it last, every other event at most takes records out. */
  lemma OrderIsByAdmission(q: QueueState, ev: Event)
    requires Inv(q) && Legal(q, ev)
    ensures Step(q, ev).order ==
              if ev.AdmitCall? then q.order + (if ev.key in q.sessions then [] else [ev.key])
              else Only(q.order, Step(q, ev).sessions.Keys)
  {
    hide Trace, After, Legal, Admit, Abandon, Release, ReleaseSession, Tick, Poke, SetReady, SetShared, Report;
    hide SpotsTracked, Ordered, Justified, Count, Only;
    if ev.AdmitCall? {
      AdmitOrder(q, ev.key, ev.now);
    } else {
      var atoms := EventTrace(q, ev, multiset{});
      forall a | a in atoms
        ensures !a.ARegister?
      {
        assert Within(q, ev, a);
      }
      TraceOrder(q, atoms);
    }
  }
}
