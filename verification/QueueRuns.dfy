/** Whole runs of one endpoint's queue. */
module QueueRuns {
  import opened QueueModel
  import opened QueueSteps
  import opened QueueInvariants

  // ----------------------------------------------- events are made of atoms

  lemma {:induction false} TickOverTrace(q: QueueState, keys: seq<Key>, now: real, ws: multiset<Key>)
    returns (atoms: seq<Atom>)
    requires Books(q, ws) && NoDup(keys) && forall k :: k in keys ==> k in q.sessions
    ensures Trace(q, atoms) && After(q, atoms) == TickOver(q, keys, now).0
    ensures forall a :: a in atoms ==> Within(q, TickCall(now), a)
    decreases |keys|
  {
    hide TickOne, TickFrees, Apply, Enabled, OrderOf;
    if keys == [] {
      atoms := [];
    } else {
      var first := TickOneTrace(q, keys[0], now);
      TraceKeepsBooks(q, first, ws);
      assert forall k :: k in keys[1..] ==> k in keys && k != keys[0];
      var rest := TickOverTrace(TickOne(q, keys[0], now), keys[1..], now, ws);
      TraceConcat(q, first, rest);
      atoms := first + rest;
      forall a | a in atoms
        ensures Within(q, TickCall(now), a)
      {
        TickAtom(TickOne(q, keys[0], now), q, now, a);
      }
    }
  }

  lemma TickAtom(p: QueueState, q: QueueState, now: real, a: Atom)
    ensures Within(p, TickCall(now), a) ==> Within(q, TickCall(now), a)
  {
  }

  lemma AdmitTrace(q: QueueState, k: Key, now: real) returns (atoms: seq<Atom>)
    requires Wf(q)
    ensures Trace(q, atoms) && After(q, atoms) == Admit(q, k, now)
    ensures forall a :: a in atoms ==> a in [ARegister(k, now), AJoin(k)] || a.APromote?
  {
    hide Register, Join, TryPromote, Wf, Trace, After;
    TwoAtoms(q, ARegister(k, now), AJoin(k));
    atoms := TryPromoteTrace(q, [ARegister(k, now), AJoin(k)]);
  }

  lemma AbandonTrace(q: QueueState, t: Ticket) returns (atoms: seq<Atom>)
    requires Wf(q) && (t in q.queue || t in q.running)
    ensures Trace(q, atoms) && After(q, atoms) == Abandon(q, t)
    ensures forall a :: a in atoms ==> a == ALeave(t)
  {
    hide Trace, After, Leave, Count;
    if t in q.running {
      atoms := [];
      NoAtoms(q);
    } else {
      OneAtom(q, ALeave(t));
      atoms := [ALeave(t)];
    }
  }

  lemma ReleaseTrace(q: QueueState, t: Ticket, now: real) returns (atoms: seq<Atom>)
    requires Wf(q) && t in q.running && t.key in q.sessions
    ensures Trace(q, atoms) && After(q, atoms) == Release(q, t, now)
    ensures forall a :: a in atoms ==> a == AFinish(t, now) || a.APromote?
  {
    hide Trace, After, TryPromote, Finish, Count;
    OneAtom(q, AFinish(t, now));
    atoms := TryPromoteTrace(q, [AFinish(t, now)]);
  }

  lemma ManualReleaseTrace(q: QueueState, k: Key) returns (atoms: seq<Atom>)
    requires Wf(q)
    ensures Trace(q, atoms) && After(q, atoms) == ReleaseSession(q, k)
    ensures forall a :: a in atoms ==> Within(q, ManualRelease(k), a)
  {
    hide Trace, After, TryPromote, Surrender, Count;
    if HoldsSpot(q, k) {
      var a := ASurrender(k, q.sessions[k].inflight > 0);
      OneAtom(q, a);
      atoms := TryPromoteTrace(q, [a]);
    } else {
      atoms := [];
      NoAtoms(q);
    }
  }

  lemma PokeTrace(q: QueueState) returns (atoms: seq<Atom>)
    requires Wf(q)
    ensures Trace(q, atoms) && After(q, atoms) == Poke(q)
    ensures forall a :: a in atoms ==> a.APromote?
  {
    hide Trace, After, TryPromote, Count;
    NoAtoms(q);
    atoms := [];
    if q.queue != [] && q.ready {
      atoms := TryPromoteTrace(q, []);
    }
  }

  /** The events that are a single atom. */
  function AsAtom(ev: Event): Option<Atom> {
    match ev
    case ReadyChange(on) => Some(AReady(on))
    case ShareChange(k, with) => Some(AShare(k, with))
    case ReportChange(k, status, at) => Some(AReport(k, status, at))
    case _ => None
  }

  lemma AsAtomIsStep(q: QueueState, ev: Event)
    requires Wf(q) && OrderOf(q) && Legal(q, ev) && AsAtom(ev).Some?
    ensures Enabled(q, AsAtom(ev).value) && Apply(q, AsAtom(ev).value) == Step(q, ev)
    ensures Within(q, ev, AsAtom(ev).value)
  {
    hide Count, OrderOf;
  }

  lemma EventTrace(q: QueueState, ev: Event, ws: multiset<Key>) returns (atoms: seq<Atom>)
    requires Books(q, ws) && Legal(q, ev)
    ensures Trace(q, atoms) && After(q, atoms) == Step(q, ev)
    ensures forall a :: a in atoms ==> Within(q, ev, a)
  {
    hide Trace, After, Apply, Enabled, Count, Admit, Abandon, Release, ReleaseSession, TickOver, Poke;
    match ev
    case AdmitCall(k, now) => atoms := AdmitTrace(q, k, now);
    case AbandonCall(t) => atoms := AbandonTrace(q, t);
    case ReleaseCall(t, now) => atoms := ReleaseTrace(q, t, now);
    case ManualRelease(k) => atoms := ManualReleaseTrace(q, k);
    case TickCall(now) => atoms := TickOverTrace(q, q.order, now, ws);
    case PokeCall => atoms := PokeTrace(q);
    case _ =>
      AsAtomIsStep(q, ev);
      OneAtom(q, AsAtom(ev).value);
      atoms := [AsAtom(ev).value];
  }

  lemma StepKeepsInv(q: QueueState, ev: Event)
    requires Inv(q) && Legal(q, ev)
    ensures Inv(Step(q, ev))
  {
    hide Step, Legal, Trace, After, OrderOf, SpotsTracked, Ordered, Justified;
    var atoms := EventTrace(q, ev, multiset{});
    TraceKeepsInv(q, atoms);
  }

  // -------------------------------------------------------------------- runs

  ghost predicate Run(q: QueueState, evs: seq<Event>)
    requires Inv(q)
    decreases |evs|
  {
    evs == [] ||
    (Legal(q, evs[0]) &&
     (StepKeepsInv(q, evs[0]);
      Run(Step(q, evs[0]), evs[1..])))
  }

  ghost function End(q: QueueState, evs: seq<Event>): (r: QueueState)
    requires Inv(q) && Run(q, evs)
    ensures Inv(r)
    decreases |evs|
  {
    if evs == [] then q
    else
      StepKeepsInv(q, evs[0]);
      End(Step(q, evs[0]), evs[1..])
  }

  lemma ApplyKeepsConfig(q: QueueState, a: Atom)
    requires Wf(q) && Enabled(q, a)
    ensures Apply(q, a).cfg == q.cfg
  {
    hide Wf, Count;
  }

  lemma {:induction false} TraceKeepsConfig(q: QueueState, atoms: seq<Atom>)
    requires Wf(q) && Trace(q, atoms)
    ensures After(q, atoms).cfg == q.cfg
    decreases |atoms|
  {
    hide Enabled, Apply;
    if atoms != [] {
      ApplyKeepsConfig(q, atoms[0]);
      TraceKeepsConfig(Apply(q, atoms[0]), atoms[1..]);
    }
  }

  lemma StepKeepsConfig(q: QueueState, ev: Event)
    requires Inv(q) && Legal(q, ev)
    ensures Step(q, ev).cfg == q.cfg
  {
    hide Step, Legal, Trace, After;
    var atoms := EventTrace(q, ev, multiset{});
    TraceKeepsConfig(q, atoms);
  }

  lemma {:induction false} RunKeepsConfig(q: QueueState, evs: seq<Event>)
    requires Inv(q) && Run(q, evs)
    ensures End(q, evs).cfg == q.cfg
    decreases |evs|
  {
    hide Step, Legal;
    if evs != [] {
      StepKeepsConfig(q, evs[0]);
      StepKeepsInv(q, evs[0]);
      RunKeepsConfig(Step(q, evs[0]), evs[1..]);
    }
  }

  /** Runs from the constructor's state, and where they end. */
  ghost predicate Started(cfg: Config, evs: seq<Event>) {
    InitialInv(cfg);
    Run(Initial(cfg), evs)
  }

  ghost function Reached(cfg: Config, evs: seq<Event>): (q: QueueState)
    requires Started(cfg, evs)
    ensures Inv(q)
  {
    InitialInv(cfg);
    End(Initial(cfg), evs)
  }
}
