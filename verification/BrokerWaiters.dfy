/** Who wakes the producers parked on the gate, and when. */
module BrokerWaiters {
  import opened Types
  import opened Retry
  import opened Router
  import opened Counting
  import opened BrokerState
  import opened BrokerInvariant
  import opened BrokerGate
  import opened BrokerRuns

  // ---- Where a producer is -----------------------------------------------------------------

  predicate Publishing(s: State, p: nat, m: Message) {
    (p in s.parked && s.parked[p] == m) || (p in s.woken && s.woken[p] == m) || (p in s.passed && s.passed[p] == m)
  }

  predicate Apart(s: State) {
    s.parked.Keys !! s.woken.Keys && s.parked.Keys !! s.passed.Keys && s.woken.Keys !! s.passed.Keys
  }

  /** The gate's fields before and after a step that no producer takes. */
  ghost predicate Wakes(c: Config, s: State, s': State) {
    s'.passed == s.passed &&
    (|| (s'.parked == s.parked && s'.woken == s.woken)
     || (s'.parked == map[] && s'.woken == s.woken + s.parked && GateOpen(c, s')))
  }

  lemma RefreshWakes(c: Config, s: State)
    ensures Wakes(c, s, Refresh(c, s))
  {
    hide GateOpen;
    SameGate(c, s, Refresh(c, s));
  }

  lemma SameWakes(c: Config, s: State, s1: State, s2: State)
    requires s1.passed == s.passed && s1.parked == s.parked && s1.woken == s.woken && Wakes(c, s1, s2)
    ensures Wakes(c, s, s2)
  {
  }

  lemma StepWakes(c: Config, s: State, step: Step)
    requires Books(s, {}) && Linked(s) && Enabled(s, step) && !step.Arrive? && !step.Reconsider? && !step.Fanout?
    ensures Wakes(c, s, Apply(c, s, step))
  {
    hide Books, Flush, Take, Wake, Nack, Refresh, Dropped, Wakes;
    match step
    case Join(sub, tokens, replay) =>
      var s1 := s.(regs := s.regs[sub := Registration(tokens, replay, [])], queues := s.queues[sub := []]);
      RefreshWakes(c, s1);
      SameWakes(c, s, s1, Refresh(c, s1));
    case FlushReplay(sub, history) =>
      FlushShift(c, s, sub, history);
      KeptWakes(c, s, Flush(c, s, sub, history));
    case FailReplay(sub) => KeptWakes(c, s, Apply(c, s, step));
    case Consume(sub) =>
      assert s.queues[sub][0] in s.queues[sub];
      TakeShift(s, sub);
      KeptWakes(c, s, Take(s, sub));
    case Acknowledge(root) =>
      RefreshWakes(c, Settled(s, root, Acked));
      SameWakes(c, s, Settled(s, root, Acked), Refresh(c, Settled(s, root, Acked)));
    case Refuse(root) => NackWakes(c, s, root);
    case WakeUp(root) =>
      WakeShift(c, s, root);
      KeptWakes(c, s, Wake(c, s, root));
    case Bury(root) => BuryWakes(c, s, root);
    case Leave(sub) => LeaveWakes(c, s, sub);
  }

  lemma KeptWakes(c: Config, s: State, s': State)
    requires s'.passed == s.passed && s'.parked == s.parked && s'.woken == s.woken
    ensures Wakes(c, s, s')
  {
  }

  lemma NackWakes(c: Config, s: State, root: nat)
    requires root in s.chains && s.chains[root].cur.root == root
    ensures Wakes(c, s, Nack(c, s, root))
  {
    hide Refresh, Wakes, Schedule, EnterRetry;
    if s.chains[root].cur.subscription in s.regs {
      RefuseShift(c, s, root);
      KeptWakes(c, s, Nack(c, s, root));
    } else {
      RefreshWakes(c, Settled(s, root, Gone));
      SameWakes(c, s, Settled(s, root, Gone), Refresh(c, Settled(s, root, Gone)));
    }
  }

  lemma LeaveWakes(c: Config, s: State, sub: nat)
    ensures Wakes(c, s, Remove(c, s, sub))
  {
    hide Refresh, Wakes, Value;
    RefreshWakes(c, Dropped(s, sub));
    SameWakes(c, s, Dropped(s, sub), Remove(c, s, sub));
  }

  lemma BuryWakes(c: Config, s: State, root: nat)
    requires root in s.chains
    ensures Wakes(c, s, BuryAndEvict(c, s, root))
  {
    hide Refresh, Wakes, Value, DeadLetter;
    var s1 := Buried(Dropped(s, s.chains[root].cur.subscription), root);
    RefreshWakes(c, s1);
    SameWakes(c, s, s1, BuryAndEvict(c, s, root));
  }

  lemma WakesAt(c: Config, s: State, s': State)
    requires Apart(s) && Wakes(c, s, s')
    ensures Apart(s') && forall p, m :: Publishing(s', p, m) <==> Publishing(s, p, m)
  {
  }

  lemma ArriveAt(c: Config, s: State, p: nat, m: Message)
    requires Apart(s) && Enabled(s, Arrive(p, m))
    ensures Apart(Gate(c, s, p, m))
    ensures forall q, x :: Publishing(Gate(c, s, p, m), q, x) <==> Publishing(s, q, x) || (q == p && x == m)
  {
    hide GateOpen;
    if GateOpen(c, s) {
    } else {
    }
  }

  lemma ReconsiderAt(c: Config, s: State, p: nat)
    requires Apart(s) && p in s.woken
    ensures Apart(Gate(c, s, p, s.woken[p]))
    ensures forall q, x :: Publishing(Gate(c, s, p, s.woken[p]), q, x) <==> Publishing(s, q, x)
  {
    hide GateOpen;
    if GateOpen(c, s) {
    } else {
    }
  }

  lemma FanoutAt(s: State, s': State, p: nat)
    requires Apart(s) && p in s.passed && s'.parked == s.parked && s'.woken == s.woken && s'.passed == s.passed - {p}
    ensures Apart(s') && Publishing(s, p, s.passed[p])
    ensures forall q, x :: Publishing(s', q, x) <==> Publishing(s, q, x) && q != p
  {
  }

  lemma FanoutParks(c: Config, s: State, p: nat, targets: seq<nat>)
    requires Linked(s) && Enabled(s, Fanout(p, targets))
    ensures
      var s' := Apply(c, s, Fanout(p, targets));
      s'.parked == s.parked && s'.woken == s.woken && s'.passed == s.passed - {p}
  {
    hide DeliverAll;
    DeliverAllShift(c, s, targets, s.passed[p]);
  }

  /** No producer is lost: it stays with its message, parked, woken or past the gate, from its arrival to its
      fanout, whatever step is taken. */
  lemma ProducersAreConserved(c: Config, s: State, step: Step, p: nat, m: Message)
    requires Books(s, {}) && Linked(s) && Enabled(s, step) && Apart(s)
    ensures Publishing(Apply(c, s, step), p, m) <==>
      (Publishing(s, p, m) && !(step.Fanout? && step.p == p)) || step == Arrive(p, m)
  {
    hide Books, Linked, Apart, Publishing, Gate, DeliverAll, Wakes;
    if step.Arrive? {
      ArriveAt(c, s, step.p, step.message);
    } else if step.Reconsider? {
      ReconsiderAt(c, s, step.p);
    } else if step.Fanout? {
      FanoutParks(c, s, step.p, step.targets);
      FanoutAt(s, Apply(c, s, step), step.p);
    } else {
      hide Apply;
      StepWakes(c, s, step);
      WakesAt(c, s, Apply(c, s, step));
    }
  }

  /** Every producer is at one place at a time. */
  lemma StepApart(c: Config, s: State, step: Step)
    requires Books(s, {}) && Linked(s) && Enabled(s, step) && Apart(s)
    ensures Apart(Apply(c, s, step))
  {
    hide Books, Linked, Apart, Publishing, Gate, DeliverAll, Wakes;
    if step.Arrive? {
      ArriveAt(c, s, step.p, step.message);
    } else if step.Reconsider? {
      ReconsiderAt(c, s, step.p);
    } else if step.Fanout? {
      FanoutParks(c, s, step.p, step.targets);
      FanoutAt(s, Apply(c, s, step), step.p);
    } else {
      hide Apply;
      StepWakes(c, s, step);
      WakesAt(c, s, Apply(c, s, step));
    }
  }

  lemma InitApart()
    ensures Apart(INIT)
  {
  }

  lemma TakenApart(c: Config, r: Run, i: nat)
    requires IsRun(c, r) && i < |r.steps| && Apart(r.states[i])
    ensures Apart(r.states[i + 1])
  {
    hide Inv, Apart, Apply, Linked, Enabled, Books;
    RunInv(c, r, i);
    InvBooks(c, r.states[i]);
    assert Takes(c, r, i);
    StepApart(c, r.states[i], r.steps[i]);
  }

  lemma {:induction false} RunApart(c: Config, r: Run, i: nat)
    requires IsRun(c, r) && i < |r.states|
    ensures Apart(r.states[i])
  {
    hide Apart, Takes;
    if i == 0 {
      InitApart();
    } else {
      RunApart(c, r, i - 1);
      TakenApart(c, r, i - 1);
    }
  }

  // ---- The parked --------------------------------------------------------------------------

  /** A producer that looks at the gate leaves the parked alone. */
  lemma GateParks(c: Config, s: State, p: nat, m: Message)
    ensures forall q <- s.parked | q != p :: q in Gate(c, s, p, m).parked && Gate(c, s, p, m).parked[q] == s.parked[q]
  {
    hide GateOpen;
    if GateOpen(c, s) {
    } else {
    }
  }

  /** A parked producer stays parked while the gate is shut. */
  lemma ParkedStays(c: Config, s: State, step: Step, p: nat)
    requires Books(s, {}) && Apart(s) && Linked(s) && Enabled(s, step) && p in s.parked
    requires !GateOpen(c, Apply(c, s, step))
    ensures p in Apply(c, s, step).parked && Apply(c, s, step).parked[p] == s.parked[p]
  {
    hide Books, GateOpen, Linked;
    if step.Arrive? {
      hide Gate;
      GateParks(c, s, step.p, step.message);
    } else if step.Reconsider? {
      hide Gate;
      GateParks(c, s, step.p, s.woken[step.p]);
    } else if step.Fanout? {
      FanoutParks(c, s, step.p, step.targets);
    } else {
      hide Apply, Enabled;
      StepWakes(c, s, step);
    }
  }
}
