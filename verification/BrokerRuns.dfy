/** What holds of the broker in every state that any interleaving of its steps can reach. */
module BrokerRuns {
  import opened Types
  import opened Router
  import opened BrokerState
  import opened BrokerInvariant
  import opened BrokerHistory
  import opened BrokerGate

  ghost predicate Inv(c: Config, s: State) {
    Books(s, {}) && Honest(c, s) && GateOk(c, s)
  }

  // ---- Runs --------------------------------------------------------------------------------

  /** The states that a broker goes through from its construction on, and the steps between them. */
  datatype Run = Run(states: seq<State>, steps: seq<Step>)

  /** `Linked` makes `Apply` well defined; `BooksLinked` shows that it never stops a run. */
  ghost predicate Takes(c: Config, r: Run, i: nat)
    requires i < |r.steps| < |r.states|
  {
    && Linked(r.states[i]) && Enabled(r.states[i], r.steps[i])
    && r.states[i + 1] == Apply(c, r.states[i], r.steps[i])
  }

  ghost predicate IsRun(c: Config, r: Run) {
    && |r.states| == |r.steps| + 1 && r.states[0] == INIT
    && forall i | 0 <= i < |r.steps| :: Takes(c, r, i)
  }

  function Last(r: Run): State
    requires r.states != []
  {
    r.states[|r.states| - 1]
  }

  ghost predicate Reachable(c: Config, s: State) {
    exists r :: IsRun(c, r) && Last(r) == s
  }

  lemma BooksLinked(s: State)
    requires Books(s, {})
    ensures Linked(s)
  {
    LinkedRegs(s);
    LinkedQueues(s);
  }

  lemma LinkedRegs(s: State)
    requires Books(s, {})
    ensures s.regs.Keys <= s.queues.Keys && forall sub <- s.regs :: BufferKnown(s, sub)
  {
    hide Placed, QueuesOk, PendingOk;
  }

  lemma LinkedQueues(s: State)
    requires Books(s, {})
    ensures forall sub <- s.queues :: forall d <- s.queues[sub] :: d.root in s.chains
    ensures forall root <- s.chains ::
              s.chains[root].cur.root == root && s.chains[root].cur.subscription in s.queues
  {
    hide BuffersOk, PendingOk, InflightOk, FlyingOk;
  }

  // ---- One step ----------------------------------------------------------------------------

  /** The steps that end without a refresh of the gate. */
  predicate Quiet(step: Step) {
    step.Fanout? || step.FlushReplay? || step.FailReplay? || step.Consume? || step.WakeUp?
  }

  lemma StepBooks(c: Config, s: State, step: Step)
    requires Books(s, {}) && Honest(c, s) && Linked(s) && Enabled(s, step)
    ensures Books(Apply(c, s, step), {})
  {
    hide Books, Honest, SameBooks, Gate, DeliverAll, Subscribe, Flush, Take, Ack, Nack, Wake, BuryAndEvict, Remove,
        Dropped;
    match step
    case Arrive(p, m) =>
      GateSame(c, s, p, m);
      GateBooks(s, Gate(c, s, p, m), {});
    case Reconsider(p) =>
      GateSame(c, s, p, s.woken[p]);
      GateBooks(s, Gate(c, s, p, s.woken[p]), {});
    case Fanout(p, targets) => FanoutBooks(c, s, p, targets);
    case Join(sub, tokens, replay) => SubscribeBooks(c, s, sub, tokens, replay);
    case FlushReplay(sub, history) => FlushBooks(c, s, sub, history);
    case FailReplay(sub) =>
      FailedReplayOwesNothing(c, s, sub);
      DroppedBooks(s, sub);
    case Consume(sub) =>
      assert s.queues[sub][0] in s.queues[sub];
      TakeBooks(s, sub);
    case Acknowledge(root) => AckBooks(c, s, root);
    case Refuse(root) => NackBooks(c, s, root);
    case WakeUp(root) => WakeBooks(c, s, root);
    case Bury(root) => BuryBooks(c, s, root);
    case Leave(sub) => RemoveBooks(c, s, sub);
  }

  lemma GateSame(c: Config, s: State, p: nat, m: Message)
    ensures SameBooks(s, Gate(c, s, p, m))
  {
    hide GateOpen, SameBooks;
    if GateOpen(c, s) {
      OnlyGate(s, s.admit, s.parked, s.woken - {p}, s.passed[p := m]);
    } else {
      OnlyGate(s, false, s.parked[p := m], s.woken - {p}, s.passed);
    }
  }

  lemma OnlyGate(s: State, admit: bool, parked: map<nat, Message>, woken: map<nat, Message>, passed: map<nat, Message>)
    ensures SameBooks(s, s.(admit := admit, parked := parked, woken := woken, passed := passed))
  {
  }

  lemma FanoutBooks(c: Config, s: State, p: nat, targets: seq<nat>)
    requires Books(s, {}) && Linked(s) && Enabled(s, Fanout(p, targets))
    ensures Books(Apply(c, s, Fanout(p, targets)), {})
  {
    hide Books, DeliverAll;
    DeliverAllBooks(c, s, targets, s.passed[p]);
    GateBooks(DeliverAll(c, s, targets, s.passed[p]), Apply(c, s, Fanout(p, targets)), {});
  }

  lemma StepHonest(c: Config, s: State, step: Step)
    requires Books(s, {}) && Honest(c, s) && Linked(s) && Enabled(s, step)
    ensures Honest(c, Apply(c, s, step))
  {
    hide Books, Honest, Gate, DeliverAll, Subscribe, Flush, Take, Ack, Nack, Wake, BuryAndEvict, Remove, Dropped;
    match step
    case Arrive(p, m) => GateHonest(c, s, p, m);
    case Reconsider(p) => GateHonest(c, s, p, s.woken[p]);
    case Fanout(p, targets) =>
      DeliverAllHonest(c, s, targets, s.passed[p]);
      Stays(c, DeliverAll(c, s, targets, s.passed[p]), Apply(c, s, step));
    case Join(sub, tokens, replay) => SubscribeHonest(c, s, sub, tokens, replay);
    case FlushReplay(sub, history) => FlushHonest(c, s, sub, history);
    case FailReplay(sub) => Stays(c, s, Apply(c, s, step));
    case Consume(sub) =>
      assert s.queues[sub][0] in s.queues[sub];
      TakeHonest(c, s, sub);
    case Acknowledge(root) => AckHonest(c, s, root);
    case Refuse(root) => NackHonest(c, s, root);
    case WakeUp(root) => WakeHonest(c, s, root);
    case Bury(root) => BuryHonest(c, s, root);
    case Leave(sub) => RemoveHonest(c, s, sub);
  }

  lemma GateHonest(c: Config, s: State, p: nat, m: Message)
    requires Honest(c, s)
    ensures Honest(c, Gate(c, s, p, m))
  {
    hide Honest, GateOpen;
    Stays(c, s, Gate(c, s, p, m));
  }

  lemma StepGate(c: Config, s: State, step: Step)
    requires Inv(c, s) && Linked(s) && Enabled(s, step)
    ensures GateOk(c, Apply(c, s, step))
  {
    BooksParts(s, {});
    if Quiet(step) {
      QuietGate(c, s, step);
    } else {
      LoudGate(c, s, step);
    }
  }

  lemma ParkedClosed(c: Config, s: State)
    requires GateOk(c, s)
    ensures s.parked != map[] ==> !s.admit
  {
  }

  lemma LoudGate(c: Config, s: State, step: Step)
    requires GateOk(c, s) && PendingOk(s) && Linked(s) && Enabled(s, step) && !Quiet(step)
    ensures GateOk(c, Apply(c, s, step))
  {
    hide GateOk, PendingOk, Gate, Refresh;
    ParkedClosed(c, s);
    match step
    case Arrive(p, m) => GateGate(c, s, p, m);
    case Reconsider(p) => GateGate(c, s, p, s.woken[p]);
    case Join(sub, tokens, replay) =>
      RefreshGate(c, s.(regs := s.regs[sub := Registration(tokens, replay, [])], queues := s.queues[sub := []]));
    case Acknowledge(root) => RefreshGate(c, Settled(s, root, Acked));
    case Refuse(root) => NackGate(c, s, root);
    case Bury(root) => RefreshGate(c, Buried(Dropped(s, s.chains[root].cur.subscription), root));
    case Leave(sub) => RefreshGate(c, Dropped(s, sub));
  }

  lemma NackGate(c: Config, s: State, root: nat)
    requires GateOk(c, s) && PendingOk(s) && root in s.chains && s.chains[root].cur.root == root
    ensures GateOk(c, Nack(c, s, root))
  {
    hide GateOk, PendingOk, Refresh, EnterRetry, Schedule;
    ParkedClosed(c, s);
    if s.chains[root].cur.subscription in s.regs {
      RefuseShift(c, s, root);
      ShiftGate(c, s, Nack(c, s, root), 0, 1);
    } else {
      RefreshGate(c, Settled(s, root, Gone));
    }
  }

  lemma QuietGate(c: Config, s: State, step: Step)
    requires GateOk(c, s) && Books(s, {}) && Linked(s) && Enabled(s, step) && Quiet(step)
    ensures GateOk(c, Apply(c, s, step))
  {
    hide GateOk, Books, PendingOk, QueuesOk, BuffersOk, ChainsOk, InflightOk, FlyingOk, DeliverAll, Flush, Take,
        Wake, Shift;
    BooksParts(s, {});
    match step
    case Fanout(p, targets) => FanoutGate(c, s, p, targets);
    case FlushReplay(sub, history) =>
      FlushShift(c, s, sub, history);
      ShiftGate(c, s, Apply(c, s, step), 0, |history| + |s.regs[sub].buffer|);
    case FailReplay(sub) => FailGate(c, s, sub);
    case Consume(sub) =>
      assert s.queues[sub][0] in s.queues[sub];
      TakeShift(s, sub);
      ShiftGate(c, s, Apply(c, s, step), 0, 0);
    case WakeUp(root) => WakeGate(c, s, root);
  }

  lemma FailGate(c: Config, s: State, sub: nat)
    requires GateOk(c, s) && PendingOk(s)
    ensures GateOk(c, s.(regs := s.regs - {sub}))
  {
    hide GateOk, PendingOk;
    BacklogIsCount(s);
    WithoutSize(s.regs, sub);
    GateGrows(c, s, s.(regs := s.regs - {sub}));
  }

  lemma WakeGate(c: Config, s: State, root: nat)
    requires GateOk(c, s) && Books(s, {}) && root in s.chains && s.chains[root].place.Sleeping?
    requires s.chains[root].cur.root == root && s.chains[root].cur.subscription in s.queues
    ensures GateOk(c, Wake(c, s, root))
  {
    hide GateOk, Books, PendingOk, HasRoom, Wake, Shift;
    BooksParts(s, {});
    WakeShift(c, s, root);
    var d := s.chains[root].cur;
    var change := if d.subscription in s.regs || !HasRoom(s, d.subscription) then 0 else 1;
    ShiftGate(c, s, Wake(c, s, root), change, change);
  }

  lemma FanoutGate(c: Config, s: State, p: nat, targets: seq<nat>)
    requires GateOk(c, s) && PendingOk(s) && Linked(s) && Enabled(s, Fanout(p, targets))
    ensures GateOk(c, Apply(c, s, Fanout(p, targets)))
  {
    hide PendingOk, DeliverAll;
    var s' := DeliverAll(c, s, targets, s.passed[p]);
    DeliverAllShift(c, s, targets, s.passed[p]);
    ShiftGate(c, s, s', 0, |targets|);
    SameGate(c, s', Apply(c, s, Fanout(p, targets)));
  }

  /** Every step of the broker keeps the invariant. */
  lemma StepInv(c: Config, s: State, step: Step)
    requires Inv(c, s) && Linked(s) && Enabled(s, step)
    ensures Inv(c, Apply(c, s, step))
  {
    StepBooks(c, s, step);
    StepHonest(c, s, step);
    StepGate(c, s, step);
  }

  lemma InvBooks(c: Config, s: State)
    requires Inv(c, s)
    ensures Books(s, {})
  {
  }

  lemma InitInv(c: Config)
    ensures Inv(c, INIT)
  {
    assert LiveLimbo(INIT) == {};
  }

  lemma {:induction false} RunInv(c: Config, r: Run, i: nat)
    requires IsRun(c, r) && i < |r.states|
    ensures Inv(c, r.states[i])
  {
    hide Inv, Apply, Linked, Enabled;
    if i == 0 {
      InitInv(c);
    } else {
      RunInv(c, r, i - 1);
      assert Takes(c, r, i - 1);
      StepInv(c, r.states[i - 1], r.steps[i - 1]);
    }
  }

  lemma ReachableInv(c: Config, s: State)
    requires Reachable(c, s)
    ensures Inv(c, s)
  {
    hide Inv, Takes;
    var r :| IsRun(c, r) && Last(r) == s;
    RunInv(c, r, |r.steps|);
  }

  lemma InitReachable(c: Config)
    ensures Reachable(c, INIT)
  {
    assert IsRun(c, Run([INIT], []));
  }

  function Longer(r: Run, step: Step, s: State): Run {
    Run(r.states + [s], r.steps + [step])
  }

  lemma TakesSame(c: Config, r: Run, r': Run, k: nat)
    requires k < |r.steps| < |r.states| && k < |r'.steps| < |r'.states| && Takes(c, r, k)
    requires r'.states[k] == r.states[k] && r'.states[k + 1] == r.states[k + 1] && r'.steps[k] == r.steps[k]
    ensures Takes(c, r', k)
  {
    hide Apply, Linked, Enabled;
  }

  lemma TakesLast(c: Config, r: Run, step: Step)
    requires |r.states| == |r.steps| + 1 && Linked(Last(r)) && Enabled(Last(r), step)
    ensures Takes(c, Longer(r, step, Apply(c, Last(r), step)), |r.steps|)
  {
    hide Apply, Linked, Enabled;
  }

  lemma RunsOn(c: Config, r: Run, step: Step)
    requires IsRun(c, r) && Linked(Last(r)) && Enabled(Last(r), step)
    ensures IsRun(c, Longer(r, step, Apply(c, Last(r), step)))
  {
    hide Apply, Enabled, Linked, Takes;
    var r' := Longer(r, step, Apply(c, Last(r), step));
    TakesLast(c, r, step);
    forall i | 0 <= i < |r.steps|
      ensures Takes(c, r', i)
    {
      TakesSame(c, r, r', i);
    }
  }

  /** What a reachable state steps to is reachable. */
  lemma Reaches(c: Config, s: State, step: Step)
    requires Reachable(c, s) && Enabled(s, step)
    ensures Linked(s) && Reachable(c, Apply(c, s, step))
  {
    hide Apply, Books, Honest, GateOk, Enabled, Linked, Takes;
    ReachableInv(c, s);
    BooksLinked(s);
    var r :| IsRun(c, r) && Last(r) == s;
    RunsOn(c, r, step);
    assert Last(Longer(r, step, Apply(c, s, step))) == Apply(c, s, step);
  }
}
