/** The soft bound on the backlog: admission overshoots by one fanout for each publish already past the
    gate. */
module BrokerBound {
  import opened Types
  import opened Router
  import opened BrokerState
  import opened BrokerInvariant
  import opened BrokerHistory
  import opened BrokerGate
  import opened BrokerRuns

  /** Steps of a broker whose subscriptions all stay and do not replay. */
  predicate Calm(step: Step) {
    match step
    case Join(_, _, replay) => !replay
    case FlushReplay(_, _) => false
    case FailReplay(_) => false
    case Bury(_) => false
    case Leave(_) => false
    case _ => true
  }

  function Max(a: int, b: int): int {
    if a < b then b else a
  }

  /** One below the watermark, and one fanout for each publish that may still be past the gate. */
  function Ceiling(limit: int, s: State, k: nat): int {
    Max(Watermark(limit, s) - 1, 0) + k * |s.regs|
  }

  /** Nobody has left, and fewer than `k` publishes past the gate leave that much headroom. */
  ghost predicate Bounded(limit: int, s: State, k: nat) {
    && s.regs.Keys == s.queues.Keys
    && |s.passed| <= k
    && Backlog(s) <= Ceiling(limit, s, k - |s.passed|)
  }

  lemma TargetsFit(s: State, m: Message, targets: seq<nat>)
    requires Targets(s, m, targets)
    ensures |targets| <= |s.regs|
  {
    DistinctSize(targets, s.regs.Keys);
    assert |s.regs| == |s.regs.Keys|;
  }

  lemma {:induction false} DistinctSize(xs: seq<nat>, ys: set<nat>)
    requires (forall i, j | 0 <= i < j < |xs| :: xs[i] != xs[j]) && forall x <- xs :: x in ys
    ensures |xs| <= |ys|
  {
    if xs != [] {
      assert xs[0] in xs;
      assert forall x <- xs[1..] :: x in xs && x != xs[0];
      DistinctSize(xs[1..], ys - {xs[0]});
    }
  }

  lemma CeilingStep(limit: int, s: State, s': State, k: nat)
    requires s'.regs.Keys == s.regs.Keys
    ensures Ceiling(limit, s', k) == Ceiling(limit, s, k) && Watermark(limit, s') == Watermark(limit, s)
    ensures Ceiling(limit, s, k + 1) == Ceiling(limit, s, k) + |s.regs|
  {
    SameKeysSize(s, s');
    assert (k + 1) * |s.regs| == k * |s.regs| + |s.regs|;
  }

  /** A joining subscription raises the ceiling. */
  lemma CeilingJoins(limit: int, s: State, s': State, k: nat)
    requires |s'.regs| == |s.regs| + 1
    ensures Ceiling(limit, s', k) >= Ceiling(limit, s, k)
  {
    assert k * (|s.regs| + 1) == k * |s.regs| + k;
    if limit >= 0 {
      assert limit * (|s.regs| + 1) == limit * |s.regs| + limit;
    } else {
      NegativeWatermark(limit, s);
      NegativeWatermark(limit, s');
    }
  }

  lemma NegativeWatermark(limit: int, s: State)
    requires limit < 0
    ensures Watermark(limit, s) < 0
  {
  }

  lemma OpenIsBelow(limit: int, s: State, k: nat)
    requires Backlog(s) < Watermark(limit, s)
    ensures Backlog(s) <= Ceiling(limit, s, k)
  {
    assert k * |s.regs| >= 0;
  }

  lemma SameBacklog(s: State, s': State)
    requires s'.inflight == s.inflight && s'.pendingTotal == s.pendingTotal
    ensures Backlog(s') == Backlog(s)
  {
  }

  lemma GatePasses(c: Config, s: State, p: nat, m: Message)
    ensures GateOpen(c, s) ==> Gate(c, s, p, m).passed == s.passed[p := m]
    ensures !GateOpen(c, s) ==> Gate(c, s, p, m).passed == s.passed
  {
    hide GateOpen;
  }

  /** Passing the gate uses the headroom of one fanout. */
  lemma GateBounded(c: Config, s: State, p: nat, m: Message, k: nat)
    requires c.limit.Some? && Bounded(c.limit.value, s, k) && |Gate(c, s, p, m).passed| <= k
    ensures Bounded(c.limit.value, Gate(c, s, p, m), k)
  {
    var limit, s' := c.limit.value, Gate(c, s, p, m);
    hide Ceiling, Watermark, GateOpen, Backlog, Gate;
    GateSame(c, s, p, m);
    GatePasses(c, s, p, m);
    SameBacklog(s, s');
    CeilingStep(limit, s, s', k - |s'.passed|);
    if GateOpen(c, s) {
      OpenBelow(c, s);
      OpenIsBelow(limit, s, k - |s'.passed|);
    }
  }

  lemma OpenBelow(c: Config, s: State)
    requires c.limit.Some? && GateOpen(c, s)
    ensures Backlog(s) < Watermark(c.limit.value, s)
  {
  }

  lemma HeadroomBack(limit: int, s: State, s': State, k: nat)
    requires s'.regs.Keys == s.regs.Keys && |s'.passed| == |s.passed| - 1 && |s.passed| <= k
    ensures Ceiling(limit, s', k - |s'.passed|) == Ceiling(limit, s, k - |s.passed|) + |s.regs|
  {
    hide Ceiling;
    CeilingStep(limit, s, s', k - |s.passed|);
    CeilingStep(limit, s, s', k - |s'.passed|);
    assert k - |s'.passed| == k - |s.passed| + 1;
  }

  /** A fanout gives the headroom of its publish back. */
  lemma FanoutBounded(limit: int, s: State, s': State, n: nat, k: nat)
    requires Bounded(limit, s, k) && n <= |s.regs| && Backlog(s') <= Backlog(s) + n
    requires s'.regs.Keys == s.regs.Keys && s'.queues.Keys == s.queues.Keys && |s'.passed| == |s.passed| - 1
    ensures Bounded(limit, s', k)
  {
    hide Ceiling, Backlog;
    HeadroomBack(limit, s, s', k);
  }

  lemma ShiftBounded(limit: int, s: State, s': State, k: nat, low: int, high: int)
    requires Bounded(limit, s, k) && Shift(s, s', low, high) && high <= 0
    ensures Bounded(limit, s', k)
  {
    hide Ceiling, Backlog;
    CeilingStep(limit, s, s', k - |s.passed|);
  }

  /** A refresh of the gate touches nothing the bound is about. */
  lemma RefreshBounded(c: Config, limit: int, s: State, k: nat)
    requires Bounded(limit, s, k)
    ensures Bounded(limit, Refresh(c, s), k)
  {
    hide GateOpen, Ceiling;
    CeilingStep(limit, s, Refresh(c, s), k - |s.passed|);
  }

  lemma JoinBounded(c: Config, limit: int, s: State, sub: nat, tokens: seq<string>, replay: bool, k: nat)
    requires Bounded(limit, s, k) && sub !in s.queues
    ensures Bounded(limit, Subscribe(c, s, sub, tokens, replay), k)
  {
    var s' := s.(regs := s.regs[sub := Registration(tokens, replay, [])], queues := s.queues[sub := []]);
    assert sub !in s.regs.Keys;
    hide Ceiling, Refresh;
    CeilingJoins(limit, s, s', k - |s.passed|);
    RefreshBounded(c, limit, s', k);
  }

  lemma SettleBounded(c: Config, limit: int, s: State, root: nat, place: Place, k: nat)
    requires Bounded(limit, s, k) && root in s.chains
    ensures Bounded(limit, Refresh(c, Settled(s, root, place)), k)
  {
    hide Bounded, Shift, Refresh, Settled;
    SettledShift(s, root, place);
    var change := if s.chains[root].cur.id in s.inflight then -1 else 0;
    ShiftBounded(limit, s, Settled(s, root, place), k, change, change);
    RefreshBounded(c, limit, Settled(s, root, place), k);
  }

  lemma AckBounded(c: Config, limit: int, s: State, root: nat, k: nat)
    requires Bounded(limit, s, k) && root in s.chains
    ensures Bounded(limit, Ack(c, s, root), k)
  {
    hide Bounded, Refresh;
    SettleBounded(c, limit, s, root, Acked, k);
  }

  lemma NackBounded(c: Config, s: State, root: nat, limit: int, k: nat)
    requires Books(s, {}) && Bounded(limit, s, k)
    requires root in s.chains && s.chains[root].cur.root == root && s.chains[root].place.Held?
    ensures Bounded(limit, Nack(c, s, root), k)
  {
    hide Books, Bounded, Shift, Refresh, EnterRetry, Schedule;
    if s.chains[root].cur.subscription in s.regs {
      HeldInFlight(s, root);
      RefuseShift(c, s, root);
      ShiftBounded(limit, s, Nack(c, s, root), k, 0, 0);
    } else {
      SettleBounded(c, limit, s, root, Gone, k);
    }
  }

  lemma WakeBounded(c: Config, s: State, root: nat, limit: int, k: nat)
    requires Books(s, {}) && Bounded(limit, s, k) && root in s.chains && s.chains[root].place.Sleeping?
    requires s.chains[root].cur.root == root && s.chains[root].cur.subscription in s.queues
    ensures Bounded(limit, Wake(c, s, root), k)
  {
    hide Books, Shift, Wake, Backlog, Ceiling;
    WakeShift(c, s, root);
    assert s.chains[root].cur.subscription in s.regs.Keys;
    ShiftBounded(limit, s, Wake(c, s, root), k, 0, 0);
  }

  lemma StepBounded(c: Config, s: State, step: Step, k: nat)
    requires c.limit.Some? && Inv(c, s) && Linked(s) && Enabled(s, step) && Calm(step)
    requires Bounded(c.limit.value, s, k) && |Apply(c, s, step).passed| <= k
    ensures Bounded(c.limit.value, Apply(c, s, step), k)
  {
    hide Books, Honest, GateOk, Targets, Bounded, Gate;
    if step.Arrive? {
      GateBounded(c, s, step.p, step.message, k);
    } else if step.Reconsider? {
      GateBounded(c, s, step.p, s.woken[step.p], k);
    } else {
      hide Linked, Apply;
      RestBounded(c, s, step, c.limit.value, k);
    }
  }

  lemma RestBounded(c: Config, s: State, step: Step, limit: int, k: nat)
    requires Books(s, {}) && Linked(s) && Enabled(s, step) && Calm(step) && !step.Arrive? && !step.Reconsider?
    requires Bounded(limit, s, k)
    ensures Bounded(limit, Apply(c, s, step), k)
  {
    hide Books, Targets, Bounded, Shift, Subscribe, DeliverAll, Take, Ack, Nack, Wake;
    match step
    case Fanout(p, targets) => ApplyFanoutBounded(c, s, p, targets, limit, k);
    case Join(sub, tokens, replay) => JoinBounded(c, limit, s, sub, tokens, replay, k);
    case Consume(sub) =>
      assert s.queues[sub][0] in s.queues[sub];
      TakeShift(s, sub);
      ShiftBounded(limit, s, Take(s, sub), k, 0, 0);
    case Acknowledge(root) => AckBounded(c, limit, s, root, k);
    case Refuse(root) => NackBounded(c, s, root, limit, k);
    case WakeUp(root) => WakeBounded(c, s, root, limit, k);
  }

  lemma ApplyFanoutBounded(c: Config, s: State, p: nat, targets: seq<nat>, limit: int, k: nat)
    requires Linked(s) && Enabled(s, Fanout(p, targets)) && Bounded(limit, s, k)
    ensures Bounded(limit, Apply(c, s, Fanout(p, targets)), k)
  {
    hide Bounded, DeliverAll, Backlog;
    var s' := Apply(c, s, Fanout(p, targets));
    DeliverAllShift(c, s, targets, s.passed[p]);
    TargetsFit(s, s.passed[p], targets);
    SameBacklog(DeliverAll(c, s, targets, s.passed[p]), s');
    WithoutSize(s.passed, p);
    FanoutBounded(limit, s, s', |targets|, k);
  }

  /** Nobody leaves or replays, and at most `k` publishes are past the gate and not fanned out, at any
      time of the run. */
  ghost predicate Steady(r: Run, k: nat) {
    && (forall i | 0 <= i < |r.steps| :: Calm(r.steps[i]))
    && (forall i | 0 <= i < |r.states| :: |r.states[i].passed| <= k)
  }

  lemma InitBounded(limit: int, k: nat)
    ensures Bounded(limit, INIT, k)
  {
  }

  lemma TakenBounded(c: Config, r: Run, k: nat, i: nat)
    requires c.limit.Some? && IsRun(c, r) && Steady(r, k) && i < |r.steps| && Bounded(c.limit.value, r.states[i], k)
    ensures Bounded(c.limit.value, r.states[i + 1], k)
  {
    hide Inv, Bounded, Calm, Apply, Linked, Enabled;
    RunInv(c, r, i);
    assert Takes(c, r, i);
    assert Calm(r.steps[i]) && |r.states[i + 1].passed| <= k;
    StepBounded(c, r.states[i], r.steps[i], k);
  }

  lemma {:induction false} RunBounded(c: Config, r: Run, k: nat, i: nat)
    requires c.limit.Some? && IsRun(c, r) && Steady(r, k) && i < |r.states|
    ensures Bounded(c.limit.value, r.states[i], k)
  {
    hide Bounded, Steady, Takes;
    if i == 0 {
      InitBounded(c.limit.value, k);
    } else {
      RunBounded(c, r, k, i - 1);
      TakenBounded(c, r, k, i - 1);
    }
  }

  /** The soft bound: with a positive budget per subscriber and a subscriber, in every run in which nobody
      leaves or replays and at most `k` publishes are past the gate at once, the backlog stays below
      `limit * n + k * n`. */
  lemma SoftBound(c: Config, r: Run, k: nat, i: nat)
    requires c.limit.Some? && c.limit.value >= 1 && IsRun(c, r) && Steady(r, k) && i < |r.states|
    ensures
      var n := |r.states[i].regs|;
      n >= 1 ==> Backlog(r.states[i]) <= c.limit.value * n - 1 + k * n
  {
    RunBounded(c, r, k, i);
    hide IsRun, Steady, Backlog;
    var s := r.states[i];
    if |s.regs| >= 1 {
      CeilingValue(c.limit.value, s, k, k - |s.passed|);
    }
  }

  lemma CeilingValue(limit: int, s: State, k: nat, less: nat)
    requires limit >= 1 && |s.regs| >= 1 && less <= k
    ensures Ceiling(limit, s, less) <= limit * |s.regs| - 1 + k * |s.regs|
  {
    assert k * |s.regs| == less * |s.regs| + (k - less) * |s.regs|;
    assert (k - less) * |s.regs| >= 0;
    assert limit * |s.regs| == |s.regs| + (limit - 1) * |s.regs|;
  }
}
