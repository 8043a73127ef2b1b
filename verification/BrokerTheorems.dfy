/** The main results about the broker's bookkeeping, for every reachable state. */
module BrokerTheorems {
  import opened Types
  import opened Retry
  import opened Counting
  import opened BrokerState
  import opened BrokerInvariant
  import opened BrokerHistory
  import opened BrokerGate
  import opened BrokerRuns

  // ---- Conservation ------------------------------------------------------------------------

  function Ones(bits: seq<bool>): nat {
    if bits == [] then 0 else (if bits[0] then 1 else 0) + Ones(bits[1..])
  }

  ghost predicate InFlight(s: State, d: Delivery) {
    d.id in s.inflight && s.inflight[d.id] == d
  }

  lemma FiveBits(a: bool, b: bool, c: bool, d: bool, e: bool)
    ensures Ones([a, b, c, d, e]) ==
      (if a then 1 else 0) + (if b then 1 else 0) + (if c then 1 else 0) + (if d then 1 else 0) + (if e then 1 else 0)
  {
    assert [a, b, c, d, e][1..] == [b, c, d, e];
    assert [b, c, d, e][1..] == [c, d, e];
    assert [c, d, e][1..] == [d, e];
    assert [d, e][1..] == [e];
    assert Ones([e]) == if e then 1 else 0;
    assert Ones([d, e]) == (if d then 1 else 0) + (if e then 1 else 0);
    assert Ones([c, d, e]) == (if c then 1 else 0) + Ones([d, e]);
    assert Ones([b, c, d, e]) == (if b then 1 else 0) + Ones([c, d, e]);
  }

  lemma StagedIffBuffered(c: Config, s: State, root: nat)
    requires Inv(c, s) && root in s.chains && Sub(s, root) in s.regs
    ensures s.chains[root].place.Staged? <==> s.chains[root].cur in s.regs[Sub(s, root)].buffer
  {
    hide Honest, GateOk, InflightOk, FlyingOk, QueuesOk, PendingOk;
  }

  lemma FlyingIffInFlight(c: Config, s: State, root: nat)
    requires Inv(c, s) && root in s.chains && Sub(s, root) in s.regs
    ensures Flying(s.chains[root].place) <==> InFlight(s, s.chains[root].cur)
  {
    hide Honest, GateOk, QueuesOk, BuffersOk, PendingOk;
  }

  lemma DeadIffBuried(c: Config, s: State, root: nat)
    requires Inv(c, s) && root in s.chains && Sub(s, root) in s.regs
    ensures root !in s.deadRoots && !s.chains[root].place.Gone? && !s.chains[root].place.Dead?
  {
    hide Books, GateOk;
    assert History(c, s, root);
  }

  /** The current delivery of every chain of a registered subscription is in exactly one of the staged
      buffer, the in-flight map, limbo, the acked and the dead-lettered; a queued one is in flight. */
  lemma DeliveriesAreConserved(c: Config, s: State, root: nat)
    requires Reachable(c, s) && root in s.chains && Sub(s, root) in s.regs
    ensures
      var chain, sub := s.chains[root], Sub(s, root);
      && Ones([chain.cur in s.regs[sub].buffer, InFlight(s, chain.cur), root in Limbo(s, sub),
               chain.place.Acked?, root in s.deadRoots]) == 1
      && (sub in s.queues && chain.cur in s.queues[sub] ==> InFlight(s, chain.cur))
  {
    hide Reachable, Inv;
    ReachableInv(c, s);
    StagedIffBuffered(c, s, root);
    FlyingIffInFlight(c, s, root);
    DeadIffBuried(c, s, root);
    QueuedFlies(c, s, root);
    var chain, sub := s.chains[root], Sub(s, root);
    FiveBits(chain.cur in s.regs[sub].buffer, InFlight(s, chain.cur), root in Limbo(s, sub),
             chain.place.Acked?, root in s.deadRoots);
  }

  lemma QueuedFlies(c: Config, s: State, root: nat)
    requires Inv(c, s) && root in s.chains && Sub(s, root) in s.regs
    ensures Sub(s, root) in s.queues && (s.chains[root].cur in s.queues[Sub(s, root)] ==> s.chains[root].place.Queued?)
    ensures forall d <- s.queues[Sub(s, root)] :: InFlight(s, d)
  {
    hide Honest, GateOk, BuffersOk, PendingOk, InflightOk;
  }

  /** Every in-flight entry is the current delivery of one chain, which is queued or held; every delivery
      in a registered subscription's queue is in flight. */
  lemma FieldsMirrorDeliveries(c: Config, s: State)
    requires Reachable(c, s)
    ensures forall i <- s.inflight :: var d := s.inflight[i];
      d.id == i && d.root in s.chains && s.chains[d.root].cur == d && Flying(s.chains[d.root].place)
    ensures forall sub | sub in s.regs && sub in s.queues :: forall d <- s.queues[sub] :: InFlight(s, d)
  {
    ReachableInv(c, s);
    hide Reachable, Honest, GateOk, BuffersOk, PendingOk;
  }

  /** `_retry_pending` is each registered subscription's number of chains in limbo, without zero entries
      and without entries of others; `_retry_pending_total` is its sum. */
  lemma CountersMirrorLimbo(c: Config, s: State)
    requires Reachable(c, s)
    ensures forall sub <- s.regs :: Value(s.pending, sub) == |Limbo(s, sub)|
    ensures forall sub <- s.pending :: sub in s.regs && s.pending[sub] > 0
    ensures s.pendingTotal == Sum(s.pending) == |LiveLimbo(s)|
  {
    ReachableInv(c, s);
    hide Reachable, Honest, GateOk, QueuesOk, BuffersOk, Placed;
  }

  // ---- The backlog -------------------------------------------------------------------------

  /** Unacked work of registered subscriptions outside the staged buffers. */
  ghost function LiveWork(s: State): set<nat> {
    set root |
      root in s.chains && Sub(s, root) in s.regs && (Flying(s.chains[root].place) || InLimbo(s.chains[root].place))
  }

  /** Chains that a late wakeup has put in flight for a subscription that is gone. */
  ghost function Zombies(s: State): set<nat> {
    set root | root in s.chains && Sub(s, root) !in s.regs && s.chains[root].cur.id in s.inflight
  }

  ghost function FlightRoots(s: State): set<nat> {
    set root | root in s.chains && s.chains[root].cur.id in s.inflight
  }

  function CurrentIds(s: State): map<nat, nat> {
    map root | root in s.chains :: s.chains[root].cur.id
  }

  lemma FlightSize(s: State)
    requires Placed(s)
    ensures |s.inflight| == |FlightRoots(s)|
  {
    ImageSize(FlightRoots(s), CurrentIds(s), s.inflight.Keys) by {
      forall i <- s.inflight
        ensures s.inflight[i].root in FlightRoots(s) && CurrentIds(s)[s.inflight[i].root] == i
      {
      }
    }
  }

  lemma FlightSplits(s: State)
    requires Placed(s)
    ensures FlightRoots(s) + LiveLimbo(s) == LiveWork(s) + Zombies(s)
    ensures FlightRoots(s) !! LiveLimbo(s) && LiveWork(s) !! Zombies(s)
  {
    forall root <- s.chains
      ensures s.chains[root].cur.id in s.inflight ==> Flying(s.chains[root].place)
    {
      var id := s.chains[root].cur.id;
      if id in s.inflight {
        assert s.owner[id] == root;
        FlightHasOwner(s);
      }
    }
  }

  lemma UnionSizes(a: set<nat>, b: set<nat>, x: set<nat>, y: set<nat>)
    requires a + b == x + y && a !! b && x !! y
    ensures |a| + |b| == |x| + |y|
  {
    assert |a + b| == |a| + |b|;
    assert |x + y| == |x| + |y|;
  }

  /** The backlog counts exactly the live unacked work plus the zombies, so it never under-counts. */
  lemma BacklogIsExact(c: Config, s: State)
    requires Reachable(c, s)
    ensures Backlog(s) == |LiveWork(s)| + |Zombies(s)|
  {
    hide Reachable, Honest, GateOk, QueuesOk, BuffersOk, LiveWork, Zombies, FlightRoots, LiveLimbo;
    ReachableInv(c, s);
    BooksParts(s, {});
    FlightSize(s);
    FlightSplits(s);
    UnionSizes(FlightRoots(s), LiveLimbo(s), LiveWork(s), Zombies(s));
  }

  // ---- The gate ----------------------------------------------------------------------------

  /** The budget once for each registration, and once when there is none. */
  lemma WatermarkMeans(limit: int, s: State)
    ensures Watermark(limit, s) == limit * (if |s.regs| == 0 then 1 else |s.regs|)
  {
  }

  /** No lost wakeup: whenever the gate is closed, and whenever a producer is parked on it, the backlog is
      at the budget for all registrations or above. */
  lemma NoLostAdmission(c: Config, s: State)
    requires Reachable(c, s) && (!s.admit || s.parked != map[])
    ensures c.limit.Some? && Backlog(s) >= c.limit.value * (if |s.regs| == 0 then 1 else |s.regs|)
  {
    hide Reachable, Books, Honest, Backlog, Watermark;
    ReachableInv(c, s);
    if c.limit.Some? {
      WatermarkMeans(c.limit.value, s);
    }
  }

  // ---- Retry chains ------------------------------------------------------------------------

  /** A chain's deliveries count their attempts 1, 2, 3, ... with one message and one subscription, within
      the budget. */
  lemma ChainsAreRetries(c: Config, s: State, root: nat)
    requires Reachable(c, s) && root in s.chains
    ensures
      var trail := s.chains[root].trail;
      && 1 <= |trail| <= Max(1, c.policy.maxAttempts - 1)
      && trail[0].id == root && trail[|trail| - 1] == s.chains[root].cur
      && (forall i | 0 <= i < |trail| ::
            trail[i].attempt == i + 1 && trail[i].message == trail[0].message
                && trail[i].subscription == trail[0].subscription)
  {
    ReachableInv(c, s);
    hide Reachable, Books, GateOk, IsChain;
    assert History(c, s, root);
    ChainEnds(c.policy, s.chains[root].trail);
    ChainAttempts(c.policy, s.chains[root].trail);
  }

  /** Every dead letter is that of a chain which used its whole budget and whose subscription is evicted. */
  lemma DeadLettersAreSpent(c: Config, s: State, i: nat)
    requires Reachable(c, s) && i < |s.dlq|
    ensures
      i < |s.deadRoots| && s.deadRoots[i] in s.chains &&
      var cur := s.chains[s.deadRoots[i]].cur;
      s.dlq[i] == DlqEntry(cur.message, cur.subscription, Max(2, c.policy.maxAttempts)) && cur.subscription !in s.regs
  {
    ReachableInv(c, s);
    hide Reachable, Books, GateOk, IsChain, DeadLetter, Exhausted;
    var root := s.deadRoots[i];
    assert History(c, s, root);
    ChainEnds(c.policy, s.chains[root].trail);
    ChainAttempts(c.policy, s.chains[root].trail);
  }

  /** A chain is dead-lettered at most once. */
  lemma DeadLetteredOnce(c: Config, s: State, i: nat, j: nat)
    requires Reachable(c, s) && i < j < |s.dlq|
    ensures j < |s.deadRoots| && s.deadRoots[i] != s.deadRoots[j]
  {
    ReachableInv(c, s);
    hide Reachable, Books, GateOk, Histories;
  }
}
