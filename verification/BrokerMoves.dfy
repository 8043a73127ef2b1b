/** What exactly each step does to the deliveries that are there, and what a fanout makes. */
module BrokerMoves {
  import opened Types
  import opened Retry
  import opened Sorting
  import opened Router
  import opened Counting
  import opened BrokerState
  import opened BrokerInvariant
  import opened BrokerHistory
  import opened BrokerRuns
  import opened BrokerCopies
  import opened BrokerLifecycle
  import opened BrokerFlights

  // ---- The deliveries that are there -------------------------------------------------------

  /** Where a nack, or a full queue, leaves an attempt: in the backoff, or on its way to the dead letters if
      the next attempt would use up the budget. */
  function Limbo(c: Config, attempt: int): Place {
    if attempt + 1 >= c.policy.maxAttempts then DeadLettering else Sleeping
  }

  lemma NackExactly(c: Config, s: State, root: nat)
    requires root in s.chains && s.chains[root].cur.root == root
    ensures
      var chain := s.chains[root];
      var place := if chain.cur.subscription !in s.regs then Gone else Limbo(c, chain.cur.attempt);
      Nack(c, s, root).chains == s.chains[root := chain.(place := place)]
  {
    var d := s.chains[root].cur;
    RefreshSame(c, Settled(s, root, Gone));
    hide Refresh, Value, Schedule, EnterRetry;
    EnterMoves(s.(inflight := s.inflight - {d.id}), d.subscription);
    ScheduleMoves(c, EnterRetry(s.(inflight := s.inflight - {d.id}), d.subscription), d);
  }

  lemma WakeExactly(c: Config, s: State, root: nat)
    requires root in s.chains && s.chains[root].cur.root == root && s.chains[root].cur.subscription in s.queues
    ensures
      var chain := s.chains[root];
      var d := chain.cur.(id := s.nextId, attempt := chain.cur.attempt + 1);
      var place := if |s.queues[d.subscription]| < 128 then Queued else Limbo(c, d.attempt);
      Wake(c, s, root).chains == s.chains[root := Chain(d, place, chain.trail + [d])]
  {
    hide Renewed, Requeue, Schedule;
    var d := Redelivered(s.chains[root].cur, s.nextId);
    RenewedMoves(s, root);
    if HasRoom(s, d.subscription) {
      RequeueMoves(Renewed(s, root), d);
    } else {
      ScheduleMoves(c, Renewed(s, root), d);
    }
  }

  /** What a step other than a flush does to the deliveries that are there. */
  ghost predicate MovesExactly(c: Config, s: State, s': State, step: Step)
    requires Linked(s) && Enabled(s, step)
  {
    match step
    case Consume(sub) =>
      var root := s.queues[sub][0].root;
      root in s.chains && s'.chains == s.chains[root := s.chains[root].(place := Held)]
    case Acknowledge(root) => s'.chains == s.chains[root := s.chains[root].(place := Acked)]
    case Refuse(root) =>
      var chain := s.chains[root];
      var place := if chain.cur.subscription !in s.regs then Gone else Limbo(c, chain.cur.attempt);
      s'.chains == s.chains[root := chain.(place := place)]
    case WakeUp(root) =>
      var chain := s.chains[root];
      var d := chain.cur.(id := s.nextId, attempt := chain.cur.attempt + 1);
      var place := if |s.queues[d.subscription]| < 128 then Queued else Limbo(c, d.attempt);
      s'.chains == s.chains[root := Chain(d, place, chain.trail + [d])]
    case Bury(root) => s'.chains == s.chains[root := s.chains[root].(place := Dead)]
    case Fanout(_, _) => forall root <- s.chains :: root in s'.chains && s'.chains[root] == s.chains[root]
    case _ => s'.chains == s.chains
  }

  /** Every step other than a flush leaves every delivery as it is but for these: a taken one is held, an
      acked one acked, a refused one in limbo or freed with its subscription, a woken one redelivered into
      the queue or back into limbo, and a dead-lettered one dead. */
  lemma ChainsMoveExactly(c: Config, s: State, step: Step)
    requires Books(s, {}) && Linked(s) && Enabled(s, step) && !step.FlushReplay?
    ensures MovesExactly(c, s, Apply(c, s, step), step)
  {
    hide Books, MovesExactly, Apply, Enabled, Linked;
    if step.Refuse? || step.WakeUp? {
      RetryMoves(c, s, step);
    } else if step.Consume? || step.Acknowledge? || step.Bury? || step.Fanout? {
      OneMoves(c, s, step);
    } else {
      NothingMoves(c, s, step);
    }
  }

  lemma RetryMoves(c: Config, s: State, step: Step)
    requires Linked(s) && Enabled(s, step) && (step.Refuse? || step.WakeUp?)
    ensures MovesExactly(c, s, Apply(c, s, step), step)
  {
    hide Nack, Wake, Limbo;
    if step.Refuse? {
      NackExactly(c, s, step.root);
    } else {
      WakeExactly(c, s, step.root);
    }
  }

  lemma OneMoves(c: Config, s: State, step: Step)
    requires Books(s, {}) && Linked(s) && Enabled(s, step)
    requires step.Consume? || step.Acknowledge? || step.Bury? || step.Fanout?
    ensures MovesExactly(c, s, Apply(c, s, step), step)
  {
    hide Books, DeliverAll, Take, Ack, BuryAndEvict;
    match step
    case Consume(sub) => TakeExactly(s, sub);
    case Acknowledge(root) => AckMoves(c, s, root);
    case Bury(root) => BuryChains(c, s, root);
    case Fanout(p, targets) => FanoutUnmoved(c, s, p, targets);
  }

  lemma NothingMoves(c: Config, s: State, step: Step)
    requires Linked(s) && Enabled(s, step)
    requires step.Arrive? || step.Reconsider? || step.Join? || step.FailReplay? || step.Leave?
    ensures MovesExactly(c, s, Apply(c, s, step), step)
  {
    hide Apply, Linked, Enabled;
    OtherChains(c, s, step);
  }

  lemma TakeExactly(s: State, sub: nat)
    requires Linked(s) && sub in s.queues && s.queues[sub] != []
    ensures
      var d := s.queues[sub][0];
      d in s.queues[sub] && d.root in s.chains
      && Take(s, sub).chains == s.chains[d.root := s.chains[d.root].(place := Held)]
  {
    assert s.queues[sub][0] in s.queues[sub];
  }

  // ---- Dead letters ------------------------------------------------------------------------

  lemma EnqueueGraves(c: Config, s: State, d: Delivery)
    requires d.root in s.chains && d.subscription in s.queues
    ensures SameGraves(s, Enqueue(c, s, d))
  {
    hide PutQueue, Schedule, EnterRetry, HasRoom;
    if HasRoom(s, d.subscription) {
      PutMakes(s, d);
    } else {
      EnterMakes(s, d.subscription);
      ScheduleMoves(c, EnterRetry(s, d.subscription), d);
    }
  }

  lemma PutMakes(s: State, d: Delivery)
    requires d.root in s.chains && d.subscription in s.queues
    ensures
      var s' := PutQueue(s, d);
      && SameGraves(s, s') && s'.nextId == s.nextId && s'.regs == s.regs
      && s'.queues == s.queues[d.subscription := s.queues[d.subscription] + [d]]
      && s'.chains == s.chains[d.root := s.chains[d.root].(place := Queued)]
  {
  }

  lemma EnterMakes(s: State, sub: nat)
    ensures
      var s' := EnterRetry(s, sub);
      && SameGraves(s, s') && s'.nextId == s.nextId && s'.regs == s.regs && s'.queues == s.queues
      && s'.chains == s.chains
  {
    hide Value;
  }

  lemma DeliverGraves(c: Config, s: State, sub: nat, m: Message)
    requires sub in s.regs && sub in s.queues
    ensures SameGraves(s, Deliver(c, s, sub, m)) && SameGraves(s, Offer(c, s, sub, m))
  {
    hide Enqueue;
    EnqueueGraves(c, NewChain(s, NewDelivery(s, sub, m)), NewDelivery(s, sub, m));
  }

  lemma {:induction false} DeliverAllGraves(c: Config, s: State, targets: seq<nat>, m: Message)
    requires forall sub <- targets :: sub in s.regs && sub in s.queues
    ensures SameGraves(s, DeliverAll(c, s, targets, m))
    decreases |targets|
  {
    if targets != [] {
      hide Deliver;
      assert targets[0] in targets;
      DeliverGraves(c, s, targets[0], m);
      DeliverAllGraves(c, Deliver(c, s, targets[0], m), targets[1..], m);
    }
  }

  lemma {:induction false} OfferHistoryGraves(c: Config, s: State, sub: nat, history: seq<Message>)
    requires sub in s.regs && sub in s.queues
    ensures SameGraves(s, OfferHistory(c, s, sub, history))
    decreases |history|
  {
    if history != [] {
      hide Offer;
      DeliverGraves(c, s, sub, history[0]);
      OfferHistoryGraves(c, Offer(c, s, sub, history[0]), sub, history[1..]);
    }
  }

  lemma {:induction false} OfferAllGraves(c: Config, s: State, ds: seq<Delivery>)
    requires forall d <- ds :: d.root in s.chains && d.subscription in s.queues
    ensures SameGraves(s, OfferAll(c, s, ds))
    decreases |ds|
  {
    if ds != [] {
      hide Enqueue;
      assert ds[0] in ds;
      EnqueueGraves(c, s, ds[0]);
      OfferAllGraves(c, Enqueue(c, s, ds[0]), ds[1..]);
    }
  }

  lemma FlushGraves(c: Config, s: State, sub: nat, history: seq<Message>)
    requires BufferKnown(s, sub)
    ensures SameGraves(s, Flush(c, s, sub, history))
  {
    hide OfferHistory, OfferAll, Matching;
    SortMembers(s.regs[sub].buffer);
    var matching := Matching(s.regs[sub].tokens, history);
    OfferHistoryGraves(c, GoLive(s, sub), sub, matching);
    OfferAllGraves(c, OfferHistory(c, GoLive(s, sub), sub, matching), Sort(s.regs[sub].buffer, BufferKey));
  }

  /** Dead letters are only ever added, at the end, by the step that dead-letters a chain: its message, its
      subscription and one attempt more than it has made. */
  lemma DeadLettersGrowExactly(c: Config, s: State, step: Step)
    requires Linked(s) && Enabled(s, step)
    ensures
      var s' := Apply(c, s, step);
      if step.Bury? then
        var cur := s.chains[step.root].cur;
        && s'.dlq == s.dlq + [DlqEntry(cur.message, cur.subscription, cur.attempt + 1)]
        && s'.deadRoots == s.deadRoots + [step.root]
      else SameGraves(s, s')
  {
    hide DeliverAll, Flush, Take, Nack, Wake, Refresh, Gate, Subscribe, Remove, Dropped;
    match step
    case Arrive(p, m) => GateGraves(c, s, p, m);
    case Reconsider(p) => GateGraves(c, s, p, s.woken[p]);
    case Fanout(p, targets) => FanoutGraves(c, s, p, targets);
    case Join(sub, tokens, replay) => JoinGraves(c, s, sub, tokens, replay);
    case FlushReplay(sub, history) => FlushGraves(c, s, sub, history);
    case FailReplay(sub) =>
    case Consume(sub) => TakeGraves(s, sub);
    case Acknowledge(root) => RefreshGraves(c, Settled(s, root, Acked));
    case Refuse(root) => NackGraves(c, s, root);
    case WakeUp(root) => WakeMoves(c, s, root);
    case Bury(root) => BuryGraves(c, s, root);
    case Leave(sub) => LeaveGraves(c, s, sub);
  }

  lemma RefreshGraves(c: Config, s: State)
    ensures SameGraves(s, Refresh(c, s))
  {
    hide GateOpen;
  }

  lemma GateGraves(c: Config, s: State, p: nat, m: Message)
    ensures SameGraves(s, Gate(c, s, p, m))
  {
    hide GateOpen;
    if GateOpen(c, s) {
    } else {
    }
  }

  lemma FanoutGraves(c: Config, s: State, p: nat, targets: seq<nat>)
    requires Linked(s) && Enabled(s, Fanout(p, targets))
    ensures SameGraves(s, Apply(c, s, Fanout(p, targets)))
  {
    hide DeliverAll;
    DeliverAllGraves(c, s, targets, s.passed[p]);
  }

  lemma JoinGraves(c: Config, s: State, sub: nat, tokens: seq<string>, replay: bool)
    ensures SameGraves(s, Subscribe(c, s, sub, tokens, replay))
  {
    hide Refresh;
    RefreshGraves(c, s.(regs := s.regs[sub := Registration(tokens, replay, [])], queues := s.queues[sub := []]));
  }

  lemma TakeGraves(s: State, sub: nat)
    requires Linked(s) && sub in s.queues && s.queues[sub] != []
    ensures s.queues[sub][0] in s.queues[sub] && SameGraves(s, Take(s, sub))
  {
    assert s.queues[sub][0] in s.queues[sub];
  }

  lemma NackGraves(c: Config, s: State, root: nat)
    requires root in s.chains && s.chains[root].cur.root == root
    ensures SameGraves(s, Nack(c, s, root))
  {
    hide Refresh, Schedule, EnterRetry;
    var d := s.chains[root].cur;
    var s1 := s.(inflight := s.inflight - {d.id});
    RefreshGraves(c, Settled(s, root, Gone));
    EnterMakes(s1, d.subscription);
    ScheduleMoves(c, EnterRetry(s1, d.subscription), d);
  }

  lemma BuryGraves(c: Config, s: State, root: nat)
    requires root in s.chains
    ensures
      var s', cur := BuryAndEvict(c, s, root), s.chains[root].cur;
      && s'.dlq == s.dlq + [DlqEntry(cur.message, cur.subscription, cur.attempt + 1)]
      && s'.deadRoots == s.deadRoots + [root]
  {
    hide Refresh, Value;
    RefreshGraves(c, Buried(Dropped(s, s.chains[root].cur.subscription), root));
  }

  lemma LeaveGraves(c: Config, s: State, sub: nat)
    ensures SameGraves(s, Remove(c, s, sub))
  {
    hide Refresh, Value;
    RefreshGraves(c, Dropped(s, sub));
  }

  // ---- What a fanout makes -----------------------------------------------------------------

  /** The first attempt for the `i`-th target. */
  function First(s: State, targets: seq<nat>, m: Message, i: nat): Delivery
    requires i < |targets|
  {
    Delivery(s.nextId + i, targets[i], m, 1, s.nextId + i)
  }

  /** `d` was made and is staged at the end of its registration's buffer while that replays, queued at the
      end of its queue if there is room, and in limbo otherwise. */
  ghost predicate Made(c: Config, s: State, s': State, d: Delivery) {
    && d.subscription in s.regs && d.subscription in s.queues
    && d.subscription in s'.regs && d.subscription in s'.queues && d.root in s'.chains
    && var reg, queue, place := s.regs[d.subscription], s.queues[d.subscription], s'.chains[d.root].place;
    && s'.chains[d.root] == Chain(d, place, [d])
    && (reg.replaying ==>
          && place.Staged? && s'.regs[d.subscription] == reg.(buffer := reg.buffer + [d])
          && s'.queues[d.subscription] == queue)
    && (!reg.replaying ==> s'.regs[d.subscription] == reg)
    && (!reg.replaying && |queue| < 128 ==> place.Queued? && s'.queues[d.subscription] == queue + [d])
    && (!reg.replaying && |queue| >= 128 ==> place == Limbo(c, 1) && s'.queues[d.subscription] == queue)
  }

  /** Registrations and queues of all but `sub` are the same. */
  predicate ElseSame(s: State, s': State, sub: nat) {
    && s'.regs.Keys == s.regs.Keys && s'.queues.Keys == s.queues.Keys
    && (forall q <- s.regs | q != sub :: s'.regs[q] == s.regs[q])
    && (forall q <- s.queues | q != sub :: s'.queues[q] == s.queues[q])
  }

  lemma EnqueueMakes(c: Config, s: State, d: Delivery)
    requires d.root in s.chains && d.subscription in s.queues
    ensures
      var s', queue := Enqueue(c, s, d), s.queues[d.subscription];
      && ElseSame(s, s', d.subscription) && s'.regs == s.regs && s'.nextId == s.nextId
      && d.root in s'.chains && s'.chains[d.root] == s.chains[d.root].(place := s'.chains[d.root].place)
      && (|queue| < 128 ==> s'.chains[d.root].place.Queued? && s'.queues[d.subscription] == queue + [d])
      && (|queue| >= 128 ==>
            s'.chains[d.root].place == Limbo(c, d.attempt) && s'.queues[d.subscription] == queue)
  {
    hide PutQueue, EnterRetry, Schedule;
    if HasRoom(s, d.subscription) {
      PutMakes(s, d);
    } else {
      EnterMakes(s, d.subscription);
      ScheduleMoves(c, EnterRetry(s, d.subscription), d);
      ScheduleQueues(c, EnterRetry(s, d.subscription), d);
    }
  }

  lemma ScheduleQueues(c: Config, s: State, d: Delivery)
    requires d.root in s.chains
    ensures Schedule(c, s, d).queues == s.queues && Schedule(c, s, d).nextId == s.nextId
  {
    hide Exhausted;
  }

  lemma DeliverMakes(c: Config, s: State, sub: nat, m: Message)
    requires sub in s.regs && sub in s.queues
    ensures
      var s', d := Deliver(c, s, sub, m), Delivery(s.nextId, sub, m, 1, s.nextId);
      s'.nextId == s.nextId + 1 && Made(c, s, s', d) && ElseSame(s, s', sub)
  {
    hide Made, ElseSame, Deliver;
    if s.regs[sub].replaying {
      StageMakes(c, s, sub, m);
    } else {
      OfferMakes(c, s, sub, m);
    }
  }

  lemma StageMakes(c: Config, s: State, sub: nat, m: Message)
    requires sub in s.regs && sub in s.queues && s.regs[sub].replaying
    ensures
      var s', d := Deliver(c, s, sub, m), Delivery(s.nextId, sub, m, 1, s.nextId);
      s'.nextId == s.nextId + 1 && Made(c, s, s', d) && ElseSame(s, s', sub)
  {
    hide Offer, Limbo;
  }

  lemma OfferMakes(c: Config, s: State, sub: nat, m: Message)
    requires sub in s.regs && sub in s.queues && !s.regs[sub].replaying
    ensures
      var s', d := Deliver(c, s, sub, m), Delivery(s.nextId, sub, m, 1, s.nextId);
      s'.nextId == s.nextId + 1 && Made(c, s, s', d) && ElseSame(s, s', sub)
  {
    hide Enqueue, Limbo;
    var d := NewDelivery(s, sub, m);
    EnqueueMakes(c, NewChain(s, d), d);
  }

  /** One first attempt for each target, in the order of the targets and under fresh ids, and nothing for
      anybody else. */
  ghost predicate FannedOut(c: Config, s: State, s': State, targets: seq<nat>, m: Message) {
    && s'.nextId == s.nextId + |targets|
    && s'.regs.Keys == s.regs.Keys && s'.queues.Keys == s.queues.Keys
    && (forall i | 0 <= i < |targets| :: Made(c, s, s', First(s, targets, m, i)))
    && (forall sub <- s.regs | sub !in targets :: s'.regs[sub] == s.regs[sub])
    && (forall sub <- s.queues | sub !in targets :: s'.queues[sub] == s.queues[sub])
  }

  lemma NobodyGets(c: Config, s: State, m: Message)
    ensures FannedOut(c, s, s, [], m)
  {
  }

  lemma {:induction false} DeliverAllMakes(c: Config, s: State, targets: seq<nat>, m: Message)
    requires Books(s, {}) && (forall sub <- targets :: sub in s.regs && sub in s.queues)
    requires forall i, j | 0 <= i < j < |targets| :: targets[i] != targets[j]
    ensures FannedOut(c, s, DeliverAll(c, s, targets, m), targets, m)
    decreases |targets|
  {
    hide Books, Deliver, Made, ElseSame, FannedOut;
    if targets == [] {
      NobodyGets(c, s, m);
    } else {
      var sub, rest := targets[0], targets[1..];
      assert sub in targets && forall q <- rest :: q in targets;
      var s1 := Deliver(c, s, sub, m);
      DeliverMakes(c, s, sub, m);
      ElseKeys(s, s1, sub);
      DeliverBooks(c, s, sub, m);
      DeliverAllMakes(c, s1, rest, m);
      DeliverAllUnmoved(c, s1, rest, m);
      MakesThen(c, s, s1, DeliverAll(c, s1, rest, m), targets, m);
    }
  }

  /** A fanout makes exactly these. */
  lemma FanoutMakesExactly(c: Config, s: State, p: nat, targets: seq<nat>)
    requires Books(s, {}) && Linked(s) && Enabled(s, Fanout(p, targets))
    ensures FannedOut(c, s, Apply(c, s, Fanout(p, targets)), targets, s.passed[p])
  {
    hide Books, DeliverAll, Made;
    DeliverAllMakes(c, s, targets, s.passed[p]);
    forall i | 0 <= i < |targets|
      ensures Made(c, s, Apply(c, s, Fanout(p, targets)), First(s, targets, s.passed[p], i))
    {
      MadeAlike(c, s, DeliverAll(c, s, targets, s.passed[p]), Apply(c, s, Fanout(p, targets)),
                First(s, targets, s.passed[p], i));
    }
  }

  lemma MadeAlike(c: Config, s: State, s1: State, s': State, d: Delivery)
    requires Made(c, s, s1, d) && s'.chains == s1.chains && s'.regs == s1.regs && s'.queues == s1.queues
    ensures Made(c, s, s', d)
  {
  }

  lemma ElseKeys(s: State, s': State, sub: nat)
    requires ElseSame(s, s', sub)
    ensures s'.regs.Keys == s.regs.Keys && s'.queues.Keys == s.queues.Keys
    ensures forall q <- s.regs | q != sub :: q in s'.regs && s'.regs[q] == s.regs[q]
    ensures forall q <- s.queues | q != sub :: q in s'.queues && s'.queues[q] == s.queues[q]
  {
  }

  lemma MakesThen(c: Config, s: State, s1: State, s': State, targets: seq<nat>, m: Message)
    requires targets != [] && forall i, j | 0 <= i < j < |targets| :: targets[i] != targets[j]
    requires Made(c, s, s1, First(s, targets, m, 0)) && ElseSame(s, s1, targets[0]) && s1.nextId == s.nextId + 1
    requires FannedOut(c, s1, s', targets[1..], m)
    requires forall root <- s1.chains :: root in s'.chains && s'.chains[root] == s1.chains[root]
    ensures FannedOut(c, s, s', targets, m)
  {
    hide Made;
    var sub, rest := targets[0], targets[1..];
    assert sub !in rest && forall q <- rest :: q in targets;
    MadeKnown(c, s, s1, First(s, targets, m, 0));
    MadeLater(c, s, s1, s', First(s, targets, m, 0));
    forall i | 0 < i < |targets|
      ensures Made(c, s, s', First(s, targets, m, i))
    {
      assert First(s, targets, m, i) == First(s1, rest, m, i - 1);
      assert targets[i] == rest[i - 1] && targets[i] != sub;
      MadeSince(c, s, s1, s', First(s, targets, m, i), sub);
    }
  }

  lemma MadeKnown(c: Config, s: State, s': State, d: Delivery)
    requires Made(c, s, s', d)
    ensures d.root in s'.chains && d.subscription in s'.regs && d.subscription in s'.queues
  {
  }

  lemma MadeLater(c: Config, s: State, s1: State, s': State, d: Delivery)
    requires Made(c, s, s1, d) && d.root in s'.chains && s'.chains[d.root] == s1.chains[d.root]
    requires d.subscription in s'.regs && s'.regs[d.subscription] == s1.regs[d.subscription]
    requires d.subscription in s'.queues && s'.queues[d.subscription] == s1.queues[d.subscription]
    ensures Made(c, s, s', d)
  {
  }

  lemma MadeSince(c: Config, s: State, s1: State, s': State, d: Delivery, sub: nat)
    requires Made(c, s1, s', d) && ElseSame(s, s1, sub) && d.subscription != sub
    ensures Made(c, s, s', d)
  {
  }

  // ---- Staging -----------------------------------------------------------------------------

  lemma FanoutStages(c: Config, s: State, targets: seq<nat>, m: Message, sub: nat)
    requires Books(s, {}) && (forall q <- targets :: q in s.regs && q in s.queues) && sub in s.regs
    requires forall i, j | 0 <= i < j < |targets| :: targets[i] != targets[j]
    ensures
      var s' := DeliverAll(c, s, targets, m);
      sub in s'.regs && s.regs[sub].buffer <= s'.regs[sub].buffer
  {
    hide Books, DeliverAll;
    DeliverAllMakes(c, s, targets, m);
    if sub in targets {
      var i :| 0 <= i < |targets| && targets[i] == sub;
      assert Made(c, s, DeliverAll(c, s, targets, m), First(s, targets, m, i));
    }
  }

  /** What is staged stays staged in the order in which it was published, and later publishes come behind,
      until the registration leaves replay mode or is removed. */
  lemma StagedInOrder(c: Config, s: State, step: Step, sub: nat)
    requires Books(s, {}) && Linked(s) && Enabled(s, step) && sub in s.regs && sub in Apply(c, s, step).regs
    requires !(step.FlushReplay? && step.sub == sub)
    ensures s.regs[sub].buffer <= Apply(c, s, step).regs[sub].buffer
  {
    hide Books, DeliverAll, Flush, Ack, Nack, BuryAndEvict, Remove, Dropped, Wake, HasRoom, Take, Gate, Refresh;
    match step
    case Arrive(p, m) => GateSame(c, s, p, m);
    case Reconsider(p) => GateSame(c, s, p, s.woken[p]);
    case Fanout(p, targets) => FanoutStages(c, s, targets, s.passed[p], sub);
    case Join(q, tokens, replay) =>
      RefreshSame(c, s.(regs := s.regs[q := Registration(tokens, replay, [])], queues := s.queues[q := []]));
    case FlushReplay(q, history) => FlushRegs(c, s, q, history);
    case FailReplay(q) =>
    case Consume(q) => TakeFlights(s, q);
    case Acknowledge(r) => AckLands(c, s, r);
    case Refuse(r) => NackLands(c, s, r);
    case WakeUp(r) => WakeFlights(c, s, r);
    case Bury(r) => BuryLands(c, s, r);
    case Leave(q) => LeaveLands(c, s, q);
  }
}
