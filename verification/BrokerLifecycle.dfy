/** The life of a delivery chain: which step may move it from where to where. */
module BrokerLifecycle {
  import opened Types
  import opened Retry
  import opened Sorting
  import opened Router
  import opened Counting
  import opened BrokerState
  import opened BrokerInvariant
  import opened BrokerHistory
  import opened BrokerRuns
  import opened BrokerReplay
  import opened BrokerCopies

  /** The moves that a step may make with the chain `root` when it keeps the current delivery. */
  predicate Edge(step: Step, root: nat, from: Place, to: Place) {
    match step
    case FlushReplay(_, _) => from.Staged? && (to.Queued? || to.Sleeping? || to.DeadLettering?)
    case Consume(_) => from.Queued? && to.Held?
    case Acknowledge(r) => r == root && from.Held? && to.Acked?
    case Refuse(r) => r == root && from.Held? && (to.Gone? || to.Sleeping? || to.DeadLettering?)
    case Bury(r) => r == root && from.DeadLettering? && to.Dead?
    case _ => false
  }

  /** A chain stays as it is, or moves along an edge, or, when its backoff is over, goes on with the next
      attempt, under a fresh id. */
  ghost predicate LegalMove(s: State, s': State, step: Step, root: nat)
    requires root in s.chains && root in s'.chains
  {
    var chain, chain' := s.chains[root], s'.chains[root];
    || chain' == chain
    || (chain' == chain.(place := chain'.place) && Edge(step, root, chain.place, chain'.place))
    || (&& step == WakeUp(root) && chain.place.Sleeping? && chain'.cur == Redelivered(chain.cur, s.nextId)
        && chain'.trail == chain.trail + [chain'.cur]
        && (chain'.place.Queued? || chain'.place.Sleeping? || chain'.place.DeadLettering?))
  }

  ghost predicate LegalStep(s: State, s': State, step: Step) {
    forall root <- s.chains :: root in s'.chains && LegalMove(s, s', step, root)
  }

  lemma Unmoved(s: State, s': State, step: Step)
    requires forall root <- s.chains :: root in s'.chains && s'.chains[root] == s.chains[root]
    ensures LegalStep(s, s', step)
  {
  }

  lemma OneMoves(s: State, s': State, step: Step, root: nat)
    requires root in s.chains && root in s'.chains && s'.chains == s.chains[root := s'.chains[root]]
    requires LegalMove(s, s', step, root)
    ensures LegalStep(s, s', step)
  {
    hide Edge;
  }

  // ---- Fanout ------------------------------------------------------------------------------

  lemma DeliverUnmoved(c: Config, s: State, sub: nat, m: Message)
    requires ChainsOk(s) && sub in s.regs && sub in s.queues
    ensures
      var s' := Deliver(c, s, sub, m);
      forall root <- s.chains :: root in s'.chains && s'.chains[root] == s.chains[root]
  {
    if s.regs[sub].replaying {
      ChainUnknown(s);
      hide ChainsOk;
    } else {
      hide ChainsOk, Offer;
      OfferOthers(c, s, sub, m);
    }
  }

  lemma {:induction false} DeliverAllUnmoved(c: Config, s: State, targets: seq<nat>, m: Message)
    requires Books(s, {}) && forall sub <- targets :: sub in s.regs && sub in s.queues
    ensures
      var s' := DeliverAll(c, s, targets, m);
      forall root <- s.chains :: root in s'.chains && s'.chains[root] == s.chains[root]
    decreases |targets|
  {
    if targets != [] {
      hide Books, ChainsOk, Deliver;
      assert targets[0] in targets;
      BooksChains(s, {});
      DeliverUnmoved(c, s, targets[0], m);
      DeliverBooks(c, s, targets[0], m);
      DeliverAllUnmoved(c, Deliver(c, s, targets[0], m), targets[1..], m);
    }
  }

  lemma FanoutUnmoved(c: Config, s: State, p: nat, targets: seq<nat>)
    requires Books(s, {}) && Linked(s) && Enabled(s, Fanout(p, targets))
    ensures
      var s' := Apply(c, s, Fanout(p, targets));
      forall root <- s.chains :: root in s'.chains && s'.chains[root] == s.chains[root]
  {
    hide Books, DeliverAll;
    DeliverAllUnmoved(c, s, targets, s.passed[p]);
  }

  // ---- Flush -------------------------------------------------------------------------------

  predicate Released(chain: Chain, chain': Chain) {
    && chain.place.Staged? && chain' == chain.(place := chain'.place)
    && (chain'.place.Queued? || chain'.place.Sleeping? || chain'.place.DeadLettering?)
  }

  lemma PutMoves(s: State, d: Delivery)
    requires d.root in s.chains && d.subscription in s.queues
    ensures PutQueue(s, d).chains == s.chains[d.root := s.chains[d.root].(place := Queued)]
  {
  }

  lemma EnterMoves(s: State, sub: nat)
    ensures EnterRetry(s, sub).chains == s.chains
  {
    hide Value;
  }

  lemma EnqueueReleases(c: Config, s: State, d: Delivery)
    requires Fresh(s, d) && d.subscription in s.queues
    ensures d.root in Enqueue(c, s, d).chains && Released(s.chains[d.root], Enqueue(c, s, d).chains[d.root])
  {
    hide HasRoom, Exhausted, Schedule, PutQueue, EnterRetry;
    if HasRoom(s, d.subscription) {
      PutMoves(s, d);
    } else {
      EnterMoves(s, d.subscription);
      ScheduleMoves(c, EnterRetry(s, d.subscription), d);
    }
  }

  lemma {:induction false} OfferAllReleases(c: Config, s: State, sub: nat, ds: seq<Delivery>)
    requires sub in s.queues && ListOk(s, sub, ds, Staged)
    ensures
      (forall d <- ds :: d.root in s.chains && d.subscription in s.queues) &&
      var s' := OfferAll(c, s, ds);
      forall root <- s.chains :: root in s'.chains &&
        (if root in Roots(ds) then Released(s.chains[root], s'.chains[root]) else s'.chains[root] == s.chains[root])
    decreases |ds|
  {
    OffersKnown(s, sub, ds);
    if ds != [] {
      hide ListOk, Enqueue, Roots, Released;
      StagedHead(s, sub, ds);
      EnqueueReleases(c, s, ds[0]);
      EnqueueOthers(c, s, ds[0]);
      SameListOk(s, Enqueue(c, s, ds[0]), sub, ds[1..]);
      OfferAllReleases(c, Enqueue(c, s, ds[0]), sub, ds[1..]);
    }
  }

  lemma FlushLegal(c: Config, s: State, sub: nat, history: seq<Message>)
    requires Books(s, {}) && BufferKnown(s, sub)
    ensures LegalStep(s, Flush(c, s, sub, history), FlushReplay(sub, history))
  {
    hide Books, ListOk, Roots, OfferHistory, OfferAll;
    var buffer, matching := s.regs[sub].buffer, Matching(s.regs[sub].tokens, history);
    BooksBuffer(s, sub);
    GoLiveBooks(s, sub);
    OfferHistoryBooks(c, GoLive(s, sub), sub, matching, Roots(buffer));
    var s1 := OfferHistory(c, GoLive(s, sub), sub, matching);
    SameListOk(s, s1, sub, buffer);
    SortedListOk(s1, sub, buffer);
    SortMembers(buffer);
    OfferAllReleases(c, s1, sub, Sort(buffer, BufferKey));
  }

  // ---- Every step --------------------------------------------------------------------------

  lemma WakeLegal(c: Config, s: State, root: nat)
    requires root in s.chains && s.chains[root].cur.root == root && s.chains[root].cur.subscription in s.queues
    requires s.chains[root].place.Sleeping?
    ensures LegalStep(s, Wake(c, s, root), WakeUp(root))
  {
    hide Wake;
    WakeMoves(c, s, root);
    OneMoves(s, Wake(c, s, root), WakeUp(root), root);
  }

  lemma NackLegal(c: Config, s: State, root: nat)
    requires root in s.chains && s.chains[root].cur.root == root && s.chains[root].place.Held?
    ensures LegalStep(s, Nack(c, s, root), Refuse(root))
  {
    NackMoves(c, s, root);
    hide Nack;
    OneMoves(s, Nack(c, s, root), Refuse(root), root);
  }

  lemma NackMoves(c: Config, s: State, root: nat)
    requires root in s.chains && s.chains[root].cur.root == root
    ensures
      var s' := Nack(c, s, root);
      && root in s'.chains && s'.chains == s.chains[root := s'.chains[root]]
      && s'.chains[root] == s.chains[root].(place := s'.chains[root].place)
      && (s'.chains[root].place.Gone? || s'.chains[root].place.Sleeping? || s'.chains[root].place.DeadLettering?)
  {
    RefreshSame(c, Settled(s, root, Gone));
    hide Refresh, Value, Schedule;
    var d := s.chains[root].cur;
    ScheduleMoves(c, EnterRetry(s.(inflight := s.inflight - {d.id}), d.subscription), d);
  }

  lemma AckMoves(c: Config, s: State, root: nat)
    requires root in s.chains
    ensures Ack(c, s, root).chains == s.chains[root := s.chains[root].(place := Acked)]
  {
    RefreshSame(c, Settled(s, root, Acked));
    hide Refresh;
  }

  lemma TakeLegal(s: State, sub: nat)
    requires Books(s, {}) && Linked(s) && sub in s.queues && s.queues[sub] != []
    ensures s.queues[sub][0] in s.queues[sub] && LegalStep(s, Take(s, sub), Consume(sub))
  {
    hide Books;
    assert s.queues[sub][0] in s.queues[sub];
    TakenQueued(s, sub);
    OneMoves(s, Take(s, sub), Consume(sub), s.queues[sub][0].root);
  }

  lemma TakenQueued(s: State, sub: nat)
    requires Books(s, {}) && sub in s.queues && s.queues[sub] != []
    ensures
      var d := s.queues[sub][0];
      d.root in s.chains && s.chains[d.root].cur == d && s.chains[d.root].place.Queued? && d.subscription == sub
  {
    QueueHead(s, sub);
    hide Placed, BuffersOk, PendingOk;
    assert s.queues[sub][0] in s.queues[sub];
  }

  /** Every step moves every chain legally. In particular the acked, dead and gone stay what they are, and
      what a consumer holds stays with it until it is settled. */
  lemma StepLegal(c: Config, s: State, step: Step)
    requires Books(s, {}) && Linked(s) && Enabled(s, step)
    ensures LegalStep(s, Apply(c, s, step), step)
  {
    hide Books, LegalStep, LegalMove, DeliverAll, Flush, Take, Ack, Nack, Wake, BuryAndEvict;
    match step
    case Fanout(p, targets) =>
      FanoutUnmoved(c, s, p, targets);
      Unmoved(s, Apply(c, s, step), step);
    case FlushReplay(sub, history) => FlushLegal(c, s, sub, history);
    case Consume(sub) => TakeLegal(s, sub);
    case Acknowledge(root) => AckLegal(c, s, root);
    case Refuse(root) => NackLegal(c, s, root);
    case WakeUp(root) => WakeLegal(c, s, root);
    case Bury(root) => BuryLegal(c, s, root);
    case _ =>
      OtherChains(c, s, step);
      Unmoved(s, Apply(c, s, step), step);
  }

  lemma AckLegal(c: Config, s: State, root: nat)
    requires root in s.chains && s.chains[root].place.Held?
    ensures LegalStep(s, Ack(c, s, root), Acknowledge(root))
  {
    hide Ack;
    AckMoves(c, s, root);
    OneMoves(s, Ack(c, s, root), Acknowledge(root), root);
  }

  lemma BuryLegal(c: Config, s: State, root: nat)
    requires root in s.chains && s.chains[root].place.DeadLettering?
    ensures LegalStep(s, BuryAndEvict(c, s, root), Bury(root))
  {
    hide BuryAndEvict;
    BuryChains(c, s, root);
    OneMoves(s, BuryAndEvict(c, s, root), Bury(root), root);
  }

  // ---- Ids ---------------------------------------------------------------------------------

  /** Ids are drawn upwards and never drawn for another chain. */
  ghost predicate Grows(s: State, s': State) {
    s.nextId <= s'.nextId && forall id <- s.owner :: id in s'.owner && s'.owner[id] == s.owner[id]
  }

  lemma SameIds(s: State, s': State)
    requires s'.nextId == s.nextId && s'.owner == s.owner
    ensures Grows(s, s')
  {
  }

  lemma GrowsThen(s: State, s1: State, s2: State)
    requires Grows(s, s1) && Grows(s1, s2)
    ensures Grows(s, s2)
  {
  }

  lemma EnqueueIds(c: Config, s: State, d: Delivery)
    requires d.root in s.chains && d.subscription in s.queues
    ensures Enqueue(c, s, d).nextId == s.nextId && Enqueue(c, s, d).owner == s.owner
  {
    hide Value, HasRoom, Exhausted, Schedule;
    if !HasRoom(s, d.subscription) {
      hide PutQueue;
      ScheduleIds(c, EnterRetry(s, d.subscription), d);
    }
  }

  lemma ScheduleIds(c: Config, s: State, d: Delivery)
    requires d.root in s.chains
    ensures Schedule(c, s, d).nextId == s.nextId && Schedule(c, s, d).owner == s.owner
  {
    hide Exhausted;
  }

  lemma OfferGrows(c: Config, s: State, sub: nat, m: Message)
    requires ChainsOk(s) && sub in s.queues
    ensures Grows(s, Offer(c, s, sub, m))
  {
    ChainUnknown(s);
    hide Enqueue, ChainsOk;
    var d := NewDelivery(s, sub, m);
    EnqueueIds(c, NewChain(s, d), d);
  }

  lemma DeliverGrows(c: Config, s: State, sub: nat, m: Message)
    requires ChainsOk(s) && sub in s.regs && sub in s.queues
    ensures Grows(s, Deliver(c, s, sub, m))
  {
    if s.regs[sub].replaying {
      ChainUnknown(s);
    } else {
      hide Offer, ChainsOk;
      OfferGrows(c, s, sub, m);
    }
  }

  lemma {:induction false} DeliverAllGrows(c: Config, s: State, targets: seq<nat>, m: Message)
    requires Books(s, {}) && forall sub <- targets :: sub in s.regs && sub in s.queues
    ensures Grows(s, DeliverAll(c, s, targets, m))
    decreases |targets|
  {
    if targets == [] {
      SameIds(s, s);
    } else {
      hide Books, ChainsOk, Deliver, Grows;
      assert targets[0] in targets;
      var s1 := Deliver(c, s, targets[0], m);
      BooksChains(s, {});
      DeliverGrows(c, s, targets[0], m);
      DeliverBooks(c, s, targets[0], m);
      DeliverAllGrows(c, s1, targets[1..], m);
      GrowsThen(s, s1, DeliverAll(c, s1, targets[1..], m));
    }
  }

  lemma {:induction false} OfferHistoryGrows(c: Config, s: State, sub: nat, history: seq<Message>, loose: set<nat>)
    requires Books(s, loose) && sub in s.regs && sub in s.queues && loose <= s.chains.Keys
    ensures Grows(s, OfferHistory(c, s, sub, history))
    decreases |history|
  {
    if history == [] {
      SameIds(s, s);
    } else {
      hide Books, ChainsOk, Offer, Grows;
      var s1 := Offer(c, s, sub, history[0]);
      BooksChains(s, loose);
      Known(s, loose);
      OfferBooks(c, s, sub, history[0], loose);
      OfferGrows(c, s, sub, history[0]);
      OfferHistoryGrows(c, s1, sub, history[1..], loose);
      GrowsThen(s, s1, OfferHistory(c, s1, sub, history[1..]));
    }
  }

  lemma {:induction false} OfferAllIds(c: Config, s: State, ds: seq<Delivery>)
    requires forall d <- ds :: d.root in s.chains && d.subscription in s.queues
    ensures OfferAll(c, s, ds).nextId == s.nextId && OfferAll(c, s, ds).owner == s.owner
    decreases |ds|
  {
    if ds != [] {
      hide Enqueue;
      assert ds[0] in ds;
      EnqueueIds(c, s, ds[0]);
      OfferAllIds(c, Enqueue(c, s, ds[0]), ds[1..]);
    }
  }

  lemma FlushGrows(c: Config, s: State, sub: nat, history: seq<Message>)
    requires Books(s, {}) && BufferKnown(s, sub)
    ensures Grows(s, Flush(c, s, sub, history))
  {
    hide Books, ListOk, Roots, OfferHistory, OfferAll;
    var buffer, matching := s.regs[sub].buffer, Matching(s.regs[sub].tokens, history);
    BooksBuffer(s, sub);
    GoLiveBooks(s, sub);
    OfferHistoryGrows(c, GoLive(s, sub), sub, matching, Roots(buffer));
    SortMembers(buffer);
    OfferAllIds(c, OfferHistory(c, GoLive(s, sub), sub, matching), Sort(buffer, BufferKey));
  }

  lemma RequeueIds(s: State, d: Delivery)
    requires d.root in s.chains && d.subscription in s.queues
    ensures Requeue(s, d).nextId == s.nextId && Requeue(s, d).owner == s.owner
  {
    hide Value, Fewer;
  }

  lemma WakeGrows(c: Config, s: State, root: nat)
    requires ChainsOk(s) && root in s.chains && s.chains[root].cur.root == root
        && s.chains[root].cur.subscription in s.queues
    ensures Grows(s, Wake(c, s, root))
  {
    ChainUnknown(s);
    RenewedMoves(s, root);
    var d := Redelivered(s.chains[root].cur, s.nextId);
    hide Requeue, Schedule, ChainsOk;
    if HasRoom(s, d.subscription) {
      RequeueIds(Renewed(s, root), d);
    } else {
      ScheduleIds(c, Renewed(s, root), d);
    }
  }

  lemma NackIds(c: Config, s: State, root: nat)
    requires root in s.chains && s.chains[root].cur.root == root
    ensures Nack(c, s, root).nextId == s.nextId && Nack(c, s, root).owner == s.owner
  {
    RefreshSame(c, Settled(s, root, Gone));
    hide Refresh, Value, Schedule;
    var d := s.chains[root].cur;
    ScheduleIds(c, EnterRetry(s.(inflight := s.inflight - {d.id}), d.subscription), d);
  }

  lemma BuryIds(c: Config, s: State, root: nat)
    requires root in s.chains
    ensures BuryAndEvict(c, s, root).nextId == s.nextId && BuryAndEvict(c, s, root).owner == s.owner
  {
    RefreshSame(c, Buried(Dropped(s, s.chains[root].cur.subscription), root));
    hide Refresh, Value, DeadLetter;
  }

  lemma LeaveIds(c: Config, s: State, sub: nat)
    ensures Remove(c, s, sub).nextId == s.nextId && Remove(c, s, sub).owner == s.owner
  {
    RefreshSame(c, Dropped(s, sub));
    hide Refresh, Value;
  }

  lemma StepGrows(c: Config, s: State, step: Step)
    requires Books(s, {}) && Linked(s) && Enabled(s, step)
    ensures Grows(s, Apply(c, s, step))
  {
    hide Books, ChainsOk, Grows, Gate, DeliverAll, Flush, Take, Nack, Wake, BuryAndEvict, Remove, Refresh;
    BooksChains(s, {});
    match step
    case Fanout(p, targets) => FanoutGrows(c, s, p, targets);
    case FlushReplay(sub, history) => FlushGrows(c, s, sub, history);
    case WakeUp(root) => WakeGrows(c, s, root);
    case Arrive(p, m) =>
      GateSame(c, s, p, m);
      SameIds(s, Apply(c, s, step));
    case Reconsider(p) =>
      GateSame(c, s, p, s.woken[p]);
      SameIds(s, Apply(c, s, step));
    case Join(sub, tokens, replay) =>
      RefreshSame(c, s.(regs := s.regs[sub := Registration(tokens, replay, [])], queues := s.queues[sub := []]));
      SameIds(s, Apply(c, s, step));
    case FailReplay(sub) => SameIds(s, Apply(c, s, step));
    case Consume(sub) => TakeGrows(s, sub);
    case Acknowledge(root) =>
      RefreshSame(c, Settled(s, root, Acked));
      SameIds(s, Apply(c, s, step));
    case Refuse(root) =>
      NackIds(c, s, root);
      SameIds(s, Apply(c, s, step));
    case Bury(root) =>
      BuryIds(c, s, root);
      SameIds(s, Apply(c, s, step));
    case Leave(sub) =>
      LeaveIds(c, s, sub);
      SameIds(s, Apply(c, s, step));
  }

  lemma TakeGrows(s: State, sub: nat)
    requires Linked(s) && sub in s.queues && s.queues[sub] != []
    ensures s.queues[sub][0] in s.queues[sub] && Grows(s, Take(s, sub))
  {
    assert s.queues[sub][0] in s.queues[sub];
  }

  lemma FanoutGrows(c: Config, s: State, p: nat, targets: seq<nat>)
    requires Books(s, {}) && Linked(s) && Enabled(s, Fanout(p, targets))
    ensures Grows(s, Apply(c, s, Fanout(p, targets)))
  {
    hide Books, DeliverAll;
    DeliverAllGrows(c, s, targets, s.passed[p]);
  }

  // ---- Registrations -----------------------------------------------------------------------

  /** Registrations that were there keep their terms. */
  ghost predicate SameTerms(s: State, s': State) {
    && s.queues.Keys <= s'.queues.Keys
    && (forall sub | sub in s.queues && sub in s'.regs ::
          sub in s.regs && s'.regs[sub].tokens == s.regs[sub].tokens && s'.regs[sub].replaying == s.regs[sub].replaying)
  }

  lemma ThenTerms(s: State, s1: State, s2: State)
    requires SameTerms(s, s1) && SameTerms(s1, s2)
    ensures SameTerms(s, s2)
  {
  }

  lemma FewerTerms(s: State, s': State)
    requires s.queues.Keys <= s'.queues.Keys
    requires forall sub | sub in s.queues && sub in s'.regs :: sub in s.regs && s'.regs[sub] == s.regs[sub]
    ensures SameTerms(s, s')
  {
  }

  lemma DeliverTerms(c: Config, s: State, sub: nat, m: Message)
    requires sub in s.regs && sub in s.queues
    ensures SameTerms(s, Deliver(c, s, sub, m))
  {
    hide Offer;
  }

  lemma {:induction false} DeliverAllTerms(c: Config, s: State, targets: seq<nat>, m: Message)
    requires forall sub <- targets :: sub in s.regs && sub in s.queues
    ensures SameTerms(s, DeliverAll(c, s, targets, m))
    decreases |targets|
  {
    if targets != [] {
      hide Deliver, SameTerms;
      assert targets[0] in targets;
      DeliverTerms(c, s, targets[0], m);
      DeliverAllTerms(c, Deliver(c, s, targets[0], m), targets[1..], m);
      ThenTerms(s, Deliver(c, s, targets[0], m), DeliverAll(c, s, targets, m));
    } else {
      FewerTerms(s, s);
    }
  }

  lemma FlushRegs(c: Config, s: State, sub: nat, history: seq<Message>)
    requires BufferKnown(s, sub)
    ensures Flush(c, s, sub, history).regs == GoLive(s, sub).regs
    ensures Flush(c, s, sub, history).queues.Keys == s.queues.Keys
  {
    hide OfferHistory, OfferAll, Matching;
    SortMembers(s.regs[sub].buffer);
  }

  lemma WakeTerms(c: Config, s: State, root: nat)
    requires root in s.chains && s.chains[root].cur.root == root && s.chains[root].cur.subscription in s.queues
    ensures SameTerms(s, Wake(c, s, root))
  {
    hide Wake;
    WakeMoves(c, s, root);
    WakeQueues(c, s, root);
    FewerTerms(s, Wake(c, s, root));
  }

  lemma WakeQueues(c: Config, s: State, root: nat)
    requires root in s.chains && s.chains[root].cur.root == root && s.chains[root].cur.subscription in s.queues
    ensures Wake(c, s, root).queues.Keys == s.queues.Keys
  {
    hide Value, Fewer, Schedule, PutQueue, Renewed, HasRoom;
    RenewedMoves(s, root);
  }

  lemma RefreshTerms(c: Config, s: State, s1: State)
    requires SameTerms(s, s1)
    ensures SameTerms(s, Refresh(c, s1))
  {
    hide Refresh;
    RefreshSame(c, s1);
  }

  lemma StepTerms(c: Config, s: State, step: Step)
    requires Linked(s) && Enabled(s, step) && !step.FlushReplay?
    ensures SameTerms(s, Apply(c, s, step))
  {
    hide SameTerms, Gate, DeliverAll, Take, Nack, Wake, Refresh, Dropped;
    match step
    case Arrive(p, m) => GateTerms(c, s, p, m);
    case Reconsider(p) => GateTerms(c, s, p, s.woken[p]);
    case Fanout(p, targets) => FanoutTerms(c, s, p, targets);
    case Join(sub, tokens, replay) =>
      var s1 := s.(regs := s.regs[sub := Registration(tokens, replay, [])], queues := s.queues[sub := []]);
      FewerTerms(s, s1);
      RefreshTerms(c, s, s1);
    case FailReplay(sub) => FewerTerms(s, Apply(c, s, step));
    case Consume(sub) =>
      assert s.queues[sub][0] in s.queues[sub];
      TakeShiftRegs(s, sub);
      FewerTerms(s, Take(s, sub));
    case Acknowledge(root) =>
      FewerTerms(s, Settled(s, root, Acked));
      RefreshTerms(c, s, Settled(s, root, Acked));
    case Refuse(root) => NackTerms(c, s, root);
    case WakeUp(root) => WakeTerms(c, s, root);
    case Bury(root) => BuryTerms(c, s, root);
    case Leave(sub) =>
      DroppedTerms(s, sub);
      RefreshTerms(c, s, Dropped(s, sub));
  }

  lemma TakeShiftRegs(s: State, sub: nat)
    requires sub in s.queues && s.queues[sub] != [] && s.queues[sub][0].root in s.chains
    ensures Take(s, sub).regs == s.regs && Take(s, sub).queues.Keys == s.queues.Keys
  {
  }

  lemma GateTerms(c: Config, s: State, p: nat, m: Message)
    ensures SameTerms(s, Gate(c, s, p, m))
  {
    hide Gate;
    GateSame(c, s, p, m);
  }

  lemma FanoutTerms(c: Config, s: State, p: nat, targets: seq<nat>)
    requires Linked(s) && Enabled(s, Fanout(p, targets))
    ensures SameTerms(s, Apply(c, s, Fanout(p, targets)))
  {
    hide SameTerms, DeliverAll;
    DeliverAllTerms(c, s, targets, s.passed[p]);
    var s1 := DeliverAll(c, s, targets, s.passed[p]);
    FewerTerms(s1, Apply(c, s, Fanout(p, targets)));
    ThenTerms(s, s1, Apply(c, s, Fanout(p, targets)));
  }

  lemma DroppedTerms(s: State, sub: nat)
    ensures SameTerms(s, Dropped(s, sub))
  {
    hide Value;
  }

  lemma NackTerms(c: Config, s: State, root: nat)
    requires root in s.chains && s.chains[root].cur.root == root
    ensures SameTerms(s, Nack(c, s, root))
  {
    hide SameTerms, Refresh, Value, Exhausted;
    FewerTerms(s, Settled(s, root, Gone));
    RefreshTerms(c, s, Settled(s, root, Gone));
    if s.chains[root].cur.subscription in s.regs {
      FewerTerms(s, Nack(c, s, root));
    }
  }

  lemma BuryTerms(c: Config, s: State, root: nat)
    requires root in s.chains
    ensures SameTerms(s, BuryAndEvict(c, s, root))
  {
    var sub := s.chains[root].cur.subscription;
    hide SameTerms, Refresh, Dropped, DeadLetter;
    DroppedTerms(s, sub);
    FewerTerms(Dropped(s, sub), Buried(Dropped(s, sub), root));
    ThenTerms(s, Dropped(s, sub), Buried(Dropped(s, sub), root));
    RefreshTerms(c, s, Buried(Dropped(s, sub), root));
  }

  /** No step puts a registration into replay mode again. */
  lemma StepReplaying(c: Config, s: State, step: Step, sub: nat)
    requires Linked(s) && Enabled(s, step) && sub in s.queues && sub in Apply(c, s, step).regs
    ensures sub in Apply(c, s, step).queues && sub in s.regs
    ensures Apply(c, s, step).regs[sub].replaying ==> s.regs[sub].replaying
  {
    if step.FlushReplay? {
      FlushRegs(c, s, step.sub, step.history);
      hide Flush;
    } else {
      StepTerms(c, s, step);
      hide Apply;
    }
  }

  // ---- Whole runs --------------------------------------------------------------------------

  predicate Final(p: Place) {
    p.Acked? || p.Dead? || p.Gone?
  }

  lemma LegalAt(s: State, s': State, step: Step, root: nat)
    requires LegalStep(s, s', step) && root in s.chains
    ensures root in s'.chains && LegalMove(s, s', step, root)
  {
  }

  /** The step of a run from one of its states to the next. */
  lemma TakesLegally(c: Config, r: Run, i: nat)
    requires IsRun(c, r) && i < |r.steps|
    ensures LegalStep(r.states[i], r.states[i + 1], r.steps[i]) && Grows(r.states[i], r.states[i + 1])
  {
    hide Inv, Apply, Linked, Enabled, LegalStep, Grows;
    RunInv(c, r, i);
    assert Takes(c, r, i);
    InvBooks(c, r.states[i]);
    StepLegal(c, r.states[i], r.steps[i]);
    StepGrows(c, r.states[i], r.steps[i]);
  }

  /** Once a chain is acked, dead-lettered or gone, nothing ever happens to it again. */
  lemma {:induction false} FinalStaysFinal(c: Config, r: Run, i: nat, j: nat, root: nat)
    requires IsRun(c, r) && i <= j < |r.states| && root in r.states[i].chains && Final(r.states[i].chains[root].place)
    ensures root in r.states[j].chains && r.states[j].chains[root] == r.states[i].chains[root]
    decreases j
  {
    if i < j {
      FinalStaysFinal(c, r, i, j - 1, root);
      TakesLegally(c, r, j - 1);
      hide IsRun, LegalStep;
      LegalAt(r.states[j - 1], r.states[j], r.steps[j - 1], root);
    }
  }

  /** A delivery that a consumer holds stays with it until it acks or nacks, whatever else happens. */
  lemma {:induction false} HeldUntilSettled(c: Config, r: Run, i: nat, j: nat, root: nat)
    requires IsRun(c, r) && i <= j < |r.states| && root in r.states[i].chains && r.states[i].chains[root].place.Held?
    requires forall k | i <= k < j :: r.steps[k] != Acknowledge(root) && r.steps[k] != Refuse(root)
    ensures root in r.states[j].chains && r.states[j].chains[root] == r.states[i].chains[root]
    decreases j
  {
    if i < j {
      HeldUntilSettled(c, r, i, j - 1, root);
      TakesLegally(c, r, j - 1);
      hide IsRun, LegalStep;
      LegalAt(r.states[j - 1], r.states[j], r.steps[j - 1], root);
    }
  }

  /** A chain's past is never rewritten: later deliveries are only added. */
  lemma {:induction false} TrailsOnlyGrow(c: Config, r: Run, i: nat, j: nat, root: nat)
    requires IsRun(c, r) && i <= j < |r.states| && root in r.states[i].chains
    ensures root in r.states[j].chains && r.states[i].chains[root].trail <= r.states[j].chains[root].trail
    decreases j
  {
    if i < j {
      TrailsOnlyGrow(c, r, i, j - 1, root);
      TakesLegally(c, r, j - 1);
      hide IsRun, LegalStep;
      LegalAt(r.states[j - 1], r.states[j], r.steps[j - 1], root);
    }
  }

  /** An id that was drawn for a chain belongs to that chain for ever. */
  lemma {:induction false} IdsAreNeverReused(c: Config, r: Run, i: nat, j: nat, id: nat)
    requires IsRun(c, r) && i <= j < |r.states| && id in r.states[i].owner
    ensures id in r.states[j].owner && r.states[j].owner[id] == r.states[i].owner[id]
    decreases j
  {
    if i < j {
      IdsAreNeverReused(c, r, i, j - 1, id);
      TakesLegally(c, r, j - 1);
      hide IsRun, LegalStep;
    }
  }

  lemma TakenBehind(c: Config, r: Run, i: nat, sub: nat)
    requires IsRun(c, r) && i < |r.steps| && sub in r.states[i].queues && r.steps[i] != Consume(sub)
    ensures sub in r.states[i + 1].queues && r.states[i].queues[sub] <= r.states[i + 1].queues[sub]
  {
    hide Apply, Linked, Enabled;
    assert Takes(c, r, i);
    FirstInFirstOut(c, r.states[i], r.steps[i]);
  }

  /** While nobody takes from a queue it only grows at its end: what is offered later comes behind. */
  lemma {:induction false} LaterComesBehind(c: Config, r: Run, i: nat, j: nat, sub: nat)
    requires IsRun(c, r) && i <= j < |r.states| && sub in r.states[i].queues
    requires forall k | i <= k < j :: r.steps[k] != Consume(sub)
    ensures sub in r.states[j].queues && r.states[i].queues[sub] <= r.states[j].queues[sub]
    decreases j
  {
    if i < j {
      hide Takes;
      LaterComesBehind(c, r, i, j - 1, sub);
      TakenBehind(c, r, j - 1, sub);
    }
  }
}
