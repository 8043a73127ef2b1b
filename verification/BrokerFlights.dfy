/** Which in-flight entries belong to subscriptions that are gone, and which steps change that. */
module BrokerFlights {
  import opened Types
  import opened Retry
  import opened Sorting
  import opened Router
  import opened Counting
  import opened BrokerState
  import opened BrokerInvariant
  import opened BrokerHistory
  import opened BrokerGate
  import opened BrokerRuns
  import opened BrokerTheorems

  /** The entry `i` is one of a removed subscription, for the chain `root`. */
  predicate Orphan(s: State, i: nat, root: nat) {
    i in s.inflight && s.inflight[i].root == root && s.inflight[i].subscription !in s.regs
  }

  lemma ZombieHasOrphan(s: State, root: nat)
    requires Books(s, {}) && root in Zombies(s)
    ensures Orphan(s, s.chains[root].cur.id, root)
  {
    hide QueuesOk, BuffersOk, PendingOk, FlyingOk;
  }

  lemma OrphanIsZombie(s: State, i: nat, root: nat)
    requires Books(s, {}) && Orphan(s, i, root)
    ensures root in Zombies(s) && s.chains[root].cur == s.inflight[i] && s.chains[root].cur.id == i
  {
    hide QueuesOk, BuffersOk, PendingOk, FlyingOk;
  }

  // ---- Steps that only add flights of registered subscriptions ------------------------------

  /** Nothing is landed, and what takes off is registered. */
  ghost predicate TakesOff(s: State, s': State) {
    && s'.regs.Keys == s.regs.Keys && s'.queues.Keys == s.queues.Keys
    && (forall i <- s.inflight :: i in s'.inflight && s'.inflight[i] == s.inflight[i])
    && (forall i <- s'.inflight | i !in s.inflight :: s'.inflight[i].subscription in s.regs)
  }

  lemma TakesOffThen(s: State, s1: State, s2: State)
    requires TakesOff(s, s1) && TakesOff(s1, s2)
    ensures TakesOff(s, s2)
  {
  }

  lemma SameFlights(s: State, s': State)
    requires s'.inflight == s.inflight && s'.regs.Keys == s.regs.Keys && s'.queues.Keys == s.queues.Keys
    ensures TakesOff(s, s')
  {
  }

  lemma EnqueueTakesOff(c: Config, s: State, d: Delivery)
    requires d.root in s.chains && d.subscription in s.queues && d.subscription in s.regs && d.id !in s.inflight
    ensures TakesOff(s, Enqueue(c, s, d))
  {
    hide HasRoom, Schedule, PutQueue, EnterRetry;
    if HasRoom(s, d.subscription) {
      PutFlights(s, d);
    } else {
      EnterFlights(s, d.subscription);
      ScheduleFlights(c, EnterRetry(s, d.subscription), d);
    }
  }

  lemma PutFlights(s: State, d: Delivery)
    requires d.root in s.chains && d.subscription in s.queues
    ensures PutQueue(s, d).inflight == s.inflight
  {
  }

  lemma EnterFlights(s: State, sub: nat)
    ensures EnterRetry(s, sub).inflight == s.inflight && EnterRetry(s, sub).queues == s.queues
    ensures EnterRetry(s, sub).regs == s.regs && EnterRetry(s, sub).chains == s.chains
  {
    hide Value;
  }

  lemma ScheduleFlights(c: Config, s: State, d: Delivery)
    requires d.root in s.chains
    ensures Schedule(c, s, d).inflight == s.inflight
  {
    hide Exhausted;
  }

  lemma OfferTakesOff(c: Config, s: State, sub: nat, m: Message)
    requires Placed(s) && sub in s.regs && sub in s.queues
    ensures TakesOff(s, Offer(c, s, sub, m))
  {
    hide ChainsOk, InflightOk, FlyingOk, Enqueue;
    FreshId(s);
    EnqueueTakesOff(c, NewChain(s, NewDelivery(s, sub, m)), NewDelivery(s, sub, m));
  }

  lemma DeliverTakesOff(c: Config, s: State, sub: nat, m: Message)
    requires Placed(s) && sub in s.regs && sub in s.queues
    ensures TakesOff(s, Deliver(c, s, sub, m))
  {
    hide ChainsOk, InflightOk, FlyingOk, Offer;
    if !s.regs[sub].replaying {
      OfferTakesOff(c, s, sub, m);
    }
  }

  lemma {:induction false} DeliverAllTakesOff(c: Config, s: State, targets: seq<nat>, m: Message)
    requires Books(s, {}) && forall sub <- targets :: sub in s.regs && sub in s.queues
    ensures TakesOff(s, DeliverAll(c, s, targets, m))
    decreases |targets|
  {
    if targets == [] {
      SameFlights(s, s);
    } else {
      hide Books, Placed, QueuesOk, BuffersOk, PendingOk, Deliver, TakesOff;
      assert targets[0] in targets;
      var s1 := Deliver(c, s, targets[0], m);
      BooksParts(s, {});
      DeliverTakesOff(c, s, targets[0], m);
      DeliverBooks(c, s, targets[0], m);
      DeliverAllTakesOff(c, s1, targets[1..], m);
      TakesOffThen(s, s1, DeliverAll(c, s1, targets[1..], m));
    }
  }

  lemma {:induction false} OfferHistoryTakesOff(c: Config, s: State, sub: nat, history: seq<Message>, loose: set<nat>)
    requires Books(s, loose) && sub in s.regs && sub in s.queues && loose <= s.chains.Keys
    ensures TakesOff(s, OfferHistory(c, s, sub, history))
    decreases |history|
  {
    if history == [] {
      SameFlights(s, s);
    } else {
      hide Books, Placed, ChainsOk, QueuesOk, BuffersOk, PendingOk, Offer, TakesOff;
      var s1 := Offer(c, s, sub, history[0]);
      BooksParts(s, loose);
      BooksChains(s, loose);
      Known(s, loose);
      OfferBooks(c, s, sub, history[0], loose);
      OfferTakesOff(c, s, sub, history[0]);
      OfferHistoryTakesOff(c, s1, sub, history[1..], loose);
      TakesOffThen(s, s1, OfferHistory(c, s1, sub, history[1..]));
    }
  }

  /** A staged delivery is not in flight. */
  lemma StagedOnGround(s: State, d: Delivery)
    requires Placed(s) && Fresh(s, d)
    ensures d.id !in s.inflight
  {
    FlightHasOwner(s);
  }

  lemma {:induction false} OfferAllTakesOff(c: Config, s: State, sub: nat, ds: seq<Delivery>)
    requires Books(s, Roots(ds)) && sub in s.regs && sub in s.queues && ListOk(s, sub, ds, Staged)
    ensures
      (forall d <- ds :: d.root in s.chains && d.subscription in s.queues) && TakesOff(s, OfferAll(c, s, ds))
    decreases |ds|
  {
    OffersKnown(s, sub, ds);
    if ds == [] {
      SameFlights(s, s);
    } else {
      hide Books, ListOk, Enqueue, Roots, Placed, QueuesOk, BuffersOk, PendingOk, TakesOff;
      var s1 := Enqueue(c, s, ds[0]);
      BooksParts(s, Roots(ds));
      StagedHead(s, sub, ds);
      StagedOnGround(s, ds[0]);
      EnqueueTakesOff(c, s, ds[0]);
      EnqueueBooks(c, s, ds[0], Roots(ds));
      EnqueueOthers(c, s, ds[0]);
      SameListOk(s, s1, sub, ds[1..]);
      OfferAllTakesOff(c, s1, sub, ds[1..]);
      TakesOffThen(s, s1, OfferAll(c, s1, ds[1..]));
    }
  }

  lemma FlushTakesOff(c: Config, s: State, sub: nat, history: seq<Message>)
    requires Books(s, {}) && BufferKnown(s, sub)
    ensures TakesOff(s, Flush(c, s, sub, history))
  {
    hide Books, ListOk, Roots, OfferHistory, OfferAll, TakesOff;
    var buffer, matching := s.regs[sub].buffer, Matching(s.regs[sub].tokens, history);
    var live := GoLive(s, sub);
    BooksBuffer(s, sub);
    GoLiveBooks(s, sub);
    SameFlights(s, live);
    OfferHistoryBooks(c, live, sub, matching, Roots(buffer));
    OfferHistoryTakesOff(c, live, sub, matching, Roots(buffer));
    var s1 := OfferHistory(c, live, sub, matching);
    SameListOk(s, s1, sub, buffer);
    SortedListOk(s1, sub, buffer);
    SortMembers(buffer);
    OfferAllTakesOff(c, s1, sub, Sort(buffer, BufferKey));
    TakesOffThen(s, live, s1);
    TakesOffThen(s, s1, OfferAll(c, s1, Sort(buffer, BufferKey)));
  }

  // ---- What every step does to the zombies -------------------------------------------------

  /** The step settles the zombie, or drops it with its subscription. */
  predicate Clears(s: State, step: Step, root: nat) {
    && root in s.chains
    && match step
       case Acknowledge(r) => r == root
       case Refuse(r) => r == root
       case Leave(sub) => sub == Sub(s, root)
       case Bury(r) => r in s.chains && Sub(s, r) == Sub(s, root)
       case _ => false
  }

  /** The step is the late wakeup of a chain whose subscription is gone. */
  predicate Revives(s: State, step: Step, root: nat) {
    && step == WakeUp(root) && root in s.chains && Sub(s, root) !in s.regs
    && Sub(s, root) in s.queues && HasRoom(s, Sub(s, root))
  }

  /** The orphans of `root` are the same before and after. */
  ghost predicate SameOrphans(s: State, s': State, root: nat) {
    forall i :: Orphan(s', i, root) <==> Orphan(s, i, root)
  }

  lemma OrphansDecide(s: State, s': State, root: nat)
    requires Books(s, {}) && Books(s', {}) && SameOrphans(s, s', root)
    ensures root in Zombies(s') <==> root in Zombies(s)
  {
    hide Books, Orphan;
    if root in Zombies(s) {
      ZombieHasOrphan(s, root);
      OrphanIsZombie(s', s.chains[root].cur.id, root);
    }
    if root in Zombies(s') {
      ZombieHasOrphan(s', root);
      OrphanIsZombie(s, s'.chains[root].cur.id, root);
    }
  }

  lemma TakesOffOrphans(s: State, s': State, root: nat)
    requires TakesOff(s, s')
    ensures SameOrphans(s, s', root)
  {
  }

  lemma FlightQueued(s: State, i: nat)
    requires Books(s, {}) && i in s.inflight
    ensures s.inflight[i].subscription in s.queues && s.inflight[i].root in s.chains && s.inflight[i].id == i
    ensures s.chains[s.inflight[i].root].cur == s.inflight[i]
  {
    hide QueuesOk, BuffersOk, PendingOk, FlyingOk;
  }

  lemma JoinedOrphans(s: State, s': State, sub: nat, root: nat)
    requires Books(s, {}) && sub !in s.queues && s'.inflight == s.inflight && s'.regs.Keys == s.regs.Keys + {sub}
    ensures SameOrphans(s, s', root)
  {
    hide Books;
    forall i | i in s.inflight
      ensures s.inflight[i].subscription != sub
    {
      FlightQueued(s, i);
    }
  }

  /** Dropping a subscription lands all its flights and no other. */
  lemma DroppedZombies(s: State, s': State, sub: nat, root: nat)
    requires Books(s, {}) && Books(s', {}) && s'.regs.Keys == s.regs.Keys - {sub}
    requires s'.inflight == Dropped(s, sub).inflight
    ensures root in Zombies(s') <==> root in Zombies(s) && Sub(s, root) != sub
  {
    hide Books, Value;
    if root in Zombies(s) && Sub(s, root) != sub {
      ZombieHasOrphan(s, root);
      OrphanIsZombie(s, s.chains[root].cur.id, root);
      OrphanIsZombie(s', s.chains[root].cur.id, root);
    }
    if root in Zombies(s') {
      ZombieHasOrphan(s', root);
      var i := s'.chains[root].cur.id;
      FlightQueued(s, i);
      assert Orphan(s, i, root);
      OrphanIsZombie(s, i, root);
    }
  }

  /** Landing the current flight of one chain. */
  lemma SettledZombies(s: State, s': State, settled: nat, root: nat)
    requires Books(s, {}) && Books(s', {}) && s'.regs.Keys == s.regs.Keys && settled in s.chains
    requires s'.inflight == s.inflight - {s.chains[settled].cur.id}
    ensures root in Zombies(s') <==> root in Zombies(s) && root != settled
  {
    hide Books;
    if root in Zombies(s) && root != settled {
      ZombieHasOrphan(s, root);
      OrphanIsZombie(s, s.chains[root].cur.id, root);
      CurrentIdsDiffer(s, root, settled);
      OrphanIsZombie(s', s.chains[root].cur.id, root);
    }
    if root in Zombies(s') {
      ZombieHasOrphan(s', root);
      OrphanIsZombie(s, s'.chains[root].cur.id, root);
    }
  }

  lemma CurrentIdsDiffer(s: State, root: nat, other: nat)
    requires Books(s, {}) && root in s.chains && other in s.chains && root != other
    ensures s.chains[root].cur.id != s.chains[other].cur.id
  {
    hide QueuesOk, BuffersOk, PendingOk, FlyingOk, InflightOk;
  }

  /** Taking off the next attempt of a chain that was not in flight. */
  lemma WokenZombies(s: State, s': State, d: Delivery, root: nat)
    requires Books(s, {}) && Books(s', {}) && s'.regs.Keys == s.regs.Keys && d.id !in s.inflight
    requires s'.inflight == s.inflight[d.id := d]
    ensures root in Zombies(s') <==> root in Zombies(s) || (root == d.root && d.subscription !in s.regs)
  {
    hide Books;
    if root in Zombies(s) {
      ZombieHasOrphan(s, root);
      OrphanIsZombie(s', s.chains[root].cur.id, root);
    }
    if root == d.root && d.subscription !in s.regs {
      OrphanIsZombie(s', d.id, root);
    }
    if root in Zombies(s') {
      ZombieHasOrphan(s', root);
      var i := s'.chains[root].cur.id;
      if i != d.id {
        OrphanIsZombie(s, i, root);
      }
    }
  }

  /** A zombie appears exactly by a late wakeup, and goes exactly when it is settled or dropped with its
      subscription; nothing else touches it. */
  lemma ZombiesChange(c: Config, s: State, step: Step, root: nat)
    requires Books(s, {}) && Honest(c, s) && Linked(s) && Enabled(s, step)
    ensures root in Zombies(Apply(c, s, step)) <==>
      Revives(s, step, root) || (root in Zombies(s) && !Clears(s, step, root))
  {
    hide Books, Honest, Linked, Zombies, Apply, Enabled;
    StepBooks(c, s, step);
    ZombieKnown(s, root);
    if step.Acknowledge? || step.Refuse? || step.Bury? || step.Leave? {
      LandingZombies(c, s, step, root);
    } else if step.WakeUp? || step.FailReplay? || step.Join? {
      OddZombies(c, s, step, root);
    } else {
      FlyingOn(c, s, step);
      TakesOffOrphans(s, Apply(c, s, step), root);
      OrphansDecide(s, Apply(c, s, step), root);
    }
  }

  /** Steps after which every flight goes on. */
  lemma FlyingOn(c: Config, s: State, step: Step)
    requires Books(s, {}) && Linked(s) && Enabled(s, step)
    requires step.Arrive? || step.Reconsider? || step.Fanout? || step.FlushReplay? || step.Consume?
    ensures TakesOff(s, Apply(c, s, step))
  {
    hide Books, Gate, DeliverAll, Flush, Take, TakesOff;
    match step
    case Arrive(p, m) =>
      GateSame(c, s, p, m);
      SameFlights(s, Apply(c, s, step));
    case Reconsider(p) =>
      GateSame(c, s, p, s.woken[p]);
      SameFlights(s, Apply(c, s, step));
    case Fanout(p, targets) => FanoutTakesOff(c, s, p, targets);
    case FlushReplay(sub, history) => FlushTakesOff(c, s, sub, history);
    case Consume(sub) =>
      TakeFlights(s, sub);
      SameFlights(s, Apply(c, s, step));
  }

  lemma LandingZombies(c: Config, s: State, step: Step, root: nat)
    requires Books(s, {}) && Linked(s) && Enabled(s, step) && Books(Apply(c, s, step), {})
    requires step.Acknowledge? || step.Refuse? || step.Bury? || step.Leave?
    requires root in Zombies(s) ==> root in s.chains
    ensures root in Zombies(Apply(c, s, step)) <==> root in Zombies(s) && !Clears(s, step, root)
  {
    hide Books, Zombies, Ack, Nack, BuryAndEvict, Remove, Dropped;
    match step
    case Acknowledge(r) =>
      AckLands(c, s, r);
      SettledZombies(s, Ack(c, s, r), r, root);
    case Refuse(r) =>
      NackLands(c, s, r);
      SettledZombies(s, Nack(c, s, r), r, root);
    case Bury(r) =>
      BuryLands(c, s, r);
      DroppedZombies(s, BuryAndEvict(c, s, r), Sub(s, r), root);
    case Leave(sub) =>
      LeaveLands(c, s, sub);
      DroppedZombies(s, Remove(c, s, sub), sub, root);
  }

  lemma OddZombies(c: Config, s: State, step: Step, root: nat)
    requires Books(s, {}) && Honest(c, s) && Linked(s) && Enabled(s, step) && Books(Apply(c, s, step), {})
    requires step.WakeUp? || step.FailReplay? || step.Join?
    ensures root in Zombies(Apply(c, s, step)) <==> Revives(s, step, root) || root in Zombies(s)
  {
    hide Books, Honest, Zombies, Wake, Subscribe, HasRoom;
    match step
    case Join(sub, tokens, replay) =>
      JoinedFlights(c, s, sub, tokens, replay);
      JoinedOrphans(s, Subscribe(c, s, sub, tokens, replay), sub, root);
      OrphansDecide(s, Subscribe(c, s, sub, tokens, replay), root);
    case FailReplay(sub) => FailedZombies(c, s, sub, root);
    case WakeUp(r) => WakeZombies(c, s, r, root);
  }

  lemma ZombieKnown(s: State, root: nat)
    ensures root in Zombies(s) ==> root in s.chains
  {
  }

  lemma SteadyZombies(s: State, s': State, root: nat)
    requires Books(s, {}) && Books(s', {}) && s'.inflight == s.inflight && s'.regs.Keys == s.regs.Keys
    ensures root in Zombies(s') <==> root in Zombies(s)
  {
    hide Books, Zombies;
    assert SameOrphans(s, s', root);
    OrphansDecide(s, s', root);
  }

  lemma FanoutTakesOff(c: Config, s: State, p: nat, targets: seq<nat>)
    requires Books(s, {}) && Linked(s) && Enabled(s, Fanout(p, targets))
    ensures TakesOff(s, Apply(c, s, Fanout(p, targets)))
  {
    hide Books, DeliverAll;
    DeliverAllTakesOff(c, s, targets, s.passed[p]);
  }

  lemma JoinedFlights(c: Config, s: State, sub: nat, tokens: seq<string>, replay: bool)
    ensures
      var s' := Subscribe(c, s, sub, tokens, replay);
      s'.inflight == s.inflight && s'.regs.Keys == s.regs.Keys + {sub}
  {
    hide Refresh;
    RefreshSame(c, s.(regs := s.regs[sub := Registration(tokens, replay, [])], queues := s.queues[sub := []]));
  }

  lemma FailedZombies(c: Config, s: State, sub: nat, root: nat)
    requires Books(s, {}) && Honest(c, s) && sub in s.regs && s.regs[sub].replaying
    requires Books(s.(regs := s.regs - {sub}), {})
    ensures root in Zombies(s.(regs := s.regs - {sub})) <==> root in Zombies(s)
  {
    hide Books, Honest, Dropped;
    FailedReplayOwesNothing(c, s, sub);
    DroppedZombies(s, s.(regs := s.regs - {sub}), sub, root);
    RegisteredIsNoZombie(s, root);
  }

  lemma RegisteredIsNoZombie(s: State, root: nat)
    ensures root in Zombies(s) ==> root in s.chains && Sub(s, root) !in s.regs
  {
  }

  lemma TakeFlights(s: State, sub: nat)
    requires Linked(s) && sub in s.queues && s.queues[sub] != []
    ensures s.queues[sub][0] in s.queues[sub] && Take(s, sub).inflight == s.inflight && Take(s, sub).regs == s.regs
    ensures Take(s, sub).queues.Keys == s.queues.Keys
  {
    assert s.queues[sub][0] in s.queues[sub];
  }

  lemma AckLands(c: Config, s: State, root: nat)
    requires root in s.chains
    ensures Ack(c, s, root).inflight == s.inflight - {s.chains[root].cur.id} && Ack(c, s, root).regs == s.regs
  {
    RefreshSame(c, Settled(s, root, Acked));
    hide Refresh;
  }

  lemma NackLands(c: Config, s: State, root: nat)
    requires root in s.chains && s.chains[root].cur.root == root
    ensures Nack(c, s, root).inflight == s.inflight - {s.chains[root].cur.id} && Nack(c, s, root).regs == s.regs
  {
    RefreshSame(c, Settled(s, root, Gone));
    hide Refresh, Value, Exhausted;
  }

  lemma BuryLands(c: Config, s: State, root: nat)
    requires root in s.chains
    ensures
      var s', sub := BuryAndEvict(c, s, root), s.chains[root].cur.subscription;
      s'.inflight == Dropped(s, sub).inflight && s'.regs == s.regs - {sub}
  {
    RefreshSame(c, Buried(Dropped(s, s.chains[root].cur.subscription), root));
    hide Refresh, Value, DeadLetter;
  }

  lemma LeaveLands(c: Config, s: State, sub: nat)
    ensures Remove(c, s, sub).inflight == Dropped(s, sub).inflight && Remove(c, s, sub).regs == s.regs - {sub}
  {
    RefreshSame(c, Dropped(s, sub));
    hide Refresh, Value;
  }

  lemma RequeueFlights(s: State, d: Delivery)
    requires d.root in s.chains && d.subscription in s.queues
    ensures Requeue(s, d).inflight == s.inflight[d.id := d] && Requeue(s, d).regs == s.regs
  {
    hide Value, Fewer;
  }

  lemma WakeFlights(c: Config, s: State, root: nat)
    requires root in s.chains && s.chains[root].cur.root == root && s.chains[root].cur.subscription in s.queues
    ensures
      var s', d := Wake(c, s, root), Redelivered(s.chains[root].cur, s.nextId);
      && s'.regs == s.regs
      && (HasRoom(s, d.subscription) ==> s'.inflight == s.inflight[d.id := d])
      && (!HasRoom(s, d.subscription) ==> s'.inflight == s.inflight)
  {
    var d := Redelivered(s.chains[root].cur, s.nextId);
    RenewedMoves(s, root);
    RenewedShift(s, root);
    hide Requeue, Schedule, Renewed, HasRoom;
    if HasRoom(s, d.subscription) {
      RequeueFlights(Renewed(s, root), d);
    } else {
      ScheduleFlights(c, Renewed(s, root), d);
    }
  }

  /** Only a join adds a registration. */
  lemma RegsShrink(c: Config, s: State, step: Step)
    requires Books(s, {}) && Linked(s) && Enabled(s, step) && !step.Join?
    ensures Apply(c, s, step).regs.Keys <= s.regs.Keys
  {
    hide Books, Ack, Nack, BuryAndEvict, Remove, Dropped, Wake, HasRoom;
    match step
    case Acknowledge(r) => AckLands(c, s, r);
    case Refuse(r) => NackLands(c, s, r);
    case Bury(r) => BuryLands(c, s, r);
    case Leave(sub) => LeaveLands(c, s, sub);
    case WakeUp(r) => WakeFlights(c, s, r);
    case FailReplay(sub) =>
    case _ =>
      hide Apply, Enabled, Linked;
      FlyingOn(c, s, step);
  }

  lemma FreshFlight(s: State)
    requires Books(s, {})
    ensures s.nextId !in s.inflight
  {
    hide QueuesOk, BuffersOk, PendingOk, ChainsOk, InflightOk, FlyingOk;
    FreshId(s);
  }

  lemma WakeZombies(c: Config, s: State, r: nat, root: nat)
    requires Books(s, {}) && r in s.chains && s.chains[r].cur.root == r && s.chains[r].cur.subscription in s.queues
    requires Books(Wake(c, s, r), {})
    ensures root in Zombies(Wake(c, s, r)) <==> Revives(s, WakeUp(r), root) || root in Zombies(s)
  {
    var s', d := Wake(c, s, r), Redelivered(s.chains[r].cur, s.nextId);
    hide Books, Zombies, Wake, HasRoom;
    WakeFlights(c, s, r);
    FreshFlight(s);
    if HasRoom(s, d.subscription) {
      WokenZombies(s, s', d, root);
    } else {
      SteadyZombies(s, s', root);
    }
  }
}
