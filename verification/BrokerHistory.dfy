/** Every chain of deliveries is a legal retry chain, and it is dead-lettered at most once and only with
    its budget spent. */
module BrokerHistory {
  import opened Types
  import opened Retry
  import opened Sorting
  import opened Router
  import opened Counting
  import opened BrokerState
  import opened BrokerInvariant

  // ---- The invariant -----------------------------------------------------------------------

  ghost predicate Spent(c: Config, chain: Chain) {
    Exhausted(c.policy, chain.cur.attempt + 1)
  }

  /** The trail is a retry chain that ends at the current delivery. */
  ghost predicate Trailed(c: Config, chain: Chain, root: nat) {
    && IsChain(c.policy, chain.trail)
    && chain.trail[|chain.trail| - 1] == chain.cur
    && chain.trail[0].id == root
  }

  /** Only what the budget allows sleeps, only what it does not allow is dead-lettered. Chains of a
      replaying registration are all still staged; those of a live one are neither dead nor gone. */
  ghost predicate History(c: Config, s: State, root: nat)
    requires root in s.chains
  {
    var chain, sub := s.chains[root], Sub(s, root);
    && Trailed(c, chain, root)
    && (chain.place.Staged? ==> |chain.trail| == 1)
    && (chain.place.Sleeping? ==> !Spent(c, chain))
    && (chain.place.DeadLettering? || chain.place.Dead? ==> Spent(c, chain))
    && (sub in s.regs ==> !chain.place.Gone? && !chain.place.Dead?)
    && (sub in s.regs && s.regs[sub].replaying ==> chain.place.Staged?)
  }

  ghost predicate Histories(c: Config, s: State) {
    forall root <- s.chains :: History(c, s, root)
  }

  /** The dead letters are those of the dead chains, once each. */
  ghost predicate Graves(s: State) {
    && |s.dlq| == |s.deadRoots|
    && (forall i | 0 <= i < |s.deadRoots| ::
          && s.deadRoots[i] in s.chains && s.chains[s.deadRoots[i]].place.Dead?
          && s.dlq[i] == DeadLetter(s.chains[s.deadRoots[i]].cur))
    && (forall i, j | 0 <= i < j < |s.deadRoots| :: s.deadRoots[i] != s.deadRoots[j])
    && (forall root <- s.chains | s.chains[root].place.Dead? :: root in s.deadRoots)
  }

  ghost predicate Honest(c: Config, s: State) {
    Histories(c, s) && Graves(s)
  }

  // ---- Frames ------------------------------------------------------------------------------

  ghost predicate RegsKept(s: State, s': State) {
    forall sub <- s'.regs :: sub in s.regs && (s'.regs[sub].replaying ==> s.regs[sub].replaying)
  }

  ghost predicate SameGraves(s: State, s': State) {
    s'.dlq == s.dlq && s'.deadRoots == s.deadRoots
  }

  /** One chain moves, neither from nor to the dead. */
  lemma Moves(c: Config, s: State, s': State, root: nat)
    requires Honest(c, s) && root in s'.chains && s'.chains == s.chains[root := s'.chains[root]]
    requires RegsKept(s, s') && SameGraves(s, s')
    requires root in s.chains ==> !s.chains[root].place.Dead?
    requires !s'.chains[root].place.Dead? && History(c, s', root)
    ensures Honest(c, s')
  {
    hide IsChain;
    forall q <- s'.chains
      ensures History(c, s', q)
    {
      if q != root {
        assert History(c, s, q);
      }
    }
  }

  lemma Stays(c: Config, s: State, s': State)
    requires Honest(c, s) && s'.chains == s.chains && RegsKept(s, s') && SameGraves(s, s')
    ensures Honest(c, s')
  {
    hide IsChain;
    forall q <- s'.chains
      ensures History(c, s', q)
    {
      assert History(c, s, q);
    }
  }

  /** A move that keeps the current delivery. */
  lemma Relocates(c: Config, s: State, s': State, root: nat)
    requires Honest(c, s) && root in s.chains && root in s'.chains && s'.chains == s.chains[root := s'.chains[root]]
    requires s'.chains[root] == s.chains[root].(place := s'.chains[root].place)
    requires RegsKept(s, s') && SameGraves(s, s') && !s.chains[root].place.Dead?
    requires
      var place := s'.chains[root].place;
      && !place.Dead? && !place.Staged?
      && (place.Sleeping? ==> !Spent(c, s.chains[root])) && (place.DeadLettering? ==> Spent(c, s.chains[root]))
      && (Sub(s, root) in s'.regs ==> !place.Gone? && !s'.regs[Sub(s, root)].replaying)
    ensures Honest(c, s')
  {
    assert History(c, s, root);
    hide IsChain, Histories, Graves;
    assert History(c, s', root);
    Moves(c, s, s', root);
  }

  // ---- Steps -------------------------------------------------------------------------------

  predicate Live(s: State, sub: nat) {
    sub in s.regs && sub in s.queues && !s.regs[sub].replaying
  }

  lemma NewChainHonest(c: Config, s: State, d: Delivery)
    requires Honest(c, s) && d.root !in s.chains && d.id == d.root && d.attempt == 1
    ensures Honest(c, NewChain(s, d))
  {
    var s' := NewChain(s, d);
    assert s'.chains[d.root] == Chain(d, Staged, [d]);
    hide Histories, Graves;
    assert History(c, s', d.root);
    Moves(c, s, s', d.root);
  }

  lemma ScheduleHonest(c: Config, s: State, d: Delivery)
    requires Honest(c, s) && d.root in s.chains && s.chains[d.root].cur == d && !s.chains[d.root].place.Dead?
    requires d.subscription in s.regs ==> !s.regs[d.subscription].replaying
    ensures Honest(c, Schedule(c, s, d))
  {
    hide Honest, Exhausted;
    Relocates(c, s, Schedule(c, s, d), d.root);
  }

  lemma PutQueueHonest(c: Config, s: State, d: Delivery)
    requires Honest(c, s) && Fresh(s, d) && Live(s, d.subscription)
    ensures Honest(c, PutQueue(s, d))
  {
    hide Honest;
    Relocates(c, s, PutQueue(s, d), d.root);
  }

  lemma EnqueueHonest(c: Config, s: State, d: Delivery)
    requires Honest(c, s) && Fresh(s, d) && Live(s, d.subscription)
    ensures Honest(c, Enqueue(c, s, d))
  {
    hide Honest, EnterRetry, PutQueue, Schedule;
    if HasRoom(s, d.subscription) {
      PutQueueHonest(c, s, d);
      Stays(c, PutQueue(s, d), Enqueue(c, s, d));
    } else {
      EnterHonest(c, s, s, d.subscription);
      ScheduleHonest(c, EnterRetry(s, d.subscription), d);
    }
  }

  lemma OfferHonest(c: Config, s: State, sub: nat, m: Message)
    requires Honest(c, s) && ChainsOk(s) && Live(s, sub)
    ensures Honest(c, Offer(c, s, sub, m))
  {
    ChainUnknown(s);
    hide Honest, ChainsOk, Enqueue;
    NewChainHonest(c, s, NewDelivery(s, sub, m));
    EnqueueHonest(c, NewChain(s, NewDelivery(s, sub, m)), NewDelivery(s, sub, m));
  }

  lemma DeliverHonest(c: Config, s: State, sub: nat, m: Message)
    requires Honest(c, s) && ChainsOk(s) && sub in s.regs && sub in s.queues
    ensures Honest(c, Deliver(c, s, sub, m))
  {
    var d := NewDelivery(s, sub, m);
    if s.regs[sub].replaying {
      ChainUnknown(s);
      hide Honest, ChainsOk;
      NewChainHonest(c, s, d);
      Stays(c, NewChain(s, d), Deliver(c, s, sub, m));
    } else {
      hide Honest, ChainsOk, Offer;
      OfferHonest(c, s, sub, m);
    }
  }

  lemma {:induction false} DeliverAllHonest(c: Config, s: State, targets: seq<nat>, m: Message)
    requires Honest(c, s) && Books(s, {}) && forall sub <- targets :: sub in s.regs && sub in s.queues
    ensures Honest(c, DeliverAll(c, s, targets, m))
    decreases |targets|
  {
    if targets != [] {
      hide Honest, Books, ChainsOk, Deliver;
      assert targets[0] in targets;
      BooksChains(s, {});
      DeliverHonest(c, s, targets[0], m);
      DeliverBooks(c, s, targets[0], m);
      DeliverAllHonest(c, Deliver(c, s, targets[0], m), targets[1..], m);
    }
  }

  lemma {:induction false} OfferHistoryHonest(c: Config, s: State, sub: nat, history: seq<Message>, loose: set<nat>)
    requires Honest(c, s) && Books(s, loose) && Live(s, sub) && loose <= s.chains.Keys
    ensures Honest(c, OfferHistory(c, s, sub, history))
    decreases |history|
  {
    if history != [] {
      hide Honest, Books, ChainsOk, Offer;
      BooksChains(s, loose);
      Known(s, loose);
      OfferHonest(c, s, sub, history[0]);
      OfferBooks(c, s, sub, history[0], loose);
      OfferHistoryHonest(c, Offer(c, s, sub, history[0]), sub, history[1..], loose);
    }
  }

  lemma {:induction false} OfferAllHonest(c: Config, s: State, sub: nat, ds: seq<Delivery>)
    requires Honest(c, s) && Live(s, sub) && ListOk(s, sub, ds, Staged)
    ensures (forall d <- ds :: d.root in s.chains && d.subscription in s.queues) && Honest(c, OfferAll(c, s, ds))
    decreases |ds|
  {
    OffersKnown(s, sub, ds);
    if ds != [] {
      hide Honest, ListOk, Enqueue, Roots;
      StagedHead(s, sub, ds);
      EnqueueHonest(c, s, ds[0]);
      EnqueueOthers(c, s, ds[0]);
      SameListOk(s, Enqueue(c, s, ds[0]), sub, ds[1..]);
      OfferAllHonest(c, Enqueue(c, s, ds[0]), sub, ds[1..]);
    }
  }

  lemma FlushHonest(c: Config, s: State, sub: nat, history: seq<Message>)
    requires Honest(c, s) && Books(s, {}) && BufferKnown(s, sub)
    ensures Honest(c, Flush(c, s, sub, history))
  {
    hide Honest, Books, ListOk, Roots, OfferHistory, OfferAll;
    var buffer, matching := s.regs[sub].buffer, Matching(s.regs[sub].tokens, history);
    BooksBuffer(s, sub);
    GoLiveBooks(s, sub);
    Stays(c, s, GoLive(s, sub));
    OfferHistoryBooks(c, GoLive(s, sub), sub, matching, Roots(buffer));
    OfferHistoryHonest(c, GoLive(s, sub), sub, matching, Roots(buffer));
    var s' := OfferHistory(c, GoLive(s, sub), sub, matching);
    SameListOk(s, s', sub, buffer);
    SortedListOk(s', sub, buffer);
    SortMembers(buffer);
    OfferAllHonest(c, s', sub, Sort(buffer, BufferKey));
  }

  lemma RefreshHonest(c: Config, s: State)
    requires Honest(c, s)
    ensures Honest(c, Refresh(c, s))
  {
    hide Honest, GateOpen;
    Stays(c, s, Refresh(c, s));
  }

  /** Chains that are flying or in limbo do not belong to a replaying registration. */
  lemma NotReplaying(c: Config, s: State, root: nat)
    requires Honest(c, s) && root in s.chains && !s.chains[root].place.Staged?
    ensures Sub(s, root) in s.regs ==> !s.regs[Sub(s, root)].replaying
  {
    assert History(c, s, root);
  }

  lemma TakeHonest(c: Config, s: State, sub: nat)
    requires Honest(c, s) && Books(s, {}) && sub in s.queues && s.queues[sub] != [] && s.queues[sub][0].root in s.chains
    ensures Honest(c, Take(s, sub))
  {
    QueueHead(s, sub);
    NotReplaying(c, s, s.queues[sub][0].root);
    hide Honest, Books;
    Relocates(c, s, Take(s, sub), s.queues[sub][0].root);
  }

  lemma AckHonest(c: Config, s: State, root: nat)
    requires Honest(c, s) && root in s.chains && s.chains[root].place.Held?
    ensures Honest(c, Ack(c, s, root))
  {
    NotReplaying(c, s, root);
    hide Honest, Refresh;
    Relocates(c, s, Settled(s, root, Acked), root);
    RefreshHonest(c, Settled(s, root, Acked));
  }

  lemma NackHonest(c: Config, s: State, root: nat)
    requires Honest(c, s) && root in s.chains && s.chains[root].cur.root == root && s.chains[root].place.Held?
    ensures Honest(c, Nack(c, s, root))
  {
    var d := s.chains[root].cur;
    NotReplaying(c, s, root);
    hide Honest, Refresh, EnterRetry, Schedule;
    if d.subscription !in s.regs {
      GoneHonest(c, s, root);
      RefreshHonest(c, Settled(s, root, Gone));
    } else {
      var s' := s.(inflight := s.inflight - {d.id});
      EnterHonest(c, s, s', d.subscription);
      ScheduleHonest(c, EnterRetry(s', d.subscription), d);
    }
  }

  lemma GoneHonest(c: Config, s: State, root: nat)
    requires Honest(c, s) && root in s.chains && s.chains[root].place.Held? && Sub(s, root) !in s.regs
    ensures Honest(c, Settled(s, root, Gone))
  {
    hide Honest;
    Relocates(c, s, Settled(s, root, Gone), root);
  }

  lemma EnterHonest(c: Config, s: State, s': State, sub: nat)
    requires Honest(c, s) && s'.chains == s.chains && s'.regs == s.regs && SameGraves(s, s')
    ensures Honest(c, EnterRetry(s', sub))
    ensures EnterRetry(s', sub).chains == s.chains && EnterRetry(s', sub).regs == s.regs
    ensures EnterRetry(s', sub).queues == s'.queues
  {
    hide Honest, Value;
    Stays(c, s, EnterRetry(s', sub));
  }

  lemma Extends(c: Config, chain: Chain, root: nat, d: Delivery)
    requires Trailed(c, chain, root) && Retries(c.policy, chain.cur, d)
    ensures Trailed(c, Chain(d, chain.place, chain.trail + [d]), root)
  {
    var trail := chain.trail + [d];
    forall i | 0 <= i < |trail| - 1
      ensures Retries(c.policy, trail[i], trail[i + 1])
    {
      assert i < |chain.trail| - 1 ==> Retries(c.policy, chain.trail[i], chain.trail[i + 1]);
    }
  }

  lemma RequeueMoves(s: State, d: Delivery)
    requires d.root in s.chains && d.subscription in s.queues
    ensures Requeue(s, d).chains == s.chains[d.root := s.chains[d.root].(place := Queued)]
    ensures Requeue(s, d).regs == s.regs && SameGraves(s, Requeue(s, d))
  {
    hide Value, Fewer;
  }

  lemma RenewedMoves(s: State, root: nat)
    requires root in s.chains && s.chains[root].cur.root == root
    ensures
      var s', d := Renewed(s, root), Redelivered(s.chains[root].cur, s.nextId);
      && s'.regs == s.regs && s'.queues == s.queues && SameGraves(s, s')
      && s'.chains == s.chains[root := Chain(d, Sleeping, s.chains[root].trail + [d])]
  {
  }

  lemma ScheduleMoves(c: Config, s: State, d: Delivery)
    requires d.root in s.chains
    ensures
      var s', place := Schedule(c, s, d), if Exhausted(c.policy, d.attempt + 1) then DeadLettering else Sleeping;
      && s'.regs == s.regs && SameGraves(s, s')
      && s'.chains == s.chains[d.root := s.chains[d.root].(place := place)]
  {
    hide Exhausted;
  }

  lemma WakeMoves(c: Config, s: State, root: nat)
    requires root in s.chains && s.chains[root].cur.root == root && s.chains[root].cur.subscription in s.queues
    ensures
      var s', d := Wake(c, s, root), Redelivered(s.chains[root].cur, s.nextId);
      && s'.regs == s.regs && SameGraves(s, s')
      && root in s'.chains && s'.chains == s.chains[root := s'.chains[root]]
      && s'.chains[root] == Chain(d, s'.chains[root].place, s.chains[root].trail + [d])
      && (s'.chains[root].place.Queued? ||
          s'.chains[root].place == if Exhausted(c.policy, d.attempt + 1) then DeadLettering else Sleeping)
  {
    var d := Redelivered(s.chains[root].cur, s.nextId);
    hide Exhausted, Requeue, Renewed, Schedule, HasRoom;
    RenewedMoves(s, root);
    RequeueMoves(Renewed(s, root), d);
    ScheduleMoves(c, Renewed(s, root), d);
  }

  /** The delivery that `_delayed` makes extends the trail; it is queued, or sleeps again, or is spent. */
  lemma WakeHonest(c: Config, s: State, root: nat)
    requires Honest(c, s) && root in s.chains && s.chains[root].place.Sleeping?
    requires s.chains[root].cur.root == root && s.chains[root].cur.subscription in s.queues
    ensures Honest(c, Wake(c, s, root))
  {
    WakeHistory(c, s, root);
    hide Honest, Wake, Trailed, History;
    WakeMoves(c, s, root);
    Moves(c, s, Wake(c, s, root), root);
  }

  lemma HonestChain(c: Config, s: State, root: nat)
    requires Honest(c, s) && root in s.chains
    ensures History(c, s, root)
  {
  }

  lemma WakeHistory(c: Config, s: State, root: nat)
    requires Honest(c, s) && root in s.chains && s.chains[root].place.Sleeping?
    requires s.chains[root].cur.root == root && s.chains[root].cur.subscription in s.queues
    ensures root in Wake(c, s, root).chains && History(c, Wake(c, s, root), root)
  {
    hide Honest, Wake;
    HonestChain(c, s, root);
    Extends(c, s.chains[root], root, Redelivered(s.chains[root].cur, s.nextId));
    WakeMoves(c, s, root);
  }

  lemma SubscribeHonest(c: Config, s: State, sub: nat, tokens: seq<string>, replay: bool)
    requires Honest(c, s) && Books(s, {}) && sub !in s.queues
    ensures Honest(c, Subscribe(c, s, sub, tokens, replay))
  {
    var s' := s.(regs := s.regs[sub := Registration(tokens, replay, [])], queues := s.queues[sub := []]);
    hide Books, ChainsOk, Honest, Refresh, Limbo;
    BooksChains(s, {});
    UnknownLimbo(s, sub);
    JoinedHonest(c, s, s', sub);
    RefreshHonest(c, s');
  }

  lemma JoinedHonest(c: Config, s: State, s': State, sub: nat)
    requires Honest(c, s) && (forall root <- s.chains :: Sub(s, root) != sub)
    requires s'.chains == s.chains && SameGraves(s, s') && s'.regs.Keys == s.regs.Keys + {sub}
    requires forall q | q in s.regs && q != sub :: s'.regs[q] == s.regs[q]
    ensures Honest(c, s')
  {
    JoinedGraves(s, s');
    hide Graves, Trailed;
    forall root <- s'.chains
      ensures History(c, s', root)
    {
      assert History(c, s, root);
    }
  }

  lemma JoinedGraves(s: State, s': State)
    requires Graves(s) && s'.chains == s.chains && SameGraves(s, s')
    ensures Graves(s')
  {
  }

  lemma DroppedHonest(c: Config, s: State, sub: nat)
    requires Honest(c, s)
    ensures Honest(c, Dropped(s, sub))
  {
    hide Honest, Value;
    Stays(c, s, Dropped(s, sub));
  }

  lemma RemoveHonest(c: Config, s: State, sub: nat)
    requires Honest(c, s)
    ensures Honest(c, Remove(c, s, sub))
  {
    hide Honest, Dropped, Refresh;
    DroppedHonest(c, s, sub);
    RefreshHonest(c, Dropped(s, sub));
  }

  lemma BuriedGraves(s: State, root: nat)
    requires Graves(s) && root in s.chains && s.chains[root].place.DeadLettering?
    ensures Graves(Buried(s, root))
  {
    hide DeadLetter;
  }

  lemma BuriedHonest(c: Config, s: State, root: nat)
    requires Honest(c, s) && root in s.chains && s.chains[root].place.DeadLettering? && Sub(s, root) !in s.regs
    ensures Honest(c, Buried(s, root))
  {
    BuriedGraves(s, root);
    hide Graves, IsChain, DeadLetter;
    var s' := Buried(s, root);
    forall q <- s'.chains
      ensures History(c, s', q)
    {
      assert History(c, s, q);
    }
  }

  lemma BuryHonest(c: Config, s: State, root: nat)
    requires Honest(c, s) && root in s.chains && s.chains[root].place.DeadLettering?
    ensures Honest(c, BuryAndEvict(c, s, root))
  {
    var sub := s.chains[root].cur.subscription;
    hide Honest, Refresh, Buried;
    DroppedHonest(c, s, sub);
    BuriedHonest(c, Dropped(s, sub), root);
    RefreshHonest(c, Buried(Dropped(s, sub), root));
  }

  lemma AllStaged(c: Config, s: State, sub: nat)
    requires Honest(c, s) && sub in s.regs && s.regs[sub].replaying
    ensures forall root <- s.chains :: Sub(s, root) == sub ==> s.chains[root].place.Staged?
  {
    forall root <- s.chains | Sub(s, root) == sub
      ensures s.chains[root].place.Staged?
    {
      assert History(c, s, root);
    }
  }

  lemma NoFlights(s: State, sub: nat)
    requires InflightOk(s) && forall root <- s.chains :: Sub(s, root) == sub ==> s.chains[root].place.Staged?
    ensures Dropped(s, sub).inflight == s.inflight
  {
    forall i <- s.inflight
      ensures s.inflight[i].subscription != sub
    {
      var d := s.inflight[i];
      assert s.chains[d.root].cur == d;
    }
  }

  lemma NoLimbo(s: State, sub: nat)
    requires PendingOk(s) && forall root <- s.chains :: Sub(s, root) == sub ==> s.chains[root].place.Staged?
    ensures sub !in s.pending
  {
    assert Limbo(s, sub) == {};
  }

  /** A failed replay leaves nothing behind that `_drop_inflight` would have to clear. */
  lemma FailedReplayOwesNothing(c: Config, s: State, sub: nat)
    requires Honest(c, s) && Books(s, {}) && sub in s.regs && s.regs[sub].replaying
    ensures s.(regs := s.regs - {sub}) == Dropped(s, sub)
  {
    hide Honest, InflightOk, FlyingOk, ChainsOk, QueuesOk, BuffersOk, PendingOk;
    AllStaged(c, s, sub);
    NoFlights(s, sub);
    NoLimbo(s, sub);
    assert s.pending - {sub} == s.pending;
    assert Dropped(s, sub) == s.(regs := s.regs - {sub}, inflight := Dropped(s, sub).inflight);
  }
}
