/** The order in which a replay reaches its subscriber: the history oldest first, then what was staged
    meanwhile, oldest first, then everything later. */
module BrokerReplay {
  import opened Types
  import opened Retry
  import opened Sorting
  import opened Router
  import opened Counting
  import opened BrokerState
  import opened BrokerInvariant
  import opened BrokerHistory
  import opened BrokerGate
  import opened BrokerRuns
  import Topic

  // ---- What enqueueing a list does ---------------------------------------------------------

  function Room(queue: seq<Delivery>): nat {
    if |queue| < QUEUE_BOUND then QUEUE_BOUND - |queue| else 0
  }

  /** How many of `n` deliveries find room behind `queue`. */
  function Fit(queue: seq<Delivery>, n: nat): (k: nat)
    ensures k <= n
  {
    if Room(queue) < n then Room(queue) else n
  }

  /** The place of a first attempt that finds the queue full. */
  function Spilled(c: Config): Place {
    if Exhausted(c.policy, 2) then DeadLettering else Sleeping
  }

  /** `s'` is `s` after enqueueing `ds` for `sub`: the queue takes what it has room for, in order; the
      rest is in limbo and accounted for there; nobody else is affected. */
  ghost predicate Offered(c: Config, s: State, s': State, sub: nat, ds: seq<Delivery>) {
    sub in s.queues && sub in s'.queues &&
    var k := Fit(s.queues[sub], |ds|);
    && s'.queues == s.queues[sub := s.queues[sub] + ds[..k]]
    && (forall i | 0 <= i < |ds| ::
          && ds[i].root in s'.chains && s'.chains[ds[i].root].cur == ds[i]
          && s'.chains[ds[i].root].place == if i < k then Queued else Spilled(c))
    && (forall i | 0 <= i < k :: ds[i].id in s'.inflight && s'.inflight[ds[i].id] == ds[i])
    && Value(s'.pending, sub) == Value(s.pending, sub) + |ds| - k
  }

  lemma EnqueueFits(c: Config, s: State, d: Delivery)
    requires d.root in s.chains && s.chains[d.root].cur == d && d.subscription in s.queues && HasRoom(s, d.subscription)
    ensures
      var s' := Enqueue(c, s, d);
      && s'.queues == s.queues[d.subscription := s.queues[d.subscription] + [d]]
      && d.root in s'.chains && s'.chains[d.root].cur == d && s'.chains[d.root].place.Queued?
      && s'.inflight == s.inflight[d.id := d] && s'.pending == s.pending && s'.nextId == s.nextId
  {
  }

  lemma EnqueueSpills(c: Config, s: State, d: Delivery)
    requires d.root in s.chains && s.chains[d.root].cur == d && d.subscription in s.queues
        && !HasRoom(s, d.subscription)
    requires d.attempt == 1
    ensures
      var s' := Enqueue(c, s, d);
      && s'.queues == s.queues
      && d.root in s'.chains && s'.chains[d.root].cur == d && s'.chains[d.root].place == Spilled(c)
      && s'.inflight == s.inflight && s'.nextId == s.nextId
          && Value(s'.pending, d.subscription) == Value(s.pending, d.subscription) + 1
  {
  }

  /** Offers add up, when the second leaves alone what the first did. */
  lemma OfferedThen(c: Config, s: State, s1: State, s2: State, sub: nat, a: seq<Delivery>, b: seq<Delivery>)
    requires Offered(c, s, s1, sub, a) && Offered(c, s1, s2, sub, b)
    requires forall d <- a :: d.root in s1.chains && d.root in s2.chains && s2.chains[d.root] == s1.chains[d.root]
    requires forall d <- a | d.id in s1.inflight :: d.id in s2.inflight && s2.inflight[d.id] == s1.inflight[d.id]
    ensures Offered(c, s, s2, sub, a + b)
  {
    OfferedQueue(c, s, s1, s2, sub, a, b);
    var ds := a + b;
    var k := Fit(s.queues[sub], |ds|);
    forall i | 0 <= i < |ds|
      ensures ds[i].root in s2.chains && s2.chains[ds[i].root].cur == ds[i]
      ensures s2.chains[ds[i].root].place == if i < k then Queued else Spilled(c)
      ensures i < k ==> ds[i].id in s2.inflight && s2.inflight[ds[i].id] == ds[i]
    {
      if i < |a| {
        assert ds[i] == a[i] && a[i] in a;
      } else {
        assert ds[i] == b[i - |a|];
      }
    }
  }

  lemma OfferedQueue(c: Config, s: State, s1: State, s2: State, sub: nat, a: seq<Delivery>, b: seq<Delivery>)
    requires Offered(c, s, s1, sub, a) && Offered(c, s1, s2, sub, b)
    ensures s2.queues == s.queues[sub := s.queues[sub] + (a + b)[..Fit(s.queues[sub], |a| + |b|)]]
    ensures Fit(s.queues[sub], |a| + |b|) == Fit(s.queues[sub], |a|) + Fit(s1.queues[sub], |b|)
    ensures Fit(s1.queues[sub], |b|) > 0 ==> Fit(s.queues[sub], |a|) == |a|
    ensures Value(s2.pending, sub) == Value(s.pending, sub) + |a| + |b| - Fit(s.queues[sub], |a| + |b|)
  {
    var k0, k1 := Fit(s.queues[sub], |a|), Fit(s1.queues[sub], |b|);
    assert a[..k0] + b[..k1] == (a + b)[..k0 + k1];
    assert s.queues[sub] + a[..k0] + b[..k1] == s.queues[sub] + (a + b)[..k0 + k1];
  }

  lemma EnqueueOffers(c: Config, s: State, d: Delivery)
    requires Fresh(s, d) && d.subscription in s.queues && d.attempt == 1
    ensures Offered(c, s, Enqueue(c, s, d), d.subscription, [d])
    ensures Enqueue(c, s, d).nextId == s.nextId
    ensures forall i <- s.inflight | i != d.id ::
              i in Enqueue(c, s, d).inflight && Enqueue(c, s, d).inflight[i] == s.inflight[i]
  {
    hide Enqueue, Spilled;
    if HasRoom(s, d.subscription) {
      EnqueueFits(c, s, d);
      assert [d][..1] == [d];
    } else {
      EnqueueSpills(c, s, d);
      assert s.queues[d.subscription] + [d][..0] == s.queues[d.subscription];
      assert s.queues == s.queues[d.subscription := s.queues[d.subscription]];
    }
  }

  // ---- The staged buffer -------------------------------------------------------------------

  ghost predicate FirstAttempts(ds: seq<Delivery>) {
    forall d <- ds :: d.attempt == 1 && d.id == d.root
  }

  /** What enqueueing `ds` leaves alone. */
  ghost predicate Untouched(s: State, s': State, ds: seq<Delivery>) {
    && (forall root <- s.chains | root !in Roots(ds) :: root in s'.chains && s'.chains[root] == s.chains[root])
    && (forall i <- s.inflight | i !in Roots(ds) :: i in s'.inflight && s'.inflight[i] == s.inflight[i])
  }

  lemma OfferedFirst(c: Config, s: State, s1: State, s2: State, sub: nat, ds: seq<Delivery>)
    requires ds != [] && Offered(c, s, s1, sub, [ds[0]]) && Offered(c, s1, s2, sub, ds[1..])
    requires Untouched(s1, s2, ds[1..]) && ds[0].root !in Roots(ds[1..]) && ds[0].id == ds[0].root
    ensures Offered(c, s, s2, sub, ds)
  {
    hide Roots, Offered;
    OfferedPlaces(c, s, s1, sub, [ds[0]]);
    assert [ds[0]][0] == ds[0];
    OfferedThen(c, s, s1, s2, sub, [ds[0]], ds[1..]);
    assert [ds[0]] + ds[1..] == ds;
  }

  lemma UntouchedFirst(s: State, s1: State, s2: State, ds: seq<Delivery>)
    requires ds != [] && Untouched(s1, s2, ds[1..]) && Untouched(s, s1, ds[..1])
    ensures Untouched(s, s2, ds)
  {
    RootsOf(ds, ds[..1]);
    RootsOf(ds, ds[1..]);
    hide Roots;
  }

  lemma RootsOf(ds: seq<Delivery>, part: seq<Delivery>)
    requires forall d <- part :: d in ds
    ensures Roots(part) <= Roots(ds)
  {
  }

  lemma FirstUntouched(s: State, s': State, d: Delivery)
    requires forall root <- s.chains | root != d.root :: root in s'.chains && s'.chains[root] == s.chains[root]
    requires forall i <- s.inflight | i != d.root :: i in s'.inflight && s'.inflight[i] == s.inflight[i]
    ensures Untouched(s, s', [d])
  {
    assert d in [d];
  }

  lemma OffersThen(c: Config, s: State, s1: State, s2: State, sub: nat, ds: seq<Delivery>)
    requires ds != [] && Offered(c, s, s1, sub, [ds[0]]) && Offered(c, s1, s2, sub, ds[1..])
    requires Untouched(s1, s2, ds[1..]) && ds[0].root !in Roots(ds[1..]) && ds[0].id == ds[0].root
    requires forall root <- s.chains | root != ds[0].root :: root in s1.chains && s1.chains[root] == s.chains[root]
    requires forall i <- s.inflight | i != ds[0].root :: i in s1.inflight && s1.inflight[i] == s.inflight[i]
    ensures Offered(c, s, s2, sub, ds) && Untouched(s, s2, ds)
  {
    hide Offered, Untouched, Roots;
    OfferedFirst(c, s, s1, s2, sub, ds);
    FirstUntouched(s, s1, ds[0]);
    assert [ds[0]] == ds[..1];
    UntouchedFirst(s, s1, s2, ds);
  }

  lemma {:induction false} OfferAllOffers(c: Config, s: State, sub: nat, ds: seq<Delivery>)
    requires sub in s.queues && ListOk(s, sub, ds, Staged) && FirstAttempts(ds)
    ensures
      (forall d <- ds :: d.root in s.chains && d.subscription in s.queues) &&
      Offered(c, s, OfferAll(c, s, ds), sub, ds) && Untouched(s, OfferAll(c, s, ds), ds)
    decreases |ds|
  {
    OffersKnown(s, sub, ds);
    if ds != [] {
      hide ListOk, Enqueue, Roots, Offered, Untouched, Fresh;
      var s1 := Enqueue(c, s, ds[0]);
      assert ds[0] in ds;
      StagedHead(s, sub, ds);
      EnqueueOffers(c, s, ds[0]);
      EnqueueOthers(c, s, ds[0]);
      SameListOk(s, s1, sub, ds[1..]);
      OfferAllOffers(c, s1, sub, ds[1..]);
      OffersThen(c, s, s1, OfferAll(c, s, ds), sub, ds);
    } else {
      OffersNothing(c, s, sub);
    }
  }

  lemma OffersNothing(c: Config, s: State, sub: nat)
    requires sub in s.queues
    ensures Offered(c, s, s, sub, [])
  {
    var none: seq<Delivery> := [];
    assert s.queues[sub] + none[..0] == s.queues[sub];
    assert s.queues == s.queues[sub := s.queues[sub]];
  }

  // ---- The history -------------------------------------------------------------------------

  /** First attempts at `messages`, with consecutive ids. */
  function Made(id: nat, sub: nat, messages: seq<Message>): (ds: seq<Delivery>)
    ensures |ds| == |messages|
    ensures forall i | 0 <= i < |ds| :: ds[i] == Delivery(id + i, sub, messages[i], 1, id + i)
    decreases |messages|
  {
    if messages == [] then [] else [Delivery(id, sub, messages[0], 1, id)] + Made(id + 1, sub, messages[1..])
  }

  lemma OfferOffers(c: Config, s: State, sub: nat, m: Message)
    requires Placed(s) && sub in s.queues
    ensures
      var s' := Offer(c, s, sub, m);
      && Offered(c, s, s', sub, [NewDelivery(s, sub, m)]) && s'.nextId == s.nextId + 1
      && Kept(s, s')
  {
    hide ChainsOk, InflightOk, FlyingOk, Enqueue, Offered;
    var d := NewDelivery(s, sub, m);
    FreshId(s);
    OfferOthers(c, s, sub, m);
    EnqueueOffers(c, NewChain(s, d), d);
    NewChainOffers(c, s, d, Offer(c, s, sub, m));
  }

  lemma NewChainOffers(c: Config, s: State, d: Delivery, s': State)
    requires d.subscription in s.queues && Offered(c, NewChain(s, d), s', d.subscription, [d])
    ensures Offered(c, s, s', d.subscription, [d])
  {
  }

  /** What offering history leaves alone: everything that was there. */
  ghost predicate Kept(s: State, s': State) {
    && (forall root <- s.chains :: root in s'.chains && s'.chains[root] == s.chains[root])
    && (forall i <- s.inflight :: i in s'.inflight && s'.inflight[i] == s.inflight[i])
  }

  lemma OfferedNext(c: Config, s: State, s1: State, s2: State, sub: nat, d: Delivery, ds: seq<Delivery>)
    requires Offered(c, s, s1, sub, [d]) && Offered(c, s1, s2, sub, ds) && Kept(s1, s2)
    ensures Offered(c, s, s2, sub, [d] + ds)
  {
    hide Offered;
    OfferedPlaces(c, s, s1, sub, [d]);
    assert [d][0] == d;
    OfferedThen(c, s, s1, s2, sub, [d], ds);
  }

  lemma KeptThen(s: State, s1: State, s2: State)
    requires Kept(s, s1) && Kept(s1, s2)
    ensures Kept(s, s2)
  {
  }

  lemma OfferNext(c: Config, s: State, sub: nat, m: Message, loose: set<nat>)
    requires Books(s, loose) && sub in s.regs && sub in s.queues && loose <= s.chains.Keys
    ensures
      var s' := Offer(c, s, sub, m);
      && Books(s', loose) && sub in s'.regs && sub in s'.queues && loose <= s'.chains.Keys
      && Offered(c, s, s', sub, [NewDelivery(s, sub, m)]) && s'.nextId == s.nextId + 1 && Kept(s, s')
  {
    hide Books, Offer, Placed, Offered, QueuesOk, BuffersOk, PendingOk;
    BooksParts(s, loose);
    FreshRoot(s, loose);
    OfferBooks(c, s, sub, m, loose);
    OfferOffers(c, s, sub, m);
  }

  lemma MadeFirst(s: State, sub: nat, messages: seq<Message>)
    requires messages != []
    ensures Made(s.nextId, sub, messages) == [NewDelivery(s, sub, messages[0])] + Made(s.nextId + 1, sub, messages[1..])
  {
  }

  lemma {:induction false} OfferHistoryOffers(c: Config, s: State, sub: nat, messages: seq<Message>, loose: set<nat>)
    requires Books(s, loose) && sub in s.regs && sub in s.queues && loose <= s.chains.Keys
    ensures
      var s' := OfferHistory(c, s, sub, messages);
      Offered(c, s, s', sub, Made(s.nextId, sub, messages)) && Kept(s, s')
    decreases |messages|
  {
    if messages == [] {
      OffersNothing(c, s, sub);
    } else {
      hide Books, Offer, Offered, Kept, Made, NewDelivery;
      var s1 := Offer(c, s, sub, messages[0]);
      OfferNext(c, s, sub, messages[0], loose);
      OfferHistoryOffers(c, s1, sub, messages[1..], loose);
      var s2 := OfferHistory(c, s1, sub, messages[1..]);
      assert OfferHistory(c, s, sub, messages) == s2;
      KeptThen(s, s1, s2);
      MadeFirst(s, sub, messages);
      OfferedNext(c, s, s1, s2, sub, NewDelivery(s, sub, messages[0]), Made(s1.nextId, sub, messages[1..]));
    }
  }

  lemma OfferedPlaces(c: Config, s: State, s': State, sub: nat, ds: seq<Delivery>)
    requires Offered(c, s, s', sub, ds)
    ensures forall i | 0 <= i < |ds| :: ds[i].root in s'.chains
  {
  }

  lemma FreshRoot(s: State, roots: set<nat>)
    requires Placed(s) && roots <= s.chains.Keys
    ensures s.nextId !in roots
  {
    Known(s, roots);
  }

  // ---- The flush ---------------------------------------------------------------------------

  lemma GoLiveOffers(c: Config, s: State, sub: nat, s': State, ds: seq<Delivery>)
    requires sub in s.regs && Offered(c, GoLive(s, sub), s', sub, ds)
    ensures Offered(c, s, s', sub, ds)
  {
  }

  lemma BufferFirstAttempts(c: Config, s: State, sub: nat)
    requires Inv(c, s) && sub in s.regs
    ensures FirstAttempts(s.regs[sub].buffer)
  {
    BooksBuffer(s, sub);
    var buffer := s.regs[sub].buffer;
    hide Books, GateOk;
    forall d <- buffer
      ensures d.attempt == 1 && d.id == d.root
    {
      assert History(c, s, d.root);
    }
  }

  lemma {:induction false} MatchingOrdered(tokens: seq<string>, history: seq<Message>)
    requires NonDecreasing(history, CreatedAt)
    ensures NonDecreasing(Matching(tokens, history), CreatedAt)
    ensures forall m :: m in Matching(tokens, history) <==> m in history && Topic.Denotes(tokens, Topic.Split(m.topic))
    decreases |history|
  {
    if history != [] {
      assert forall m <- history[1..] :: m in history && CreatedAt(history[0]) <= CreatedAt(m);
      MatchingOrdered(tokens, history[1..]);
      hide NonDecreasing;
      assert forall m <- Matching(tokens, history[1..]) :: m in history[1..];
      if Topic.Denotes(tokens, Topic.Split(history[0].topic)) {
        Prepend(history[0], Matching(tokens, history[1..]), CreatedAt);
      }
    }
  }

  /** The staged deliveries, oldest first; those of one time stay in the order in which they were
      published. */
  ghost predicate Handover(staged: seq<Delivery>, offered: seq<Delivery>) {
    && NonDecreasing(offered, BufferKey)
    && multiset(offered) == multiset(staged)
    && forall k :: At(offered, BufferKey, k) == At(staged, BufferKey, k)
  }

  /** For a history read in time order, the flush offers the queue the matching history, oldest first,
      and then the staged deliveries, oldest first. The queue takes exactly the first of these that it
      has room for, in that order; all the others sleep in limbo, and none is lost. */
  lemma FlushKeepsAge(c: Config, s: State, sub: nat, history: seq<Message>)
    requires Sane(c) && Reachable(c, s) && sub in s.regs && s.regs[sub].replaying && NonDecreasing(history, CreatedAt)
    ensures BufferKnown(s, sub) && Spilled(c) == Sleeping
    ensures
      var past, live := Matching(s.regs[sub].tokens, history), Sort(s.regs[sub].buffer, BufferKey);
      && NonDecreasing(past, CreatedAt) && Handover(s.regs[sub].buffer, live)
      && (forall m :: m in past <==> m in history && Topic.Denotes(s.regs[sub].tokens, Topic.Split(m.topic)))
      && Offered(c, s, Flush(c, s, sub, history), sub, Made(s.nextId, sub, past) + live)
  {
    ReachableInv(c, s);
    hide Reachable, Inv, Offered, NonDecreasing;
    SortIsStable(s.regs[sub].buffer, BufferKey);
    MatchingOrdered(s.regs[sub].tokens, history);
    FlushOffers(c, s, sub, history);
  }

  lemma FlushOffers(c: Config, s: State, sub: nat, history: seq<Message>)
    requires Inv(c, s) && sub in s.regs
    ensures
      BufferKnown(s, sub) &&
      Offered(c, s, Flush(c, s, sub, history), sub,
              Made(s.nextId, sub, Matching(s.regs[sub].tokens, history)) + Sort(s.regs[sub].buffer, BufferKey))
  {
    hide Inv, Books, ListOk, Roots, OfferHistory, OfferAll, Offered, FirstAttempts, Kept, Untouched;
    var buffer, matching := s.regs[sub].buffer, Matching(s.regs[sub].tokens, history);
    InvBooks(c, s);
    BooksLinked(s);
    BooksBuffer(s, sub);
    BufferFirstAttempts(c, s, sub);
    GoLiveBooks(s, sub);
    var live := GoLive(s, sub);
    BooksChains(live, Roots(buffer));
    OfferHistoryBooks(c, live, sub, matching, Roots(buffer));
    OfferHistoryOffers(c, live, sub, matching, Roots(buffer));
    var s1, ds := OfferHistory(c, live, sub, matching), Sort(buffer, BufferKey);
    SameListOk(s, s1, sub, buffer);
    SortedListOk(s1, sub, buffer);
    SortMembers(buffer);
    SortedFirst(buffer);
    OfferAllOffers(c, s1, sub, ds);
    OfferedAfter(c, live, s1, OfferAll(c, s1, ds), sub, matching, ds);
    GoLiveOffers(c, s, sub, OfferAll(c, s1, ds), Made(s.nextId, sub, matching) + ds);
  }

  lemma SortedFirst(buffer: seq<Delivery>)
    requires FirstAttempts(buffer)
    ensures FirstAttempts(Sort(buffer, BufferKey))
  {
    SortMembers(buffer);
  }

  /** The staged deliveries were drawn before the history's. */
  lemma OfferedAfter(c: Config, s: State, s1: State, s2: State, sub: nat, messages: seq<Message>, ds: seq<Delivery>)
    requires ChainsOk(s) && Roots(ds) <= s.chains.Keys
    requires Offered(c, s, s1, sub, Made(s.nextId, sub, messages)) && Offered(c, s1, s2, sub, ds)
        && Untouched(s1, s2, ds)
    ensures Offered(c, s, s2, sub, Made(s.nextId, sub, messages) + ds)
  {
    hide Offered;
    var made := Made(s.nextId, sub, messages);
    OfferedPlaces(c, s, s1, sub, made);
    forall d <- made
      ensures d.root !in Roots(ds) && d.id == d.root && d.root in s1.chains
    {
      var i :| 0 <= i < |made| && made[i] == d;
    }
    OfferedThen(c, s, s1, s2, sub, made, ds);
  }

  // ---- Queues are first in, first out ------------------------------------------------------

  /** Every queue still starts with all it held. */
  ghost predicate Behind(s: State, s': State) {
    forall sub <- s.queues :: sub in s'.queues && s.queues[sub] <= s'.queues[sub]
  }

  lemma EnqueueBehind(c: Config, s: State, d: Delivery)
    requires d.root in s.chains && d.subscription in s.queues
    ensures Behind(s, Enqueue(c, s, d))
  {
    hide Schedule, Value, HasRoom;
    if HasRoom(s, d.subscription) {
      assert Enqueue(c, s, d).queues == s.queues[d.subscription := s.queues[d.subscription] + [d]];
    }
  }

  lemma OfferBehind(c: Config, s: State, sub: nat, m: Message)
    requires sub in s.queues
    ensures Behind(s, Offer(c, s, sub, m))
  {
    hide Enqueue;
    EnqueueBehind(c, NewChain(s, NewDelivery(s, sub, m)), NewDelivery(s, sub, m));
  }

  lemma DeliverBehind(c: Config, s: State, sub: nat, m: Message)
    requires sub in s.regs && sub in s.queues
    ensures Behind(s, Deliver(c, s, sub, m))
  {
    hide Offer;
    if !s.regs[sub].replaying {
      OfferBehind(c, s, sub, m);
    }
  }

  lemma {:induction false} DeliverAllBehind(c: Config, s: State, targets: seq<nat>, m: Message)
    requires forall sub <- targets :: sub in s.regs && sub in s.queues
    ensures Behind(s, DeliverAll(c, s, targets, m))
    decreases |targets|
  {
    if targets != [] {
      hide Deliver;
      assert targets[0] in targets;
      DeliverBehind(c, s, targets[0], m);
      DeliverAllBehind(c, Deliver(c, s, targets[0], m), targets[1..], m);
    }
  }

  lemma {:induction false} OfferHistoryBehind(c: Config, s: State, sub: nat, history: seq<Message>)
    requires sub in s.queues
    ensures Behind(s, OfferHistory(c, s, sub, history))
    decreases |history|
  {
    if history != [] {
      hide Offer;
      OfferBehind(c, s, sub, history[0]);
      OfferHistoryBehind(c, Offer(c, s, sub, history[0]), sub, history[1..]);
    }
  }

  lemma {:induction false} OfferAllBehind(c: Config, s: State, ds: seq<Delivery>)
    requires forall d <- ds :: d.root in s.chains && d.subscription in s.queues
    ensures Behind(s, OfferAll(c, s, ds))
    decreases |ds|
  {
    if ds != [] {
      hide Enqueue;
      assert ds[0] in ds;
      EnqueueBehind(c, s, ds[0]);
      OfferAllBehind(c, Enqueue(c, s, ds[0]), ds[1..]);
    }
  }

  lemma FlushBehind(c: Config, s: State, sub: nat, history: seq<Message>)
    requires BufferKnown(s, sub)
    ensures Behind(s, Flush(c, s, sub, history))
  {
    hide OfferHistory, OfferAll, Matching;
    SortMembers(s.regs[sub].buffer);
    var matching := Matching(s.regs[sub].tokens, history);
    OfferHistoryBehind(c, GoLive(s, sub), sub, matching);
    OfferAllBehind(c, OfferHistory(c, GoLive(s, sub), sub, matching), Sort(s.regs[sub].buffer, BufferKey));
  }

  lemma RequeueBehind(s: State, d: Delivery)
    requires d.root in s.chains && d.subscription in s.queues
    ensures Behind(s, Requeue(s, d))
  {
    hide Value, Fewer;
    assert Requeue(s, d).queues == s.queues[d.subscription := s.queues[d.subscription] + [d]];
  }

  lemma WakeBehind(c: Config, s: State, root: nat)
    requires root in s.chains && s.chains[root].cur.root == root && s.chains[root].cur.subscription in s.queues
    ensures Behind(s, Wake(c, s, root))
  {
    hide Requeue, Schedule, Renewed;
    var d := Redelivered(s.chains[root].cur, s.nextId);
    RenewedMoves(s, root);
    if HasRoom(s, d.subscription) {
      RequeueBehind(Renewed(s, root), d);
    }
  }

  lemma RefreshQueues(c: Config, s: State)
    ensures Refresh(c, s).queues == s.queues
  {
    hide GateOpen;
  }

  lemma GateQueues(c: Config, s: State, p: nat, m: Message)
    ensures Gate(c, s, p, m).queues == s.queues
  {
    hide Gate;
    GateSame(c, s, p, m);
  }

  lemma NackQueues(c: Config, s: State, root: nat)
    requires root in s.chains && s.chains[root].cur.root == root
    ensures Nack(c, s, root).queues == s.queues
  {
    hide Refresh, Value, Exhausted;
    RefreshQueues(c, Settled(s, root, Gone));
  }

  /** Queues are first in, first out: only a consumer takes from one, at the head, and every other step
      leaves all that is queued where it is, so later deliveries come behind. */
  lemma FirstInFirstOut(c: Config, s: State, step: Step)
    requires Linked(s) && Enabled(s, step)
    ensures !step.Consume? ==> Behind(s, Apply(c, s, step))
    ensures step.Consume? ==> Apply(c, s, step).queues == s.queues[step.sub := s.queues[step.sub][1..]]
  {
    hide Targets, Gate, DeliverAll, Flush, Nack, Wake, Refresh, Dropped;
    match step
    case Arrive(p, m) => GateQueues(c, s, p, m);
    case Reconsider(p) => GateQueues(c, s, p, s.woken[p]);
    case Fanout(p, targets) => FanoutBehind(c, s, p, targets);
    case Join(sub, tokens, replay) =>
      RefreshQueues(c, s.(regs := s.regs[sub := Registration(tokens, replay, [])], queues := s.queues[sub := []]));
    case FlushReplay(sub, history) => FlushBehind(c, s, sub, history);
    case FailReplay(sub) =>
    case Consume(sub) => TakeQueues(s, sub);
    case Acknowledge(root) => RefreshQueues(c, Settled(s, root, Acked));
    case Refuse(root) => NackQueues(c, s, root);
    case WakeUp(root) => WakeBehind(c, s, root);
    case Bury(root) => BuryQueues(c, s, root);
    case Leave(sub) =>
      RefreshQueues(c, Dropped(s, sub));
      DroppedQueues(s, sub);
  }

  lemma FanoutBehind(c: Config, s: State, p: nat, targets: seq<nat>)
    requires Linked(s) && Enabled(s, Fanout(p, targets))
    ensures Behind(s, Apply(c, s, Fanout(p, targets)))
  {
    hide DeliverAll;
    DeliverAllBehind(c, s, targets, s.passed[p]);
  }

  lemma TakeQueues(s: State, sub: nat)
    requires Linked(s) && sub in s.queues && s.queues[sub] != []
    ensures s.queues[sub][0] in s.queues[sub] && Take(s, sub).queues == s.queues[sub := s.queues[sub][1..]]
  {
    assert s.queues[sub][0] in s.queues[sub];
  }

  lemma DroppedQueues(s: State, sub: nat)
    ensures Dropped(s, sub).queues == s.queues && Dropped(s, sub).chains == s.chains
  {
  }

  lemma BuryQueues(c: Config, s: State, root: nat)
    requires root in s.chains
    ensures BuryAndEvict(c, s, root).queues == s.queues
  {
    hide Dropped, Refresh, DeadLetter;
    var s' := Dropped(s, s.chains[root].cur.subscription);
    DroppedQueues(s, s.chains[root].cur.subscription);
    RefreshQueues(c, Buried(s', root));
  }

  /** No queue ever holds more than 128 deliveries. */
  lemma QueuesAreBounded(c: Config, s: State, sub: nat)
    requires Reachable(c, s) && sub in s.queues
    ensures |s.queues[sub]| <= 128
  {
    ReachableInv(c, s);
    hide Reachable, Honest, GateOk, Placed, BuffersOk, PendingOk, ListOk;
  }

  /** A redelivery is queued exactly if fewer than 128 deliveries wait; otherwise the attempt is spent. */
  lemma RedeliveryQueuesExactly(c: Config, s: State, root: nat)
    requires Linked(s) && Enabled(s, WakeUp(root))
    ensures
      var s', sub := Apply(c, s, WakeUp(root)), s.chains[root].cur.subscription;
      && sub in s.queues && root in s'.chains
      && (s'.chains[root].place.Queued? <==> |s.queues[sub]| < 128)
  {
    hide Exhausted, Renewed, Requeue, Schedule;
    var d := Redelivered(s.chains[root].cur, s.nextId);
    RenewedMoves(s, root);
    if HasRoom(s, d.subscription) {
      RequeueMoves(Renewed(s, root), d);
    } else {
      ScheduleMoves(c, Renewed(s, root), d);
    }
  }
}
