/** The broker's fields mirror where every delivery is, in every reachable state. */
module BrokerInvariant {
  import opened Types
  import opened Retry
  import opened Sorting
  import opened Router
  import opened Counting
  import opened BrokerState

  function Sub(s: State, root: nat): nat
    requires root in s.chains
  {
    s.chains[root].cur.subscription
  }

  // ---- The invariant -----------------------------------------------------------------------

  /** Ids are drawn once, for one chain. */
  ghost predicate ChainsOk(s: State) {
    && (forall root <- s.chains :: var d := s.chains[root].cur;
          d.root == root && d.id < s.nextId && root < s.nextId && d.subscription in s.queues
          && d.id in s.owner && s.owner[d.id] == root)
    && (forall id <- s.owner :: id < s.nextId)
  }

  /** Every in-flight entry, even of a removed subscription, is the delivery its chain is at. */
  ghost predicate InflightOk(s: State) {
    forall i <- s.inflight :: var d := s.inflight[i];
      d.id == i && d.root in s.chains && s.chains[d.root].cur == d && Flying(s.chains[d.root].place)
  }

  /** Queued and held deliveries of registered subscriptions are in flight. */
  ghost predicate FlyingOk(s: State) {
    forall root <- s.chains :: var d := s.chains[root].cur;
      Flying(s.chains[root].place) && d.subscription in s.regs ==> d.id in s.inflight && s.inflight[d.id] == d
  }

  ghost predicate ListOk(s: State, sub: nat, list: seq<Delivery>, place: Place) {
    && (forall d <- list ::
          d.subscription == sub && d.root in s.chains && s.chains[d.root].cur == d && s.chains[d.root].place == place)
    && (forall i, j | 0 <= i < j < |list| :: list[i].root != list[j].root)
  }

  ghost predicate QueuesOk(s: State) {
    && (forall sub <- s.queues :: ListOk(s, sub, s.queues[sub], Queued) && |s.queues[sub]| <= QUEUE_BOUND)
    && (forall root <- s.chains | s.chains[root].place.Queued? ::
          Sub(s, root) in s.queues && s.chains[root].cur in s.queues[Sub(s, root)])
  }

  /** Staged deliveries of registered subscriptions are buffered, except those of `loose`. */
  ghost predicate BuffersOk(s: State, loose: set<nat>) {
    && s.regs.Keys <= s.queues.Keys
    && (forall sub <- s.regs ::
          && ListOk(s, sub, s.regs[sub].buffer, Staged)
          && (!s.regs[sub].replaying ==> s.regs[sub].buffer == [])
          && (forall d <- s.regs[sub].buffer :: d.root !in loose))
    && (forall root <- s.chains | s.chains[root].place.Staged? && root !in loose && Sub(s, root) in s.regs ::
          s.chains[root].cur in s.regs[Sub(s, root)].buffer)
  }

  function Limbo(s: State, sub: nat): set<nat> {
    set root | root in s.chains && s.chains[root].cur.subscription == sub && InLimbo(s.chains[root].place)
  }

  function LiveLimbo(s: State): set<nat> {
    set root | root in s.chains && s.chains[root].cur.subscription in s.regs && InLimbo(s.chains[root].place)
  }

  /** `_retry_pending` counts each registered subscription's limbo, and the total adds it up. */
  ghost predicate PendingOk(s: State) {
    && (forall sub <- s.pending :: sub in s.regs && s.pending[sub] > 0)
    && (forall sub <- s.regs :: |Limbo(s, sub)| == Value(s.pending, sub))
    && s.pendingTotal == Sum(s.pending)
    && s.pendingTotal == |LiveLimbo(s)|
  }

  ghost predicate Placed(s: State) {
    ChainsOk(s) && InflightOk(s) && FlyingOk(s)
  }

  ghost predicate Books(s: State, loose: set<nat>) {
    Placed(s) && QueuesOk(s) && BuffersOk(s, loose) && PendingOk(s)
  }

  // ---- One chain moves ---------------------------------------------------------------------

  /** `s'` differs from `s` in the chain `root` and possibly in other fields. */
  ghost predicate OneChain(s: State, s': State, root: nat) {
    && root in s'.chains && s'.chains == s.chains[root := s'.chains[root]]
    && s'.regs.Keys == s.regs.Keys
    && (root in s.chains ==> s.chains[root].cur.subscription == s'.chains[root].cur.subscription)
  }

  predicate WasFlying(s: State, root: nat) {
    root in s.chains && Flying(s.chains[root].place)
  }

  predicate WasLimbo(s: State, root: nat) {
    root in s.chains && InLimbo(s.chains[root].place)
  }

  /** The in-flight map follows the chain. */
  lemma MovePlaced(s: State, s': State, root: nat)
    requires Placed(s) && OneChain(s, s', root) && ChainsOk(s')
    requires
      var d := s'.chains[root].cur;
      if Flying(s'.chains[root].place) then
        if WasFlying(s, root) then s'.inflight == s.inflight && s.chains[root].cur == d
        else s'.inflight == s.inflight[d.id := d]
      else if WasFlying(s, root) then s'.inflight == s.inflight - {s.chains[root].cur.id}
      else s'.inflight == s.inflight
    ensures Placed(s')
  {
    FlightHasOwner(s);
  }

  lemma MoveChains(s: State, s': State, root: nat)
    requires ChainsOk(s) && OneChain(s, s', root)
    requires s'.queues.Keys == s.queues.Keys && s'.nextId >= s.nextId
    requires s'.owner == s.owner[s'.chains[root].cur.id := root] && s'.chains[root].cur.id !in s.owner
    requires
      var d := s'.chains[root].cur;
      d.root == root && d.id < s'.nextId && root < s'.nextId && d.subscription in s'.queues
    ensures ChainsOk(s')
  {
  }

  lemma SamePlace(s: State, s': State, root: nat)
    requires ChainsOk(s) && OneChain(s, s', root) && root in s.chains && s'.chains[root].cur == s.chains[root].cur
    requires s'.queues.Keys == s.queues.Keys && s'.nextId == s.nextId && s'.owner == s.owner
    ensures ChainsOk(s')
  {
  }

  lemma FlightHasOwner(s: State)
    requires Placed(s)
    ensures forall i <- s.inflight :: i in s.owner && s.owner[i] == s.inflight[i].root
  {
  }

  lemma LimboMoves(s: State, s': State, root: nat)
    requires OneChain(s, s', root)
    ensures
      var sub, was, now := Sub(s', root), WasLimbo(s, root), InLimbo(s'.chains[root].place);
      && (forall q | q != sub || now == was :: Limbo(s', q) == Limbo(s, q))
      && (now == was || sub !in s.regs ==> LiveLimbo(s') == LiveLimbo(s))
      && (now && !was ==> Limbo(s', sub) == Limbo(s, sub) + {root} && root !in Limbo(s, sub) && root !in LiveLimbo(s))
      && (now && !was && sub in s.regs ==> LiveLimbo(s') == LiveLimbo(s) + {root})
      && (was && !now ==> Limbo(s', sub) == Limbo(s, sub) - {root} && root in Limbo(s, sub))
      && (was && !now && sub in s.regs ==> LiveLimbo(s') == LiveLimbo(s) - {root} && root in LiveLimbo(s))
  {
  }

  /** A move within or outside limbo, or of a removed subscription's chain, changes no counter. */
  lemma PendingStays(s: State, s': State, root: nat)
    requires PendingOk(s) && OneChain(s, s', root)
    requires Sub(s', root) in s.regs ==> InLimbo(s'.chains[root].place) == WasLimbo(s, root)
    requires s'.pending == s.pending && s'.pendingTotal == s.pendingTotal
    ensures PendingOk(s')
  {
    LimboMoves(s, s', root);
  }

  lemma LimboSizes(s: State, s': State, root: nat)
    requires OneChain(s, s', root)
    ensures
      var sub, was, now := Sub(s', root), WasLimbo(s, root), InLimbo(s'.chains[root].place);
      var change := (if now then 1 else 0) - (if was then 1 else 0);
      && (forall q | q != sub :: |Limbo(s', q)| == |Limbo(s, q)|)
      && |Limbo(s', sub)| == |Limbo(s, sub)| + change
      && |LiveLimbo(s')| == |LiveLimbo(s)| + (if sub in s.regs then change else 0)
  {
    LimboMoves(s, s', root);
  }

  lemma PendingEnters(s: State, s': State, root: nat)
    requires PendingOk(s) && OneChain(s, s', root) && Sub(s', root) in s.regs
    requires InLimbo(s'.chains[root].place) && !WasLimbo(s, root)
    requires s'.pending == s.pending[Sub(s', root) := Value(s.pending, Sub(s', root)) + 1]
    requires s'.pendingTotal == s.pendingTotal + 1
    ensures PendingOk(s')
  {
    hide PendingOk, Limbo, LiveLimbo;
    LimboSizes(s, s', root);
    CountedUp(s, s', Sub(s', root));
  }

  lemma CountedUp(s: State, s': State, sub: nat)
    requires PendingOk(s) && s'.regs.Keys == s.regs.Keys && sub in s.regs
    requires forall q | q != sub :: |Limbo(s', q)| == |Limbo(s, q)|
    requires |Limbo(s', sub)| == |Limbo(s, sub)| + 1 && |LiveLimbo(s')| == |LiveLimbo(s)| + 1
    requires s'.pending == s.pending[sub := Value(s.pending, sub) + 1] && s'.pendingTotal == s.pendingTotal + 1
    ensures PendingOk(s')
  {
    hide Limbo, LiveLimbo;
    SumUpdate(s.pending, sub, Value(s.pending, sub) + 1);
  }

  lemma PendingLeaves(s: State, s': State, root: nat)
    requires PendingOk(s) && OneChain(s, s', root) && Sub(s', root) in s.regs
    requires !InLimbo(s'.chains[root].place) && WasLimbo(s, root)
    ensures Value(s.pending, Sub(s', root)) > 0
    ensures s'.pending == Fewer(s.pending, Sub(s', root)) && s'.pendingTotal == s.pendingTotal - 1 ==> PendingOk(s')
  {
    var sub := Sub(s', root);
    LimboSizes(s, s', root);
    SumFewer(s.pending, sub);
    FewerValues(s.pending, sub);
  }

  /** A chain that is on no list stays off the lists. */
  lemma MoveUnlisted(s: State, s': State, root: nat, loose: set<nat>)
    requires QueuesOk(s) && BuffersOk(s, loose) && OneChain(s, s', root)
    requires s'.queues == s.queues && s'.regs == s.regs
    requires root in s.chains ==> !s.chains[root].place.Queued? && (s.chains[root].place.Staged? ==> root in loose)
    requires !s'.chains[root].place.Queued? && !s'.chains[root].place.Staged?
    ensures QueuesOk(s') && BuffersOk(s', loose - {root})
  {
    hide QueuesOk, BuffersOk;
    UnlistedQueues(s, s', root);
    UnlistedBuffers(s, s', root, loose);
  }

  lemma UnlistedQueues(s: State, s': State, root: nat)
    requires QueuesOk(s) && OneChain(s, s', root) && s'.queues == s.queues
    requires root in s.chains ==> !s.chains[root].place.Queued?
    requires !s'.chains[root].place.Queued?
    ensures QueuesOk(s')
  {
  }

  lemma MoveNew(s: State, s': State, root: nat, loose: set<nat>)
    requires QueuesOk(s) && BuffersOk(s, loose) && OneChain(s, s', root)
    requires s'.queues == s.queues && s'.regs == s.regs
    requires root !in s.chains && s'.chains[root].place.Staged?
    ensures QueuesOk(s') && BuffersOk(s', loose + {root})
  {
    hide QueuesOk, BuffersOk;
    UnlistedQueues(s, s', root);
    NewBuffers(s, s', root, loose);
  }

  lemma UnlistedBuffers(s: State, s': State, root: nat, loose: set<nat>)
    requires BuffersOk(s, loose) && OneChain(s, s', root) && s'.queues == s.queues && s'.regs == s.regs
    requires root in s.chains ==> (s.chains[root].place.Staged? ==> root in loose)
    requires !s'.chains[root].place.Staged?
    ensures BuffersOk(s', loose - {root})
  {
  }

  lemma NewBuffers(s: State, s': State, root: nat, loose: set<nat>)
    requires BuffersOk(s, loose) && OneChain(s, s', root) && s'.queues == s.queues && s'.regs == s.regs
    requires root !in s.chains && s'.chains[root].place.Staged?
    ensures BuffersOk(s', loose + {root})
  {
  }

  lemma MovePush(s: State, s': State, root: nat, loose: set<nat>)
    requires QueuesOk(s) && BuffersOk(s, loose) && OneChain(s, s', root)
    requires s'.regs == s.regs && s'.chains[root].place.Queued? && s'.chains[root].cur.root == root
    requires root in s.chains && !s.chains[root].place.Queued? && (s.chains[root].place.Staged? ==> root in loose)
    requires
      var sub := Sub(s, root);
      sub in s.queues && HasRoom(s, sub) && s'.queues == s.queues[sub := s.queues[sub] + [s'.chains[root].cur]]
    ensures QueuesOk(s') && BuffersOk(s', loose - {root})
  {
    PushQueues(s, s', root, loose);
    UnstagedBuffers(s, s', root, loose);
  }

  lemma PushQueues(s: State, s': State, root: nat, loose: set<nat>)
    requires QueuesOk(s) && BuffersOk(s, loose) && OneChain(s, s', root)
    requires s'.regs == s.regs && s'.chains[root].place.Queued? && s'.chains[root].cur.root == root
    requires root in s.chains && !s.chains[root].place.Queued? && (s.chains[root].place.Staged? ==> root in loose)
    requires
      var sub := Sub(s, root);
      sub in s.queues && HasRoom(s, sub) && s'.queues == s.queues[sub := s.queues[sub] + [s'.chains[root].cur]]
    ensures QueuesOk(s')
  {
    hide BuffersOk, ListOk, HasRoom;
    var sub := Sub(s, root);
    var queue, queue' := s.queues[sub], s'.queues[sub];
    forall q <- s'.queues
      ensures ListOk(s', q, s'.queues[q], Queued)
    {
      UnmovedList(s, s', root, q, s.queues[q]);
      PushedList(s, s', root, queue);
    }
    assert |queue'| <= QUEUE_BOUND by {
      RoomLeft(s, sub);
    }
    assert forall d <- queue :: d in queue';
    assert s'.chains[root].cur in queue';
  }

  lemma RoomLeft(s: State, sub: nat)
    requires sub in s.queues && HasRoom(s, sub)
    ensures |s.queues[sub]| < QUEUE_BOUND
  {
  }

  lemma UnmovedList(s: State, s': State, root: nat, sub: nat, list: seq<Delivery>)
    requires ListOk(s, sub, list, Queued) && OneChain(s, s', root)
    requires root in s.chains ==> !s.chains[root].place.Queued?
    ensures ListOk(s', sub, list, Queued)
  {
  }

  lemma PushedList(s: State, s': State, root: nat, list: seq<Delivery>)
    requires root in s.chains && OneChain(s, s', root) && ListOk(s, Sub(s, root), list, Queued)
    requires !s.chains[root].place.Queued? && s'.chains[root].place.Queued? && s'.chains[root].cur.root == root
    ensures ListOk(s', Sub(s, root), list + [s'.chains[root].cur], Queued)
  {
    assert forall i | 0 <= i < |list| :: list[i] in list;
  }

  lemma MovePop(s: State, s': State, sub: nat)
    requires ChainsOk(s) && QueuesOk(s) && BuffersOk(s, {}) && sub in s.queues && s.queues[sub] != []
    requires OneChain(s, s', s.queues[sub][0].root) && s'.regs == s.regs
    requires s'.chains[s.queues[sub][0].root].place.Held?
    requires s'.queues == s.queues[sub := s.queues[sub][1..]]
    ensures QueuesOk(s') && BuffersOk(s', {})
  {
    assert s.queues[sub][0] in s.queues[sub];
    PopQueues(s, s', sub);
    UnstagedBuffers(s, s', s.queues[sub][0].root, {});
  }

  lemma UnstagedBuffers(s: State, s': State, root: nat, loose: set<nat>)
    requires BuffersOk(s, loose) && OneChain(s, s', root) && s'.regs == s.regs && s'.queues.Keys == s.queues.Keys
    requires root in s.chains && (s.chains[root].place.Staged? ==> root in loose) && !s'.chains[root].place.Staged?
    ensures BuffersOk(s', loose - {root})
  {
  }

  lemma PopQueues(s: State, s': State, sub: nat)
    requires ChainsOk(s) && QueuesOk(s) && sub in s.queues && s.queues[sub] != []
    requires OneChain(s, s', s.queues[sub][0].root) && s'.regs == s.regs
    requires s'.chains[s.queues[sub][0].root].place.Held?
    requires s'.queues == s.queues[sub := s.queues[sub][1..]]
    ensures QueuesOk(s')
  {
    var root := s.queues[sub][0].root;
    PoppedList(s, sub, s.queues[sub], Queued);
    forall q <- s'.queues
      ensures ListOk(s', q, s'.queues[q], Queued)
    {
      ListStays(s, s', q, s'.queues[q], Queued, root);
    }
  }

  lemma ListStays(s: State, s': State, sub: nat, list: seq<Delivery>, place: Place, root: nat)
    requires ListOk(s, sub, list, place) && OneChain(s, s', root) && forall d <- list :: d.root != root
    ensures ListOk(s', sub, list, place)
  {
  }

  lemma PoppedList(s: State, sub: nat, list: seq<Delivery>, place: Place)
    requires ListOk(s, sub, list, place) && list != []
    ensures ListOk(s, sub, list[1..], place)
    ensures list[0].subscription == sub && list[0].root in s.chains && s.chains[list[0].root].cur == list[0]
    ensures forall d <- list[1..] :: d.root != list[0].root
    ensures forall d <- list :: d == list[0] || d in list[1..]
  {
    assert list[0] in list;
    assert forall d <- list[1..] :: d in list;
  }

  lemma BufferPush(s: State, d: Delivery)
    requires BuffersOk(s, {d.root}) && d.root in s.chains && s.chains[d.root].cur == d
    requires s.chains[d.root].place.Staged? && d.subscription in s.regs && s.regs[d.subscription].replaying
    ensures BuffersOk(SetBuffer(s, d.subscription, s.regs[d.subscription].buffer + [d]), {})
  {
  }

  lemma QueuesStay(s: State, s': State)
    requires QueuesOk(s) && s'.chains == s.chains && s'.queues == s.queues
    ensures QueuesOk(s')
  {
  }

  // ---- Every step keeps the books ----------------------------------------------------------

  /** Only the gate's fields differ. */
  predicate SameBooks(s: State, s': State) {
    && s'.regs == s.regs && s'.queues == s.queues && s'.inflight == s.inflight && s'.pending == s.pending
    && s'.pendingTotal == s.pendingTotal && s'.nextId == s.nextId && s'.owner == s.owner && s'.chains == s.chains
  }

  lemma GatePending(s: State, s': State)
    requires PendingOk(s) && s'.chains == s.chains && s'.regs.Keys == s.regs.Keys
    requires s'.pending == s.pending && s'.pendingTotal == s.pendingTotal
    ensures PendingOk(s')
  {
    assert LiveLimbo(s') == LiveLimbo(s);
    forall sub
      ensures Limbo(s', sub) == Limbo(s, sub)
    {
    }
  }

  lemma GateLists(s: State, s': State, loose: set<nat>)
    requires QueuesOk(s) && BuffersOk(s, loose) && s'.chains == s.chains && s'.regs == s.regs && s'.queues == s.queues
    ensures QueuesOk(s') && BuffersOk(s', loose)
  {
  }

  lemma GateBooks(s: State, s': State, loose: set<nat>)
    requires Books(s, loose) && SameBooks(s, s')
    ensures Books(s', loose)
  {
    hide QueuesOk, BuffersOk, PendingOk;
    GatePending(s, s');
    GateLists(s, s', loose);
  }

  lemma RefreshSame(c: Config, s: State)
    ensures SameBooks(s, Refresh(c, s))
  {
    hide GateOpen, SameBooks;
    if GateOpen(c, s) {
      OpenedSame(s);
    } else {
      SameSelf(s);
    }
  }

  lemma OpenedSame(s: State)
    ensures SameBooks(s, s.(admit := true, woken := s.woken + s.parked, parked := map[]))
  {
  }

  lemma SameSelf(s: State)
    ensures SameBooks(s, s)
  {
  }

  lemma NewChainBooks(s: State, sub: nat, m: Message, loose: set<nat>)
    requires Books(s, loose) && sub in s.queues
    ensures
      var d := NewDelivery(s, sub, m);
      Books(NewChain(s, d), loose + {d.root}) && d.root !in s.chains
  {
    var d := NewDelivery(s, sub, m);
    var s' := NewChain(s, d);
    ChainUnknown(s);
    hide ChainsOk, InflightOk, FlyingOk, QueuesOk, BuffersOk, PendingOk;
    MoveChains(s, s', d.root);
    MovePlaced(s, s', d.root);
    MoveNew(s, s', d.root, loose);
    PendingStays(s, s', d.root);
  }

  lemma ChainUnknown(s: State)
    requires ChainsOk(s)
    ensures s.nextId !in s.chains && s.nextId !in s.owner
  {
  }

  lemma ChainKnown(s: State, root: nat)
    requires ChainsOk(s) && root in s.chains
    ensures s.chains[root].cur.root == root
  {
  }

  predicate Fresh(s: State, d: Delivery) {
    d.root in s.chains && s.chains[d.root].cur == d && s.chains[d.root].place.Staged?
  }

  lemma EnqueueBooks(c: Config, s: State, d: Delivery, loose: set<nat>)
    requires Books(s, loose) && d.root in loose && Fresh(s, d) && d.subscription in s.regs && d.subscription in s.queues
    ensures Books(Enqueue(c, s, d), loose - {d.root})
  {
    hide Books;
    if HasRoom(s, d.subscription) {
      QueueUpBooks(s, d, loose);
    } else {
      SpillBooks(c, s, d, loose);
    }
  }

  lemma QueueUpBooks(s: State, d: Delivery, loose: set<nat>)
    requires Books(s, loose) && d.root in loose && Fresh(s, d) && d.subscription in s.regs && d.subscription in s.queues
    requires HasRoom(s, d.subscription)
    ensures Books(RecordInflight(PutQueue(s, d), d), loose - {d.root})
  {
    hide ChainsOk, InflightOk, FlyingOk, QueuesOk, BuffersOk, PendingOk;
    var s' := RecordInflight(PutQueue(s, d), d);
    ChainKnown(s, d.root);
    SamePlace(s, s', d.root);
    MovePlaced(s, s', d.root);
    MovePush(s, s', d.root, loose);
    PendingStays(s, s', d.root);
  }

  lemma SpillBooks(c: Config, s: State, d: Delivery, loose: set<nat>)
    requires Books(s, loose) && d.root in loose && Fresh(s, d) && d.subscription in s.regs
    ensures Books(Schedule(c, EnterRetry(s, d.subscription), d), loose - {d.root})
  {
    hide ChainsOk, InflightOk, FlyingOk, QueuesOk, BuffersOk, PendingOk;
    var s' := Schedule(c, EnterRetry(s, d.subscription), d);
    ChainKnown(s, d.root);
    SamePlace(s, s', d.root);
    MovePlaced(s, s', d.root);
    MoveUnlisted(s, s', d.root, loose);
    PendingEnters(s, s', d.root);
  }

  lemma OfferBooks(c: Config, s: State, sub: nat, m: Message, loose: set<nat>)
    requires Books(s, loose) && sub in s.regs && sub in s.queues && NewDelivery(s, sub, m).root !in loose
    ensures Books(Offer(c, s, sub, m), loose)
  {
    hide Books, Enqueue;
    var d := NewDelivery(s, sub, m);
    NewChainBooks(s, sub, m, loose);
    EnqueueBooks(c, NewChain(s, d), d, loose + {d.root});
    assert loose + {d.root} - {d.root} == loose;
  }

  lemma DeliverBooks(c: Config, s: State, sub: nat, m: Message)
    requires Books(s, {}) && sub in s.regs && sub in s.queues
    ensures Books(Deliver(c, s, sub, m), {})
  {
    if s.regs[sub].replaying {
      StageBooks(c, s, sub, m);
    } else {
      OfferBooks(c, s, sub, m, {});
    }
  }

  lemma StageBooks(c: Config, s: State, sub: nat, m: Message)
    requires Books(s, {}) && sub in s.regs && sub in s.queues && s.regs[sub].replaying
    ensures Books(Deliver(c, s, sub, m), {})
  {
    hide ChainsOk, InflightOk, FlyingOk, QueuesOk, BuffersOk, PendingOk;
    var d := NewDelivery(s, sub, m);
    NewChainBooks(s, sub, m, {});
    assert {} + {d.root} == {d.root};
    SetRegBooks(NewChain(s, d), Deliver(c, s, sub, m));
    QueuesStay(NewChain(s, d), Deliver(c, s, sub, m));
    BufferPush(NewChain(s, d), d);
  }

  lemma SetRegBooks(s: State, s': State)
    requires Placed(s) && PendingOk(s) && s' == s.(regs := s'.regs) && s'.regs.Keys == s.regs.Keys
    ensures Placed(s') && PendingOk(s')
  {
    assert LiveLimbo(s') == LiveLimbo(s);
    forall q
      ensures Limbo(s', q) == Limbo(s, q)
    {
    }
  }

  lemma {:induction false} DeliverAllBooks(c: Config, s: State, targets: seq<nat>, m: Message)
    requires Books(s, {}) && forall sub <- targets :: sub in s.regs && sub in s.queues
    ensures Books(DeliverAll(c, s, targets, m), {})
    decreases |targets|
  {
    if targets != [] {
      assert targets[0] in targets;
      DeliverBooks(c, s, targets[0], m);
      DeliverAllBooks(c, Deliver(c, s, targets[0], m), targets[1..], m);
    }
  }

  lemma Known(s: State, roots: set<nat>)
    requires ChainsOk(s) && roots <= s.chains.Keys
    ensures s.nextId !in roots
  {
  }

  lemma MovedOthers(s: State, root: nat, place: Place)
    requires root in s.chains
    ensures forall other <- s.chains | other != root :: Moved(s, root, place).chains[other] == s.chains[other]
  {
  }

  lemma EnqueueOthers(c: Config, s: State, d: Delivery)
    requires d.root in s.chains && d.subscription in s.queues
    ensures forall root <- s.chains | root != d.root :: Enqueue(c, s, d).chains[root] == s.chains[root]
  {
    hide Exhausted, HasRoom, Value, Moved;
    if HasRoom(s, d.subscription) {
      MovedOthers(s, d.root, Queued);
    } else {
      hide PutQueue;
      var s1 := EnterRetry(s, d.subscription);
      MovedOthers(s1, d.root, if Exhausted(c.policy, d.attempt + 1) then DeadLettering else Sleeping);
    }
  }

  lemma OfferOthers(c: Config, s: State, sub: nat, m: Message)
    requires ChainsOk(s) && sub in s.queues
    ensures forall root <- s.chains :: Offer(c, s, sub, m).chains[root] == s.chains[root]
  {
    ChainUnknown(s);
    hide ChainsOk, Enqueue;
    EnqueueOthers(c, NewChain(s, NewDelivery(s, sub, m)), NewDelivery(s, sub, m));
  }

  lemma BooksChains(s: State, loose: set<nat>)
    requires Books(s, loose)
    ensures ChainsOk(s)
  {
  }

  lemma {:induction false} OfferHistoryBooks(c: Config, s: State, sub: nat, history: seq<Message>, loose: set<nat>)
    requires Books(s, loose) && sub in s.regs && sub in s.queues && loose <= s.chains.Keys
    ensures Books(OfferHistory(c, s, sub, history), loose)
    ensures forall root <- s.chains :: OfferHistory(c, s, sub, history).chains[root] == s.chains[root]
    decreases |history|
  {
    if history != [] {
      hide Books, Offer, ChainsOk;
      BooksChains(s, loose);
      Known(s, loose);
      OfferBooks(c, s, sub, history[0], loose);
      OfferOthers(c, s, sub, history[0]);
      OfferHistoryBooks(c, Offer(c, s, sub, history[0]), sub, history[1..], loose);
    }
  }

  function Roots(ds: seq<Delivery>): set<nat> {
    set d | d in ds :: d.root
  }

  lemma StagedHead(s: State, sub: nat, ds: seq<Delivery>)
    requires ListOk(s, sub, ds, Staged) && ds != []
    ensures Fresh(s, ds[0]) && ds[0].subscription == sub && ListOk(s, sub, ds[1..], Staged)
    ensures ds[0].root in Roots(ds) && Roots(ds) - {ds[0].root} == Roots(ds[1..]) && Roots(ds[1..]) <= s.chains.Keys
  {
    assert ds[0] in ds;
    PoppedList(s, sub, ds, Staged);
  }

  lemma OffersKnown(s: State, sub: nat, ds: seq<Delivery>)
    requires sub in s.queues && ListOk(s, sub, ds, Staged)
    ensures forall d <- ds :: d.root in s.chains && d.subscription in s.queues
  {
  }

  /** Enqueueing staged deliveries that have left their buffer puts each of them on the books. */
  lemma {:induction false} OfferAllBooks(c: Config, s: State, sub: nat, ds: seq<Delivery>)
    requires Books(s, Roots(ds)) && sub in s.regs && sub in s.queues && ListOk(s, sub, ds, Staged)
    ensures (forall d <- ds :: d.root in s.chains && d.subscription in s.queues) && Books(OfferAll(c, s, ds), {})
    decreases |ds|
  {
    OffersKnown(s, sub, ds);
    if ds != [] {
      hide Books, ListOk, Enqueue, Roots;
      StagedHead(s, sub, ds);
      EnqueueBooks(c, s, ds[0], Roots(ds));
      EnqueueOthers(c, s, ds[0]);
      SameListOk(s, Enqueue(c, s, ds[0]), sub, ds[1..]);
      OfferAllBooks(c, Enqueue(c, s, ds[0]), sub, ds[1..]);
    } else {
      assert Roots(ds) == {};
    }
  }

  lemma GoLiveBuffers(s: State, sub: nat)
    requires ChainsOk(s) && BuffersOk(s, {}) && sub in s.regs
    ensures BuffersOk(GoLive(s, sub), Roots(s.regs[sub].buffer))
  {
    var s', roots := GoLive(s, sub), Roots(s.regs[sub].buffer);
    assert forall q | q in s.regs && q != sub :: s'.regs[q] == s.regs[q];
    forall root <- s.chains | s.chains[root].place.Staged? && root !in roots && Sub(s, root) in s.regs
      ensures s.chains[root].cur in s'.regs[Sub(s, root)].buffer
    {
      var d := s.chains[root].cur;
      assert d in s.regs[d.subscription].buffer;
    }
  }

  lemma GoLiveBooks(s: State, sub: nat)
    requires Books(s, {}) && sub in s.regs
    ensures Books(GoLive(s, sub), Roots(s.regs[sub].buffer))
  {
    hide ChainsOk, InflightOk, FlyingOk, QueuesOk, BuffersOk, PendingOk;
    SetRegBooks(s, GoLive(s, sub));
    QueuesStay(s, GoLive(s, sub));
    GoLiveBuffers(s, sub);
  }

  /** Sorting keeps a list of different staged deliveries one. */
  lemma SortedListOk(s: State, sub: nat, ds: seq<Delivery>)
    requires ListOk(s, sub, ds, Staged)
    ensures ListOk(s, sub, Sort(ds, BufferKey), Staged) && Roots(Sort(ds, BufferKey)) == Roots(ds)
  {
    var sorted := Sort(ds, BufferKey);
    SortMembers(ds);
    SortIsStable(ds, BufferKey);
    forall i, j | 0 <= i < j < |sorted|
      ensures sorted[i].root != sorted[j].root
    {
      assert sorted[i] in ds && sorted[j] in ds;
      DistinctCounts(ds);
      CountsDistinct(sorted, i, j);
    }
  }

  lemma {:induction false} DistinctCounts<T>(xs: seq<T>)
    requires forall i, j | 0 <= i < j < |xs| :: xs[i] != xs[j]
    ensures forall x :: multiset(xs)[x] <= 1
  {
    if xs != [] {
      DistinctCounts(xs[1..]);
      assert xs == [xs[0]] + xs[1..];
      assert xs[0] !in xs[1..];
    }
  }

  lemma CountsDistinct<T>(xs: seq<T>, i: nat, j: nat)
    requires i < j < |xs| && forall x :: multiset(xs)[x] <= 1
    ensures xs[i] != xs[j]
  {
    assert xs == xs[..j] + xs[j..];
    assert xs[i] == xs[..j][i] && xs[j] == xs[j..][0];
    assert multiset(xs) == multiset(xs[..j]) + multiset(xs[j..]);
    assert xs[i] in multiset(xs[..j]) && xs[j] in multiset(xs[j..]);
    assert multiset(xs)[xs[j]] == multiset(xs[..j])[xs[j]] + multiset(xs[j..])[xs[j]];
  }

  lemma SameListOk(s: State, s': State, sub: nat, ds: seq<Delivery>)
    requires ListOk(s, sub, ds, Staged) && Roots(ds) <= s'.chains.Keys
    requires forall root <- Roots(ds) :: root in s.chains && s'.chains[root] == s.chains[root]
    ensures ListOk(s', sub, ds, Staged)
  {
    assert forall d <- ds :: d.root in Roots(ds);
  }

  lemma BufferListOk(s: State, sub: nat)
    requires BuffersOk(s, {}) && sub in s.regs
    ensures sub in s.queues && ListOk(s, sub, s.regs[sub].buffer, Staged) && Roots(s.regs[sub].buffer) <= s.chains.Keys
    ensures BufferKnown(s, sub)
  {
  }

  lemma FlushBooks(c: Config, s: State, sub: nat, history: seq<Message>)
    requires Books(s, {}) && BufferKnown(s, sub)
    ensures Books(Flush(c, s, sub, history), {})
  {
    hide Books, ListOk, Roots, OfferHistory, OfferAll;
    var buffer, matching := s.regs[sub].buffer, Matching(s.regs[sub].tokens, history);
    BooksBuffer(s, sub);
    GoLiveBooks(s, sub);
    OfferHistoryBooks(c, GoLive(s, sub), sub, matching, Roots(buffer));
    var s' := OfferHistory(c, GoLive(s, sub), sub, matching);
    SameListOk(s, s', sub, buffer);
    SortedListOk(s', sub, buffer);
    SortMembers(buffer);
    OfferAllBooks(c, s', sub, Sort(buffer, BufferKey));
  }

  lemma BooksBuffer(s: State, sub: nat)
    requires Books(s, {}) && sub in s.regs
    ensures sub in s.queues && ListOk(s, sub, s.regs[sub].buffer, Staged) && Roots(s.regs[sub].buffer) <= s.chains.Keys
  {
    BufferListOk(s, sub);
  }

  lemma QueueHead(s: State, sub: nat)
    requires QueuesOk(s) && sub in s.queues && s.queues[sub] != []
    ensures
      var d := s.queues[sub][0];
      d.root in s.chains && s.chains[d.root].cur == d && s.chains[d.root].place.Queued?
  {
    assert s.queues[sub][0] in s.queues[sub];
  }

  lemma TakeBooks(s: State, sub: nat)
    requires Books(s, {}) && sub in s.queues && s.queues[sub] != [] && s.queues[sub][0].root in s.chains
    ensures Books(Take(s, sub), {})
  {
    hide ChainsOk, InflightOk, FlyingOk, QueuesOk, BuffersOk, PendingOk;
    var s', root := Take(s, sub), s.queues[sub][0].root;
    QueueHead(s, sub);
    SamePlace(s, s', root);
    MovePlaced(s, s', root);
    MovePop(s, s', sub);
    PendingStays(s, s', root);
  }

  function Settled(s: State, root: nat, place: Place): State
    requires root in s.chains
  {
    Moved(s, root, place).(inflight := s.inflight - {s.chains[root].cur.id})
  }

  /** Settling a held delivery for good. */
  lemma SettleBooks(s: State, root: nat, place: Place)
    requires Books(s, {}) && root in s.chains && s.chains[root].place.Held? && (place.Acked? || place.Gone?)
    ensures Books(Settled(s, root, place), {})
  {
    hide ChainsOk, InflightOk, FlyingOk, QueuesOk, BuffersOk, PendingOk;
    var s' := Settled(s, root, place);
    SamePlace(s, s', root);
    MovePlaced(s, s', root);
    MoveUnlisted(s, s', root, {});
    PendingStays(s, s', root);
    assert {} - {root} == {};
  }

  lemma AckBooks(c: Config, s: State, root: nat)
    requires Books(s, {}) && root in s.chains && s.chains[root].place.Held?
    ensures Books(Ack(c, s, root), {})
  {
    hide Books, SameBooks, Refresh;
    SettleBooks(s, root, Acked);
    RefreshSame(c, Settled(s, root, Acked));
    GateBooks(Settled(s, root, Acked), Ack(c, s, root), {});
  }

  lemma NackBooks(c: Config, s: State, root: nat)
    requires Books(s, {}) && root in s.chains && s.chains[root].cur.root == root && s.chains[root].place.Held?
    ensures Books(Nack(c, s, root), {})
  {
    if s.chains[root].cur.subscription !in s.regs {
      hide Books, SameBooks, Refresh;
      SettleBooks(s, root, Gone);
      RefreshSame(c, Settled(s, root, Gone));
      GateBooks(Settled(s, root, Gone), Nack(c, s, root), {});
    } else {
      NackLiveBooks(c, s, root);
    }
  }

  lemma NackLiveBooks(c: Config, s: State, root: nat)
    requires Books(s, {}) && root in s.chains && s.chains[root].cur.root == root && s.chains[root].place.Held?
    requires s.chains[root].cur.subscription in s.regs
    ensures Books(Nack(c, s, root), {})
  {
    hide ChainsOk, InflightOk, FlyingOk, QueuesOk, BuffersOk, PendingOk;
    var s' := Nack(c, s, root);
    SamePlace(s, s', root);
    MovePlaced(s, s', root);
    MoveUnlisted(s, s', root, {});
    PendingEnters(s, s', root);
    assert {} - {root} == {};
  }

  lemma RenewBooks(s: State, root: nat)
    requires Books(s, {}) && root in s.chains && s.chains[root].place.Sleeping?
    ensures Books(Renewed(s, root), {})
  {
    var s' := Renewed(s, root);
    ChainUnknown(s);
    ChainKnown(s, root);
    hide ChainsOk, InflightOk, FlyingOk, QueuesOk, BuffersOk, PendingOk;
    MoveChains(s, s', root);
    MovePlaced(s, s', root);
    MoveUnlisted(s, s', root, {});
    PendingStays(s, s', root);
    assert {} - {root} == {};
  }

  lemma Unregistered(s: State, sub: nat)
    requires PendingOk(s) && sub !in s.regs
    ensures Value(s.pending, sub) == 0
  {
  }

  /** A wakeup for a removed subscription finds no share to give back, but still puts its delivery in
      flight. */
  lemma RequeueBooks(s: State, d: Delivery)
    requires Books(s, {}) && d.root in s.chains && s.chains[d.root].cur == d && s.chains[d.root].place.Sleeping?
    requires d.subscription in s.queues && HasRoom(s, d.subscription)
    ensures Books(Requeue(s, d), {})
  {
    hide ChainsOk, InflightOk, FlyingOk, QueuesOk, BuffersOk, PendingOk, Fewer;
    var s' := Requeue(s, d);
    ChainKnown(s, d.root);
    SamePlace(s, s', d.root);
    MovePlaced(s, s', d.root);
    MovePush(s, s', d.root, {});
    assert {} - {d.root} == {};
    if d.subscription in s.regs {
      PendingLeaves(s, s', d.root);
    } else {
      Unregistered(s, d.subscription);
      PendingStays(s, s', d.root);
    }
  }

  lemma BounceBooks(c: Config, s: State, d: Delivery)
    requires Books(s, {}) && d.root in s.chains && s.chains[d.root].cur == d && s.chains[d.root].place.Sleeping?
    ensures Books(Schedule(c, s, d), {})
  {
    hide ChainsOk, InflightOk, FlyingOk, QueuesOk, BuffersOk, PendingOk;
    var s' := Schedule(c, s, d);
    SamePlace(s, s', d.root);
    MovePlaced(s, s', d.root);
    MoveUnlisted(s, s', d.root, {});
    PendingStays(s, s', d.root);
    assert {} - {d.root} == {};
  }

  lemma WakeBooks(c: Config, s: State, root: nat)
    requires Books(s, {}) && root in s.chains && s.chains[root].place.Sleeping?
    requires s.chains[root].cur.root == root && s.chains[root].cur.subscription in s.queues
    ensures Books(Wake(c, s, root), {})
  {
    hide Books;
    var d := Redelivered(s.chains[root].cur, s.nextId);
    RenewBooks(s, root);
    if HasRoom(s, d.subscription) {
      RequeueBooks(Renewed(s, root), d);
    } else {
      BounceBooks(c, Renewed(s, root), d);
    }
  }

  // ---- Registrations come and go -----------------------------------------------------------

  lemma SubscribeBooks(c: Config, s: State, sub: nat, tokens: seq<string>, replay: bool)
    requires Books(s, {}) && sub !in s.queues
    ensures Books(Subscribe(c, s, sub, tokens, replay), {})
  {
    var s' := s.(regs := s.regs[sub := Registration(tokens, replay, [])], queues := s.queues[sub := []]);
    JoinedBooks(s, s', sub);
    hide Books;
    RefreshSame(c, s');
    GateBooks(s', Subscribe(c, s, sub, tokens, replay), {});
  }

  lemma JoinedBooks(s: State, s': State, sub: nat)
    requires Books(s, {}) && sub !in s.queues && sub in s'.regs && s'.regs[sub].buffer == []
    requires s' == s.(regs := s.regs[sub := s'.regs[sub]], queues := s.queues[sub := []])
    ensures Books(s', {})
  {
    assert sub !in s.regs;
    JoinedPlaced(s, s', sub);
    hide Placed, PendingOk, QueuesOk, BuffersOk;
    BooksChains(s, {});
    JoinedPending(s, s', sub);
    JoinedLists(s, s', sub);
  }

  lemma JoinedPlaced(s: State, s': State, sub: nat)
    requires Placed(s) && sub !in s.queues && sub in s'.regs
    requires s' == s.(regs := s.regs[sub := s'.regs[sub]], queues := s.queues[sub := []])
    ensures Placed(s')
  {
  }

  lemma UnknownLimbo(s: State, sub: nat)
    requires ChainsOk(s) && sub !in s.queues
    ensures Limbo(s, sub) == {} && forall root <- s.chains :: Sub(s, root) != sub
  {
  }

  lemma JoinedPending(s: State, s': State, sub: nat)
    requires ChainsOk(s) && PendingOk(s) && sub !in s.queues && sub !in s.regs && s'.chains == s.chains
    requires s'.regs.Keys == s.regs.Keys + {sub} && s'.pending == s.pending && s'.pendingTotal == s.pendingTotal
    ensures PendingOk(s')
  {
    UnknownLimbo(s, sub);
    hide ChainsOk;
    assert LiveLimbo(s') == LiveLimbo(s);
    forall q
      ensures Limbo(s', q) == Limbo(s, q)
    {
    }
  }

  lemma JoinedLists(s: State, s': State, sub: nat)
    requires ChainsOk(s) && QueuesOk(s) && BuffersOk(s, {}) && sub !in s.queues && sub in s'.regs
        && s'.regs[sub].buffer == []
    requires s' == s.(regs := s.regs[sub := s'.regs[sub]], queues := s.queues[sub := []])
    ensures QueuesOk(s') && BuffersOk(s', {})
  {
    JoinedQueues(s, s', sub);
    JoinedBuffers(s, s', sub);
  }

  lemma JoinedQueues(s: State, s': State, sub: nat)
    requires ChainsOk(s) && QueuesOk(s) && sub !in s.queues && s'.chains == s.chains && s'.queues == s.queues[sub := []]
    ensures QueuesOk(s')
  {
  }

  lemma JoinedBuffers(s: State, s': State, sub: nat)
    requires ChainsOk(s) && BuffersOk(s, {}) && sub !in s.queues && s'.chains == s.chains
        && s'.queues == s.queues[sub := []]
    requires sub in s'.regs && s'.regs[sub].buffer == [] && s'.regs == s.regs[sub := s'.regs[sub]]
    ensures BuffersOk(s', {})
  {
  }

  lemma DroppedSum(s: State, sub: nat)
    requires s.pendingTotal == Sum(s.pending)
    ensures Dropped(s, sub).pendingTotal == Sum(Dropped(s, sub).pending)
  {
    if sub in s.pending {
      SumRemove(s.pending, sub);
    } else {
      assert s.pending - {sub} == s.pending;
    }
  }

  lemma DroppedLimbo(s: State, s': State, sub: nat)
    requires s'.chains == s.chains && s'.regs.Keys == s.regs.Keys - {sub}
    ensures forall q :: Limbo(s', q) == Limbo(s, q)
    ensures |LiveLimbo(s')| == |LiveLimbo(s)| - (if sub in s.regs then |Limbo(s, sub)| else 0)
  {
    if sub in s.regs {
      assert LiveLimbo(s') == LiveLimbo(s) - Limbo(s, sub);
      assert Limbo(s, sub) <= LiveLimbo(s);
    } else {
      assert LiveLimbo(s') == LiveLimbo(s);
    }
  }

  lemma DroppedPending(s: State, sub: nat)
    requires PendingOk(s)
    ensures PendingOk(Dropped(s, sub))
  {
    DroppedSum(s, sub);
    DroppedLimbo(s, Dropped(s, sub), sub);
    hide Limbo, LiveLimbo;
  }

  lemma DroppedBooks(s: State, sub: nat)
    requires Books(s, {})
    ensures Books(Dropped(s, sub), {})
  {
    hide PendingOk, QueuesOk, BuffersOk;
    DroppedPending(s, sub);
    DroppedLists(s, sub);
  }

  lemma DroppedLists(s: State, sub: nat)
    requires QueuesOk(s) && BuffersOk(s, {})
    ensures QueuesOk(Dropped(s, sub)) && BuffersOk(Dropped(s, sub), {})
  {
  }

  lemma RemoveBooks(c: Config, s: State, sub: nat)
    requires Books(s, {})
    ensures Books(Remove(c, s, sub), {})
  {
    hide Books;
    DroppedBooks(s, sub);
    RefreshSame(c, Dropped(s, sub));
    GateBooks(Dropped(s, sub), Remove(c, s, sub), {});
  }

  /** The dead letter leaves limbo after its subscription has left the router. */
  lemma MovedDeadBooks(s: State, root: nat)
    requires Books(s, {}) && root in s.chains && s.chains[root].place.DeadLettering? && Sub(s, root) !in s.regs
    ensures Books(Moved(s, root, Dead), {})
  {
    hide ChainsOk, InflightOk, FlyingOk, QueuesOk, BuffersOk, PendingOk;
    var s' := Moved(s, root, Dead);
    SamePlace(s, s', root);
    MovePlaced(s, s', root);
    MoveUnlisted(s, s', root, {});
    PendingStays(s, s', root);
    assert {} - {root} == {};
  }

  lemma BuriedBooks(s: State, root: nat)
    requires Books(s, {}) && root in s.chains && s.chains[root].place.DeadLettering? && Sub(s, root) !in s.regs
    ensures Books(Buried(s, root), {})
  {
    hide Books, DeadLetter;
    MovedDeadBooks(s, root);
    GateBooks(Moved(s, root, Dead), Buried(s, root), {});
  }

  lemma BuryBooks(c: Config, s: State, root: nat)
    requires Books(s, {}) && root in s.chains && s.chains[root].place.DeadLettering?
    ensures Books(BuryAndEvict(c, s, root), {})
  {
    hide Books;
    var s1 := Dropped(s, s.chains[root].cur.subscription);
    DroppedBooks(s, s.chains[root].cur.subscription);
    BuriedBooks(s1, root);
    RefreshSame(c, Buried(s1, root));
    GateBooks(Buried(s1, root), BuryAndEvict(c, s, root), {});
  }
}
