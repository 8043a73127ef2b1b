/** How many chains of deliveries each step starts, for one subscription and one message. */
module BrokerCopies {
  import opened Types
  import opened Retry
  import opened Sorting
  import opened Router
  import opened Counting
  import opened BrokerState
  import opened BrokerInvariant
  import opened BrokerHistory
  import opened BrokerRuns
  import Topic

  /** The chains that carry `m` to `sub`, wherever they are. */
  ghost function Copies(s: State, sub: nat, m: Message): set<nat> {
    set root | root in s.chains && s.chains[root].cur.subscription == sub && s.chains[root].cur.message == m
  }

  lemma MovedCopies(s: State, s': State, root: nat, sub: nat, m: Message)
    requires root in s.chains && root in s'.chains && s'.chains == s.chains[root := s'.chains[root]]
    requires s'.chains[root].cur.subscription == s.chains[root].cur.subscription
    requires s'.chains[root].cur.message == s.chains[root].cur.message
    ensures Copies(s', sub, m) == Copies(s, sub, m)
  {
  }

  lemma SameChains(s: State, s': State, sub: nat, m: Message)
    requires s'.chains == s.chains
    ensures Copies(s', sub, m) == Copies(s, sub, m)
  {
  }

  lemma EnqueueChains(c: Config, s: State, d: Delivery)
    requires d.root in s.chains && d.subscription in s.queues
    ensures
      var s' := Enqueue(c, s, d);
      && s'.chains == s.chains[d.root := s'.chains[d.root]] && s'.chains[d.root].cur == s.chains[d.root].cur
      && s'.nextId == s.nextId
  {
    hide HasRoom, Exhausted, Schedule, EnterRetry, PutQueue;
    if HasRoom(s, d.subscription) {
      PutChains(s, d);
    } else {
      EnterChains(s, d.subscription);
      ScheduleMoves(c, EnterRetry(s, d.subscription), d);
      ScheduleId(c, EnterRetry(s, d.subscription), d);
    }
  }

  lemma PutChains(s: State, d: Delivery)
    requires d.root in s.chains && d.subscription in s.queues
    ensures
      var s' := PutQueue(s, d);
      s'.chains == s.chains[d.root := s.chains[d.root].(place := Queued)] && s'.nextId == s.nextId
  {
  }

  lemma EnterChains(s: State, sub: nat)
    ensures EnterRetry(s, sub).chains == s.chains && EnterRetry(s, sub).nextId == s.nextId
  {
    hide Value;
  }

  lemma ScheduleId(c: Config, s: State, d: Delivery)
    requires d.root in s.chains
    ensures Schedule(c, s, d).nextId == s.nextId
  {
    hide Exhausted;
  }

  lemma OfferCopies(c: Config, s: State, q: nat, message: Message, sub: nat, m: Message)
    requires ChainsOk(s) && q in s.queues
    ensures Copies(Offer(c, s, q, message), sub, m) ==
      Copies(s, sub, m) + (if q == sub && message == m then {s.nextId} else {})
    ensures s.nextId !in Copies(s, sub, m)
  {
    ChainUnknown(s);
    hide Enqueue, ChainsOk;
    var d := NewDelivery(s, q, message);
    EnqueueChains(c, NewChain(s, d), d);
    NewCopies(s, d, sub, m);
    MovedCopies(NewChain(s, d), Offer(c, s, q, message), d.root, sub, m);
  }

  lemma NewCopies(s: State, d: Delivery, sub: nat, m: Message)
    requires d.root !in s.chains
    ensures Copies(NewChain(s, d), sub, m) ==
      Copies(s, sub, m) + (if d.subscription == sub && d.message == m then {d.root} else {})
  {
  }

  lemma DeliverCopies(c: Config, s: State, q: nat, message: Message, sub: nat, m: Message)
    requires ChainsOk(s) && q in s.regs && q in s.queues
    ensures |Copies(Deliver(c, s, q, message), sub, m)| == |Copies(s, sub, m)| + (if q == sub
        && message == m then 1 else 0)
  {
    hide Offer, Copies, ChainsOk;
    ChainUnknown(s);
    OfferCopies(c, s, q, message, sub, m);
    if s.regs[q].replaying {
      var d := NewDelivery(s, q, message);
      NewCopies(s, d, sub, m);
      SameChains(NewChain(s, d), Deliver(c, s, q, message), sub, m);
    }
  }

  lemma DeliverCount(c: Config, s: State, q: nat, message: Message, sub: nat, m: Message)
    requires Books(s, {}) && q in s.regs && q in s.queues
    ensures
      var s' := Deliver(c, s, q, message);
      && Books(s', {}) && |Copies(s', sub, m)| == |Copies(s, sub, m)| + (if q == sub && message == m then 1 else 0)
  {
    hide Books, Deliver, Copies, ChainsOk;
    BooksChains(s, {});
    DeliverBooks(c, s, q, message);
    DeliverCopies(c, s, q, message, sub, m);
  }

  ghost predicate Distinct(xs: seq<nat>) {
    forall i, j | 0 <= i < j < |xs| :: xs[i] != xs[j]
  }

  lemma DistinctRest(xs: seq<nat>, x: nat)
    requires Distinct(xs) && xs != []
    ensures Distinct(xs[1..]) && xs[0] !in xs[1..] && (x in xs <==> x == xs[0] || x in xs[1..])
  {
  }

  lemma {:induction false} DeliverAllCopies(c: Config, s: State, targets: seq<nat>, message: Message, sub: nat,
      m: Message)
    requires Books(s, {}) && forall q <- targets :: q in s.regs && q in s.queues
    requires Distinct(targets)
    ensures |Copies(DeliverAll(c, s, targets, message), sub, m)| ==
      |Copies(s, sub, m)| + (if message == m && sub in targets then 1 else 0)
    decreases |targets|
  {
    if targets != [] {
      hide Books, Deliver, Copies, Distinct;
      assert targets[0] in targets;
      DistinctRest(targets, sub);
      DeliverCount(c, s, targets[0], message, sub, m);
      DeliverAllCopies(c, Deliver(c, s, targets[0], message), targets[1..], message, sub, m);
    }
  }

  lemma SplitCount<T>(xs: seq<T>, x: T)
    requires xs != []
    ensures multiset(xs)[x] == (if xs[0] == x then 1 else 0) + multiset(xs[1..])[x]
  {
    assert xs == [xs[0]] + xs[1..];
  }

  lemma OfferCount(c: Config, s: State, q: nat, message: Message, loose: set<nat>, sub: nat, m: Message)
    requires Books(s, loose) && q in s.regs && q in s.queues && loose <= s.chains.Keys
    ensures
      var s' := Offer(c, s, q, message);
      && Books(s', loose) && q in s'.regs && q in s'.queues && loose <= s'.chains.Keys
      && |Copies(s', sub, m)| == |Copies(s, sub, m)| + (if q == sub && message == m then 1 else 0)
  {
    hide Books, Offer, Copies, ChainsOk;
    BooksChains(s, loose);
    Known(s, loose);
    OfferBooks(c, s, q, message, loose);
    OfferCopies(c, s, q, message, sub, m);
  }

  lemma {:induction false} OfferHistoryCopies(c: Config, s: State, q: nat, history: seq<Message>, loose: set<nat>,
      sub: nat, m: Message)
    requires Books(s, loose) && q in s.regs && q in s.queues && loose <= s.chains.Keys
    ensures |Copies(OfferHistory(c, s, q, history), sub, m)| ==
      |Copies(s, sub, m)| + (if q == sub then multiset(history)[m] else 0)
    decreases |history|
  {
    if history != [] {
      hide Books, Offer, Copies;
      OfferCount(c, s, q, history[0], loose, sub, m);
      OfferHistoryCopies(c, Offer(c, s, q, history[0]), q, history[1..], loose, sub, m);
      SplitCount(history, m);
    }
  }

  lemma {:induction false} OfferAllCopies(c: Config, s: State, ds: seq<Delivery>, sub: nat, m: Message)
    requires forall d <- ds :: d.root in s.chains && d.subscription in s.queues
    ensures Copies(OfferAll(c, s, ds), sub, m) == Copies(s, sub, m)
    decreases |ds|
  {
    if ds != [] {
      hide Enqueue, Copies;
      assert ds[0] in ds;
      EnqueueChains(c, s, ds[0]);
      MovedCopies(s, Enqueue(c, s, ds[0]), ds[0].root, sub, m);
      OfferAllCopies(c, Enqueue(c, s, ds[0]), ds[1..], sub, m);
    }
  }

  lemma FlushCopies(c: Config, s: State, q: nat, history: seq<Message>, sub: nat, m: Message)
    requires Books(s, {}) && BufferKnown(s, q)
    ensures |Copies(Flush(c, s, q, history), sub, m)| ==
      |Copies(s, sub, m)| + (if q == sub then multiset(Matching(s.regs[q].tokens, history))[m] else 0)
  {
    hide Books, ListOk, Roots, OfferHistory, OfferAll, Copies, Matching;
    var buffer, matching := s.regs[q].buffer, Matching(s.regs[q].tokens, history);
    BooksBuffer(s, q);
    GoLiveBooks(s, q);
    SameChains(s, GoLive(s, q), sub, m);
    OfferHistoryCopies(c, GoLive(s, q), q, matching, Roots(buffer), sub, m);
    SortMembers(buffer);
    OfferAllCopies(c, OfferHistory(c, GoLive(s, q), q, matching), Sort(buffer, BufferKey), sub, m);
  }

  lemma {:induction false} MatchingCount(tokens: seq<string>, history: seq<Message>, m: Message)
    ensures multiset(Matching(tokens, history))[m] ==
      if Topic.Denotes(tokens, Topic.Split(m.topic)) then multiset(history)[m] else 0
  {
    if history != [] {
      hide Topic.Denotes, Topic.Split;
      MatchingCount(tokens, history[1..], m);
      assert history == [history[0]] + history[1..];
    }
  }

  lemma DroppedChains(c: Config, s: State, q: nat)
    ensures Dropped(s, q).chains == s.chains && Remove(c, s, q).chains == s.chains
  {
    RefreshSame(c, Dropped(s, q));
    hide Refresh, Value;
  }

  lemma NackChains(c: Config, s: State, root: nat)
    requires root in s.chains && s.chains[root].cur.root == root
    ensures
      var s' := Nack(c, s, root);
      root in s'.chains && s'.chains == s.chains[root := s'.chains[root]] && s'.chains[root].cur == s.chains[root].cur
  {
    RefreshSame(c, Settled(s, root, Gone));
    hide Refresh, Value, Exhausted, Schedule;
    var d := s.chains[root].cur;
    ScheduleMoves(c, EnterRetry(s.(inflight := s.inflight - {d.id}), d.subscription), d);
  }

  lemma BuryChains(c: Config, s: State, root: nat)
    requires root in s.chains
    ensures BuryAndEvict(c, s, root).chains == s.chains[root := s.chains[root].(place := Dead)]
  {
    var q := s.chains[root].cur.subscription;
    DroppedChains(c, s, q);
    RefreshSame(c, Buried(Dropped(s, q), root));
    hide Refresh, Dropped, DeadLetter;
  }

  /** Chains that a step starts for `sub` with `m`. */
  ghost function Started(s: State, step: Step, sub: nat, m: Message): nat
    requires Enabled(s, step)
  {
    match step
    case Fanout(p, targets) => if s.passed[p] == m && sub in targets then 1 else 0
    case FlushReplay(q, history) => if q == sub then multiset(Matching(s.regs[q].tokens, history))[m] else 0
    case _ => 0
  }

  /** Fanouts and flushes start exactly these chains; no other step starts or loses one. */
  lemma StepCopies(c: Config, s: State, step: Step, sub: nat, m: Message)
    requires Books(s, {}) && Linked(s) && Enabled(s, step)
    ensures |Copies(Apply(c, s, step), sub, m)| == |Copies(s, sub, m)| + Started(s, step, sub, m)
  {
    if step.Fanout? || step.FlushReplay? {
      MakingCopies(c, s, step, sub, m);
    } else if step.Acknowledge? || step.Refuse? || step.WakeUp? || step.Bury? || step.Consume? {
      MovingCopies(c, s, step, sub, m);
    } else {
      hide Books, Copies;
      OtherChains(c, s, step);
      SameChains(s, Apply(c, s, step), sub, m);
    }
  }

  lemma MakingCopies(c: Config, s: State, step: Step, sub: nat, m: Message)
    requires Books(s, {}) && Linked(s) && Enabled(s, step) && (step.Fanout? || step.FlushReplay?)
    ensures |Copies(Apply(c, s, step), sub, m)| == |Copies(s, sub, m)| + Started(s, step, sub, m)
  {
    hide Books, Copies, DeliverAll, Flush;
    match step
    case Fanout(p, targets) =>
      DeliverAllCopies(c, s, targets, s.passed[p], sub, m);
      SameChains(DeliverAll(c, s, targets, s.passed[p]), Apply(c, s, step), sub, m);
    case FlushReplay(q, history) => FlushCopies(c, s, q, history, sub, m);
  }

  lemma MovingCopies(c: Config, s: State, step: Step, sub: nat, m: Message)
    requires Books(s, {}) && Linked(s) && Enabled(s, step)
    requires step.Acknowledge? || step.Refuse? || step.WakeUp? || step.Bury? || step.Consume?
    ensures |Copies(Apply(c, s, step), sub, m)| == |Copies(s, sub, m)|
  {
    hide Books, Copies, Refresh, Nack, Wake, BuryAndEvict;
    match step
    case Consume(q) =>
      assert s.queues[q][0] in s.queues[q];
      MovedCopies(s, Apply(c, s, step), s.queues[q][0].root, sub, m);
    case Acknowledge(root) =>
      RefreshSame(c, Settled(s, root, Acked));
      MovedCopies(s, Apply(c, s, step), root, sub, m);
    case Refuse(root) =>
      NackChains(c, s, root);
      MovedCopies(s, Apply(c, s, step), root, sub, m);
    case WakeUp(root) =>
      WakeMoves(c, s, root);
      MovedCopies(s, Apply(c, s, step), root, sub, m);
    case Bury(root) =>
      BuryChains(c, s, root);
      MovedCopies(s, Apply(c, s, step), root, sub, m);
  }

  lemma OtherChains(c: Config, s: State, step: Step)
    requires Linked(s) && Enabled(s, step)
    requires step.Arrive? || step.Reconsider? || step.Join? || step.FailReplay? || step.Leave?
    ensures Apply(c, s, step).chains == s.chains
  {
    hide Gate, Refresh, Remove;
    match step
    case Arrive(p, m) => GateSame(c, s, p, m);
    case Reconsider(p) => GateSame(c, s, p, s.woken[p]);
    case Join(q, tokens, replay) =>
      RefreshSame(c, s.(regs := s.regs[q := Registration(tokens, replay, [])], queues := s.queues[q := []]));
    case FailReplay(q) =>
    case Leave(q) => DroppedChains(c, s, q);
  }
}
