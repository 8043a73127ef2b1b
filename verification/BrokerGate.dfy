/** The admission gate: how each step changes the backlog, and that no producer sleeps at an open gate. */
module BrokerGate {
  import opened Types
  import opened Retry
  import opened Sorting
  import opened Counting
  import opened BrokerState
  import opened BrokerInvariant

  // ---- How steps change the backlog --------------------------------------------------------

  /** The backlog moves by at least `low` and at most `high`; registrations and the gate stay. */
  predicate Shift(s: State, s': State, low: int, high: int) {
    && Backlog(s) + low <= Backlog(s') <= Backlog(s) + high
    && s'.regs.Keys == s.regs.Keys && s'.queues.Keys == s.queues.Keys
    && s'.admit == s.admit && s'.parked == s.parked && s'.woken == s.woken && s'.passed == s.passed
  }

  lemma WithoutSize<V>(m: map<nat, V>, k: nat)
    ensures |m - {k}| == |m| - (if k in m then 1 else 0)
  {
    assert (m - {k}).Keys == m.Keys - {k};
  }

  lemma ScheduleShift(c: Config, s: State, d: Delivery)
    requires d.root in s.chains
    ensures Shift(s, Schedule(c, s, d), 0, 0)
  {
    hide Exhausted;
  }

  lemma PutQueueShift(s: State, d: Delivery)
    requires d.root in s.chains && d.subscription in s.queues
    ensures Shift(s, PutQueue(s, d), 0, 0)
  {
  }

  lemma EnterShift(s: State, sub: nat)
    ensures Shift(s, EnterRetry(s, sub), 1, 1) && EnterRetry(s, sub).chains == s.chains
  {
    hide Value;
  }

  lemma RecordShift(s: State, d: Delivery)
    ensures Shift(s, RecordInflight(s, d), if d.id in s.inflight then 0 else 1, if d.id in s.inflight then 0 else 1)
  {
  }

  lemma EnqueueShift(c: Config, s: State, d: Delivery)
    requires d.root in s.chains && d.subscription in s.queues
    ensures Shift(s, Enqueue(c, s, d), 0, 1)
  {
    hide Schedule, PutQueue, EnterRetry, RecordInflight, HasRoom;
    if HasRoom(s, d.subscription) {
      PutQueueShift(s, d);
      RecordShift(PutQueue(s, d), d);
    } else {
      EnterShift(s, d.subscription);
      ScheduleShift(c, EnterRetry(s, d.subscription), d);
    }
  }

  lemma OfferShift(c: Config, s: State, sub: nat, m: Message)
    requires sub in s.queues
    ensures Shift(s, Offer(c, s, sub, m), 0, 1)
  {
    hide Enqueue;
    EnqueueShift(c, NewChain(s, NewDelivery(s, sub, m)), NewDelivery(s, sub, m));
  }

  lemma DeliverShift(c: Config, s: State, sub: nat, m: Message)
    requires sub in s.regs && sub in s.queues
    ensures Shift(s, Deliver(c, s, sub, m), 0, 1)
  {
    hide Offer;
    if !s.regs[sub].replaying {
      OfferShift(c, s, sub, m);
    }
  }

  lemma {:induction false} DeliverAllShift(c: Config, s: State, targets: seq<nat>, m: Message)
    requires forall sub <- targets :: sub in s.regs && sub in s.queues
    ensures Shift(s, DeliverAll(c, s, targets, m), 0, |targets|)
    decreases |targets|
  {
    if targets != [] {
      hide Deliver;
      assert targets[0] in targets;
      DeliverShift(c, s, targets[0], m);
      DeliverAllShift(c, Deliver(c, s, targets[0], m), targets[1..], m);
    }
  }

  lemma {:induction false} OfferHistoryShift(c: Config, s: State, sub: nat, history: seq<Message>)
    requires sub in s.queues
    ensures Shift(s, OfferHistory(c, s, sub, history), 0, |history|)
    decreases |history|
  {
    if history != [] {
      hide Offer;
      OfferShift(c, s, sub, history[0]);
      OfferHistoryShift(c, Offer(c, s, sub, history[0]), sub, history[1..]);
    }
  }

  lemma {:induction false} OfferAllShift(c: Config, s: State, ds: seq<Delivery>)
    requires forall d <- ds :: d.root in s.chains && d.subscription in s.queues
    ensures Shift(s, OfferAll(c, s, ds), 0, |ds|)
    decreases |ds|
  {
    if ds != [] {
      hide Enqueue;
      assert ds[0] in ds;
      EnqueueShift(c, s, ds[0]);
      OfferAllShift(c, Enqueue(c, s, ds[0]), ds[1..]);
    }
  }

  lemma FlushShift(c: Config, s: State, sub: nat, history: seq<Message>)
    requires BufferKnown(s, sub)
    ensures Shift(s, Flush(c, s, sub, history), 0, |history| + |s.regs[sub].buffer|)
  {
    hide OfferHistory, OfferAll, Matching;
    var buffer, matching := s.regs[sub].buffer, Matching(s.regs[sub].tokens, history);
    SortMembers(buffer);
    SortSize(buffer);
    MatchingSize(s.regs[sub].tokens, history);
    OfferHistoryShift(c, GoLive(s, sub), sub, matching);
    OfferAllShift(c, OfferHistory(c, GoLive(s, sub), sub, matching), Sort(buffer, BufferKey));
  }

  lemma SortSize(ds: seq<Delivery>)
    ensures |Sort(ds, BufferKey)| == |ds|
  {
    SortIsStable(ds, BufferKey);
    assert |multiset(Sort(ds, BufferKey))| == |multiset(ds)|;
  }

  lemma {:induction false} MatchingSize(tokens: seq<string>, history: seq<Message>)
    ensures |Matching(tokens, history)| <= |history|
  {
    if history != [] {
      MatchingSize(tokens, history[1..]);
    }
  }

  lemma TakeShift(s: State, sub: nat)
    requires sub in s.queues && s.queues[sub] != [] && s.queues[sub][0].root in s.chains
    ensures Shift(s, Take(s, sub), 0, 0)
  {
  }

  lemma SettledShift(s: State, root: nat, place: Place)
    requires root in s.chains
    ensures Shift(s, Settled(s, root, place), if s.chains[root].cur.id in s.inflight then -1 else 0,
              if s.chains[root].cur.id in s.inflight then -1 else 0)
  {
    WithoutSize(s.inflight, s.chains[root].cur.id);
  }

  /** Refusing a delivery that is in flight moves it into limbo and leaves the backlog as it is. */
  lemma RefuseShift(c: Config, s: State, root: nat)
    requires root in s.chains && s.chains[root].cur.root == root && s.chains[root].cur.subscription in s.regs
    ensures Shift(s, Nack(c, s, root), 0, if s.chains[root].cur.id in s.inflight then 0 else 1)
  {
    hide Exhausted, Value;
    WithoutSize(s.inflight, s.chains[root].cur.id);
  }

  lemma HeldInFlight(s: State, root: nat)
    requires Books(s, {}) && root in s.chains && Flying(s.chains[root].place) && Sub(s, root) in s.regs
    ensures s.chains[root].cur.id in s.inflight
  {
  }

  lemma SleeperCounted(s: State, root: nat)
    requires PendingOk(s) && root in s.chains && InLimbo(s.chains[root].place)
    ensures Sub(s, root) in s.regs <==> Value(s.pending, Sub(s, root)) > 0
  {
    assert root in Limbo(s, Sub(s, root));
  }

  lemma FreshId(s: State)
    requires Placed(s)
    ensures s.nextId !in s.inflight
  {
    FlightHasOwner(s);
  }

  lemma RequeueShift(s: State, d: Delivery)
    requires d.root in s.chains && d.subscription in s.queues && d.id !in s.inflight
    ensures
      var change := if Value(s.pending, d.subscription) > 0 then 0 else 1;
      Shift(s, Requeue(s, d), change, change)
  {
    hide Fewer;
  }

  /** A redelivery to a registered subscription leaves the backlog as it is; one to a removed
      subscription's queue adds an entry that nothing counted before. */
  lemma WakeShift(c: Config, s: State, root: nat)
    requires Books(s, {}) && root in s.chains && s.chains[root].place.Sleeping?
    requires s.chains[root].cur.root == root && s.chains[root].cur.subscription in s.queues
    ensures
      var d := s.chains[root].cur;
      var change := if d.subscription in s.regs || !HasRoom(s, d.subscription) then 0 else 1;
      Shift(s, Wake(c, s, root), change, change)
  {
    hide Books, PendingOk, ChainsOk, Requeue, Schedule, Renewed, Value, HasRoom;
    BooksParts(s, {});
    SleeperCounted(s, root);
    FreshId(s);
    RenewedShift(s, root);
    var d := Redelivered(s.chains[root].cur, s.nextId);
    if HasRoom(s, d.subscription) {
      RequeueShift(Renewed(s, root), d);
    } else {
      ScheduleShift(c, Renewed(s, root), d);
    }
  }

  lemma RenewedShift(s: State, root: nat)
    requires root in s.chains && s.chains[root].cur.root == root
    ensures
      var s', d := Renewed(s, root), Redelivered(s.chains[root].cur, s.nextId);
      && Shift(s, s', 0, 0) && d.root in s'.chains && s'.queues == s.queues
      && s'.inflight == s.inflight && s'.pending == s.pending
      && (d.subscription in s.queues ==> HasRoom(s', d.subscription) == HasRoom(s, d.subscription))
  {
  }

  lemma BooksParts(s: State, loose: set<nat>)
    requires Books(s, loose)
    ensures Placed(s) && QueuesOk(s) && BuffersOk(s, loose) && PendingOk(s)
  {
  }

  // ---- No lost wakeup ----------------------------------------------------------------------

  /** A closed gate is justified, and producers park only at a closed gate. */
  ghost predicate GateOk(c: Config, s: State) {
    (!s.admit ==> !GateOpen(c, s)) && (s.parked != map[] ==> !s.admit)
  }

  lemma FewerRegistrations(limit: int, m: nat, n: nat, backlog: nat)
    requires 1 <= m <= n && backlog >= limit * n
    ensures backlog >= limit * m
  {
    if limit >= 0 {
      assert limit * n == limit * m + limit * (n - m);
    }
  }

  lemma BacklogIsCount(s: State)
    requires PendingOk(s)
    ensures Backlog(s) >= 0
  {
  }

  /** A step that does not lower the backlog nor add registrations keeps a justified gate justified. */
  lemma GateGrows(c: Config, s: State, s': State)
    requires GateOk(c, s) && s'.admit == s.admit && s'.parked == s.parked
    requires 0 <= Backlog(s) <= Backlog(s') && |s'.regs| <= |s.regs|
    ensures GateOk(c, s')
  {
    hide Backlog;
    if !GateOpen(c, s) {
      var m, n := if |s'.regs| > 1 then |s'.regs| else 1, if |s.regs| > 1 then |s.regs| else 1;
      FewerRegistrations(c.limit.value, m, n, Backlog(s));
    }
  }

  lemma SameKeysSize(s: State, s': State)
    requires s'.regs.Keys == s.regs.Keys
    ensures |s'.regs| == |s.regs|
  {
    assert |s.regs| == |s.regs.Keys|;
  }

  lemma ShiftGate(c: Config, s: State, s': State, low: int, high: int)
    requires GateOk(c, s) && PendingOk(s) && Shift(s, s', low, high) && low >= 0
    ensures GateOk(c, s')
  {
    hide GateOk, PendingOk;
    BacklogIsCount(s);
    SameKeysSize(s, s');
    GateGrows(c, s, s');
  }

  lemma SameGate(c: Config, s: State, s': State)
    requires s'.regs == s.regs && s'.inflight == s.inflight && s'.pendingTotal == s.pendingTotal
    ensures GateOpen(c, s') == GateOpen(c, s)
  {
  }

  /** Every other step ends with a refresh of the gate. */
  lemma RefreshGate(c: Config, s: State)
    requires s.parked != map[] ==> !s.admit
    ensures GateOk(c, Refresh(c, s))
  {
    hide GateOpen;
    SameGate(c, s, Refresh(c, s));
  }

  lemma GateGate(c: Config, s: State, p: nat, m: Message)
    requires GateOk(c, s)
    ensures GateOk(c, Gate(c, s, p, m))
  {
    hide GateOpen;
    if GateOpen(c, s) {
      SameGate(c, s, s.(woken := s.woken - {p}, passed := s.passed[p := m]));
    } else {
      SameGate(c, s, s.(woken := s.woken - {p}, admit := false, parked := s.parked[p := m]));
    }
  }
}
