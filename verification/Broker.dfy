/** The `Broker` class, `pubsub/server/broker.py` with the parts of `RetryEngine` that it drives: each
    method is one stretch of code between two suspension points and does what its step in `BrokerState`
    says. */
module Broker {
  import opened Types
  import opened Retry
  import opened Sorting
  import opened Counting
  import opened BrokerState
  import R = Router
  import Topic

  lemma DeliverFrom(c: Config, s: State, targets: seq<nat>, i: nat, m: Message)
    requires i < |targets| && forall sub <- targets[i..] :: sub in s.regs && sub in s.queues
    ensures targets[i] in s.regs && targets[i] in s.queues
    ensures forall sub <- targets[i + 1..] :: sub in s.regs && sub in s.queues
    ensures DeliverAll(c, s, targets[i..], m) ==
      DeliverAll(c, Deliver(c, s, targets[i], m), targets[i + 1..], m)
  {
    assert targets[i] in targets[i..];
    assert targets[i..][1..] == targets[i + 1..];
    assert forall sub <- targets[i + 1..] :: sub in targets[i..];
  }

  // ---- A replay may leave replay mode before or after it enqueues --------------------------

  lemma ScheduleGoLive(c: Config, s: State, sub: nat, d: Delivery)
    requires sub in s.regs && d.root in s.chains
    ensures BrokerState.Schedule(c, GoLive(s, sub), d) == GoLive(BrokerState.Schedule(c, s, d), sub)
  {
    hide Exhausted;
  }

  lemma PutGoLive(s: State, sub: nat, d: Delivery)
    requires sub in s.regs && d.root in s.chains && d.subscription in s.queues
    ensures PutQueue(GoLive(s, sub), d) == GoLive(PutQueue(s, d), sub)
  {
  }

  lemma EnterGoLive(s: State, sub: nat, q: nat)
    requires sub in s.regs
    ensures BrokerState.EnterRetry(GoLive(s, sub), q) == GoLive(BrokerState.EnterRetry(s, q), sub)
    ensures BrokerState.EnterRetry(s, q).chains == s.chains && sub in BrokerState.EnterRetry(s, q).regs
  {
    hide Value;
  }

  lemma RecordGoLive(s: State, sub: nat, d: Delivery)
    requires sub in s.regs
    ensures BrokerState.RecordInflight(GoLive(s, sub), d) == GoLive(BrokerState.RecordInflight(s, d), sub)
  {
  }

  lemma EnqueueGoLive(c: Config, s: State, sub: nat, d: Delivery)
    requires sub in s.regs && d.root in s.chains && d.subscription in s.queues
    ensures Enqueue(c, GoLive(s, sub), d) == GoLive(Enqueue(c, s, d), sub)
  {
    assert HasRoom(GoLive(s, sub), d.subscription) == HasRoom(s, d.subscription);
    assert GoLive(s, sub).chains == s.chains && GoLive(s, sub).queues == s.queues;
    hide PutQueue, BrokerState.Schedule, BrokerState.EnterRetry, BrokerState.RecordInflight, GoLive, HasRoom;
    if HasRoom(s, d.subscription) {
      PutGoLive(s, sub, d);
      RecordGoLive(PutQueue(s, d), sub, d);
    } else {
      EnterGoLive(s, sub, d.subscription);
      ScheduleGoLive(c, BrokerState.EnterRetry(s, d.subscription), sub, d);
    }
  }

  lemma OfferGoLive(c: Config, s: State, sub: nat, m: Message)
    requires sub in s.regs && sub in s.queues
    ensures Offer(c, GoLive(s, sub), sub, m) == GoLive(Offer(c, s, sub, m), sub)
  {
    hide Enqueue;
    var d := NewDelivery(s, sub, m);
    EnqueueGoLive(c, NewChain(s, d), sub, d);
    assert NewChain(GoLive(s, sub), d) == GoLive(NewChain(s, d), sub);
  }

  lemma HistoryFrom(c: Config, s: State, sub: nat, tokens: seq<string>, history: seq<Message>, i: nat)
    requires i < |history| && sub in s.regs && sub in s.queues
    ensures
      var hit := Topic.Denotes(tokens, Topic.Split(history[i].topic));
      OfferHistory(c, GoLive(s, sub), sub, Matching(tokens, history[i..])) ==
      OfferHistory(c, GoLive(if hit then Offer(c, s, sub, history[i]) else s, sub), sub, Matching(tokens,
          history[i + 1..]))
  {
    hide GoLive, Offer, Topic.Denotes, Topic.Split;
    assert history[i..][0] == history[i] && history[i..][1..] == history[i + 1..];
    var rest := Matching(tokens, history[i + 1..]);
    assert ([history[i]] + rest)[1..] == rest;
    OfferGoLive(c, s, sub, history[i]);
  }

  lemma OfferNone(c: Config, s: State)
    ensures OfferAll(c, s, []) == s
  {
  }

  lemma StagedFrom(c: Config, s: State, sub: nat, d: Delivery, rest: seq<Delivery>)
    requires sub in s.regs && forall e <- [d] + rest :: e.root in s.chains && e.subscription in s.queues
    ensures ([d] + rest)[0] == d
    ensures OfferAll(c, GoLive(s, sub), [d] + rest) == OfferAll(c, GoLive(Enqueue(c, s, d), sub), rest)
  {
    hide GoLive, Enqueue;
    assert ([d] + rest)[1..] == rest;
    EnqueueGoLive(c, s, sub, d);
  }

  class Broker {
    const config: Config
    const router: R.Router
    /** Bounded delivery queues; one outlives its registration for as long as a consumer holds it. */
    var queues: map<nat, seq<Delivery>>
    var inflight: map<nat, Delivery>
    var pending: map<nat, nat>
    var pendingTotal: int
    var admit: bool
    /** The id generator. */
    var nextId: nat
    /** Coroutine frames, consumers and durable dead letters. */
    ghost var parked: map<nat, Message>
    ghost var woken: map<nat, Message>
    ghost var passed: map<nat, Message>
    ghost var owner: map<nat, nat>
    ghost var chains: map<nat, Chain>
    ghost var dlq: seq<DlqEntry>
    ghost var deadRoots: seq<nat>

    ghost function Now(): State
      reads this, router
    {
      State(router.entries, queues, inflight, pending, pendingTotal, admit, parked, woken, passed, nextId, owner,
            chains, dlq, deadRoots)
    }

    constructor (config: Config)
      ensures this.config == config && fresh(router) && router.Valid() && Now() == INIT
    {
      this.config := config;
      router := new R.Router();
      queues, inflight, pending, pendingTotal, admit, nextId := map[], map[], map[], 0, true, 0;
      parked, woken, passed, owner, chains, dlq, deadRoots := map[], map[], map[], map[], map[], [], [];
    }

    // ---- The gate --------------------------------------------------------------------------

    /** In-flight entries and limbo are below the budget, once for each registration and once without any. */
    predicate Below()
      reads this, router
    {
      config.limit.None?
      || |inflight| + pendingTotal < config.limit.value * (if |router.entries| == 0 then 1 else |router.entries|)
    }

    method Backlog() returns (n: int)
      ensures n == BrokerState.Backlog(Now())
    {
      n := |inflight| + pendingTotal;
    }

    method Watermark(limit: int) returns (n: int)
      requires router.Valid()
      ensures n == BrokerState.Watermark(limit, Now())
    {
      var active := router.ActiveCount();
      n := limit * (if active > 1 then active else 1);
    }

    method IsOpen() returns (open: bool)
      requires router.Valid()
      ensures open == GateOpen(config, Now()) == Below()
    {
      if config.limit.None? {
        return true;
      }
      var backlog := Backlog();
      var watermark := Watermark(config.limit.value);
      return backlog < watermark;
    }

    method RefreshAdmission()
      requires router.Valid()
      modifies this`admit, this`parked, this`woken
      ensures Now() == Refresh(config, old(Now()))
      ensures old(Below()) ==> admit && parked == map[] && woken == old(woken) + old(parked)
      ensures !old(Below()) ==> admit == old(admit) && parked == old(parked) && woken == old(woken)
    {
      var open := IsOpen();
      if open {
        admit := true;
        woken, parked := woken + parked, map[];
      }
    }

    /** One turn of the loop of `_gate`; `passes` tells whether the producer goes on. */
    method Gate(p: nat, ghost m: Message) returns (passes: bool)
      requires router.Valid()
      modifies this`admit, this`parked, this`woken, this`passed
      ensures Now() == BrokerState.Gate(config, old(Now()), p, m) && passes == old(Below())
      ensures passes ==> passed == old(passed)[p := m] && parked == old(parked)
      ensures !passes ==> parked == old(parked)[p := m] && passed == old(passed) && !admit
    {
      passes := IsOpen();
      woken := woken - {p};
      if passes {
        passed := passed[p := m];
      } else {
        admit := false;
        parked := parked[p := m];
      }
    }

    // ---- Bookkeeping -----------------------------------------------------------------------

    method EnterRetry(sub: nat)
      modifies this`pending, this`pendingTotal
      ensures Now() == BrokerState.EnterRetry(old(Now()), sub)
    {
      pending := pending[sub := (if sub in pending then pending[sub] else 0) + 1];
      pendingTotal := pendingTotal + 1;
    }

    method LeaveRetry(sub: nat)
      modifies this`pending, this`pendingTotal
      ensures Now() == BrokerState.LeaveRetry(old(Now()), sub)
    {
      if sub !in pending || pending[sub] == 0 {
        return;
      }
      if pending[sub] == 1 {
        pending := pending - {sub};
      } else {
        pending := pending[sub := pending[sub] - 1];
      }
      pendingTotal := pendingTotal - 1;
    }

    method RecordInflight(d: Delivery)
      modifies this`inflight
      ensures Now() == BrokerState.RecordInflight(old(Now()), d)
    {
      inflight := inflight[d.id := d];
    }

    method RecordRetried(d: Delivery)
      modifies this`inflight, this`pending, this`pendingTotal
      ensures Now() == BrokerState.RecordInflight(BrokerState.LeaveRetry(old(Now()), d.subscription), d)
    {
      LeaveRetry(d.subscription);
      RecordInflight(d);
    }

    /** `queue.put_nowait`: false when the queue is full. */
    method PutNowait(d: Delivery) returns (done: bool)
      requires d.root in chains && d.subscription in queues
      modifies this`queues, this`chains
      ensures done == HasRoom(old(Now()), d.subscription)
      ensures done ==> Now() == PutQueue(old(Now()), d)
      ensures !done ==> Now() == old(Now())
    {
      done := |queues[d.subscription]| < QUEUE_BOUND;
      if done {
        queues := queues[d.subscription := queues[d.subscription] + [d]];
        chains := chains[d.root := chains[d.root].(place := Queued)];
      }
    }

    /** `schedule`: the frame that sleeps or waits for the dead-letter write is ghost. */
    method Schedule(d: Delivery) returns (spent: bool)
      requires d.root in chains
      modifies this`chains
      ensures Now() == BrokerState.Schedule(config, old(Now()), d)
      ensures spent == Exhausted(config.policy, d.attempt + 1)
    {
      spent := d.attempt + 1 >= config.policy.maxAttempts;
      chains := chains[d.root := chains[d.root].(place := if spent then DeadLettering else Sleeping)];
    }

    method Enqueue(d: Delivery)
      requires d.root in chains && d.subscription in queues
      modifies this`queues, this`inflight, this`pending, this`pendingTotal, this`chains
      ensures Now() == BrokerState.Enqueue(config, old(Now()), d)
    {
      var done := PutNowait(d);
      if !done {
        EnterRetry(d.subscription);
        var _ := Schedule(d);
        return;
      }
      RecordInflight(d);
    }

    /** A first attempt with a fresh id, its chain not placed yet. */
    method MakeDelivery(sub: nat, m: Message) returns (d: Delivery)
      modifies this`nextId, this`owner, this`chains
      ensures d == NewDelivery(old(Now()), sub, m) && Now() == NewChain(old(Now()), d)
    {
      d := Delivery(nextId, sub, m, 1, nextId);
      owner := owner[d.id := d.root];
      chains := chains[d.root := Chain(d, Staged, [d])];
      nextId := nextId + 1;
    }

    // ---- Publish ---------------------------------------------------------------------------

    /** `_deliver` with `attempt=1`. */
    method Deliver(sub: nat, m: Message)
      requires router.Valid() && sub in router.entries && sub in queues
      modifies this`queues, this`inflight, this`pending, this`pendingTotal, this`nextId, this`owner, this`chains
      modifies router`entries
      ensures router.Valid() && Now() == BrokerState.Deliver(config, old(Now()), sub, m)
    {
      var d := MakeDelivery(sub, m);
      var registration := router.entries[sub];
      if registration.replaying {
        router.entries := router.entries[sub := registration.(buffer := registration.buffer + [d])];
        return;
      }
      Enqueue(d);
    }

    method DeliverEach(subs: seq<nat>, m: Message)
      requires router.Valid() && forall sub <- subs :: sub in router.entries && sub in queues
      modifies this`queues, this`inflight, this`pending, this`pendingTotal, this`nextId, this`owner, this`chains
      modifies router`entries
      ensures router.Valid() && Now() == DeliverAll(config, old(Now()), subs, m)
    {
      assert subs[0..] == subs;
      for i := 0 to |subs|
        invariant router.Valid() && forall sub <- subs[i..] :: sub in router.entries && sub in queues
        invariant DeliverAll(config, Now(), subs[i..], m) == DeliverAll(config, old(Now()), subs, m)
      {
        hide DeliverAll, BrokerState.Deliver;
        DeliverFrom(config, Now(), subs, i, m);
        Deliver(subs[i], m);
      }
      assert subs[|subs|..] == [];
    }

    /** The end of `publish`: one atomic fanout to the registrations that match, in registration order. */
    method Fanout(p: nat, m: Message) returns (ghost targets: seq<nat>)
      requires router.Valid() && Topic.WellSplit(m.topic) && router.entries.Keys <= queues.Keys
      modifies this`queues, this`inflight, this`pending, this`pendingTotal, this`nextId, this`owner, this`chains
      modifies this`passed, router`entries
      ensures targets == R.Reached(old(router.order), old(router.entries), Topic.Split(m.topic))
      ensures router.Valid() && Targets(old(Now()), m, targets)
      ensures Now() == DeliverAll(config, old(Now()), targets, m).(passed := old(passed) - {p})
    {
      hide DeliverAll;
      var matched := router.Match(m.topic);
      R.ReachedExactly(router.order, router.entries, Topic.Split(m.topic));
      hide R.Reached;
      targets := matched.value;
      DeliverEach(matched.value, m);
      passed := passed - {p};
    }

    // ---- Subscriptions ---------------------------------------------------------------------

    /** `subscribe` up to the replay. */
    method Subscribe(sub: nat, tokens: seq<string>, replay: bool)
      requires router.Valid() && Topic.ValidTokens(tokens)
      modifies this`queues, this`admit, this`parked, this`woken, router
      ensures router.Valid() && Now() == BrokerState.Subscribe(config, old(Now()), sub, tokens, replay)
    {
      queues := queues[sub := []];
      router.Register(sub, R.Registration(tokens, replay, []));
      RefreshAdmission();
    }

    /** The part of `_replay` after the history was read. */
    method FlushReplay(sub: nat, history: seq<Message>)
      requires router.Valid() && BufferKnown(Now(), sub) && forall m <- history :: Topic.WellSplit(m.topic)
      modifies this`queues, this`inflight, this`pending, this`pendingTotal, this`nextId, this`owner, this`chains
      modifies router`entries
      ensures router.Valid() && Now() == Flush(config, old(Now()), sub, history)
    {
      hide OfferHistory, OfferAll, Matching, BufferKey, Sort;
      OfferMatching(sub, history);
      ghost var read := Now();
      var registration := router.entries[sub].(replaying := false);
      router.entries := router.entries[sub := registration];
      assert GoLive(Now(), sub) == GoLive(read, sub);
      var staged := Sort(registration.buffer, BufferKey);
      SortMembers(registration.buffer);
      OfferStaged(sub, staged);
      ghost var drained := Now();
      router.entries := router.entries[sub := registration.(buffer := [])];
      assert Now() == GoLive(drained, sub);
    }

    method OfferMatching(sub: nat, history: seq<Message>)
      requires router.Valid() && sub in router.entries && sub in queues
          && forall m <- history :: Topic.WellSplit(m.topic)
      modifies this`queues, this`inflight, this`pending, this`pendingTotal, this`nextId, this`owner, this`chains
      ensures sub in queues && old(chains).Keys <= chains.Keys && queues.Keys == old(queues).Keys
      ensures GoLive(Now(), sub) ==
        OfferHistory(config, GoLive(old(Now()), sub), sub, Matching(router.entries[sub].tokens, history))
    {
      var tokens := router.entries[sub].tokens;
      assert history[0..] == history;
      for i := 0 to |history|
        invariant queues.Keys == old(queues).Keys && old(chains).Keys <= chains.Keys
        invariant OfferHistory(config, GoLive(Now(), sub), sub, Matching(tokens, history[i..])) ==
                  OfferHistory(config, GoLive(old(Now()), sub), sub, Matching(tokens, history))
      {
        hide OfferHistory, Matching, GoLive, BrokerState.Enqueue, Topic.Denotes, Topic.Split;
        HistoryFrom(config, Now(), sub, tokens, history, i);
        assert history[i] in history;
        var hit := Topic.MatchesTokens(tokens, history[i].topic);
        if hit.value {
          var d := MakeDelivery(sub, history[i]);
          Enqueue(d);
        }
      }
      assert history[|history|..] == [];
    }

    method OfferStaged(sub: nat, staged: seq<Delivery>)
      requires sub in router.entries && forall d <- staged :: d.root in chains && d.subscription in queues
      modifies this`queues, this`inflight, this`pending, this`pendingTotal, this`chains
      ensures GoLive(Now(), sub) == OfferAll(config, GoLive(old(Now()), sub), staged)
    {
      hide OfferAll, BrokerState.Enqueue;
      OfferNone(config, GoLive(Now(), sub));
      assert staged[0..] == staged && staged[|staged|..] == [];
      for i := 0 to |staged|
        invariant queues.Keys == old(queues).Keys && old(chains).Keys == chains.Keys
        invariant forall d <- staged[i..] :: d in staged
        invariant OfferAll(config, GoLive(Now(), sub), staged[i..]) == OfferAll(config, GoLive(old(Now()), sub), staged)
      {
        hide GoLive;
        assert staged[i..] == [staged[i]] + staged[i + 1..];
        StagedFrom(config, Now(), sub, staged[i], staged[i + 1..]);
        Enqueue(staged[i]);
      }
      OfferNone(config, GoLive(Now(), sub));
    }

    /** `subscribe` when the replay raises. */
    method AbandonReplay(sub: nat)
      requires router.Valid()
      modifies router
      ensures router.Valid() && Now() == old(Now()).(regs := old(router.entries) - {sub})
    {
      router.Unregister(sub);
    }

    method DropInflight(sub: nat)
      requires router.Valid()
      modifies this`inflight, this`pending, this`pendingTotal, this`admit, this`parked, this`woken
      ensures Now() == Refresh(config, Dropped(old(Now()), sub).(regs := old(Now()).regs))
    {
      hide Refresh, Below, BrokerState.Backlog;
      DropFlights(sub);
      pendingTotal := pendingTotal - (if sub in pending then pending[sub] else 0);
      pending := pending - {sub};
      RefreshAdmission();
    }

    method DropFlights(sub: nat)
      modifies this`inflight
      ensures inflight == Dropped(old(Now()), sub).inflight
    {
      var stale := set i | i in inflight && inflight[i].subscription == sub;
      ghost var all := stale;
      while stale != {}
        invariant stale <= all
        invariant forall i :: i in inflight <==> i in old(inflight) && (i in stale || i !in all)
        invariant forall i <- inflight :: inflight[i] == old(inflight)[i]
        decreases |stale|
      {
        var i :| i in stale;
        inflight := inflight - {i};
        stale := stale - {i};
      }
      ghost var kept := Dropped(old(Now()), sub).inflight;
      assert forall i :: i in inflight <==> i in kept;
      assert inflight == kept;
    }

    /** `_disconnect`, and `_unsubscribe` too: they treat only the stream differently. */
    method Disconnect(sub: nat)
      requires router.Valid()
      modifies this`inflight, this`pending, this`pendingTotal, this`admit, this`parked, this`woken, router
      ensures router.Valid() && Now() == Remove(config, old(Now()), sub)
    {
      hide Refresh, Value;
      router.Unregister(sub);
      assert Dropped(Now(), sub).(regs := Now().regs) == Dropped(old(Now()), sub);
      DropInflight(sub);
    }

    // ---- Settlement ------------------------------------------------------------------------

    method Take(sub: nat) returns (d: Delivery)
      requires sub in queues && queues[sub] != [] && queues[sub][0].root in chains
      modifies this`queues, this`chains
      ensures d == old(queues[sub][0]) && Now() == BrokerState.Take(old(Now()), sub)
    {
      d := queues[sub][0];
      queues := queues[sub := queues[sub][1..]];
      chains := chains[d.root := chains[d.root].(place := Held)];
    }

    method Ack(d: Delivery)
      requires router.Valid() && d.root in chains && chains[d.root].cur == d
      modifies this`inflight, this`chains, this`admit, this`parked, this`woken
      ensures Now() == BrokerState.Ack(config, old(Now()), d.root)
    {
      hide Refresh;
      inflight := inflight - {d.id};
      chains := chains[d.root := chains[d.root].(place := Acked)];
      assert Now() == Moved(old(Now()), d.root, Acked).(inflight := old(inflight) - {d.id});
      RefreshAdmission();
    }

    method Nack(d: Delivery)
      requires router.Valid() && d.root in chains && chains[d.root].cur == d
      modifies this`inflight, this`chains, this`admit, this`parked, this`woken, this`pending, this`pendingTotal
      ensures Now() == BrokerState.Nack(config, old(Now()), d.root)
    {
      hide Below, Refresh, BrokerState.EnterRetry, BrokerState.Schedule;
      inflight := inflight - {d.id};
      if d.subscription !in router.entries {
        chains := chains[d.root := chains[d.root].(place := Gone)];
        assert Now() == Moved(old(Now()).(inflight := old(inflight) - {d.id}), d.root, Gone);
        RefreshAdmission();
        return;
      }
      EnterRetry(d.subscription);
      var _ := Schedule(d);
    }

    // ---- The retry engine's tasks ----------------------------------------------------------

    /** `_delayed` of `d` after its sleep. */
    method Delayed(d: Delivery)
      requires d.root in chains && chains[d.root].cur == d && d.subscription in queues
      modifies this`queues, this`inflight, this`pending, this`pendingTotal, this`nextId, this`owner, this`chains
      ensures Now() == Wake(config, old(Now()), d.root)
    {
      hide BrokerState.LeaveRetry, PutQueue;
      var retry := Redeliver(d);
      var done := PutNowait(retry);
      if !done {
        var _ := Schedule(retry);
        return;
      }
      RecordRetried(retry);
    }

    method Redeliver(d: Delivery) returns (retry: Delivery)
      requires d.root in chains && chains[d.root].cur == d
      modifies this`nextId, this`owner, this`chains
      ensures retry == Redelivered(d, old(nextId)) && Now() == Renewed(old(Now()), d.root)
    {
      retry := Redelivered(d, nextId);
      owner := owner[retry.id := d.root];
      chains := chains[d.root := Chain(retry, Sleeping, chains[d.root].trail + [retry])];
      nextId := nextId + 1;
    }

    /** `_to_dlq` has stored the entry of `d`, and `on_exhausted` is called. */
    method Exhaust(d: Delivery)
      requires router.Valid() && d.root in chains && chains[d.root].cur == d
      modifies this`inflight, this`pending, this`pendingTotal, this`admit, this`parked, this`woken, router
      modifies this`chains, this`dlq, this`deadRoots
      ensures router.Valid() && Now() == BuryAndEvict(config, old(Now()), d.root)
    {
      hide Refresh, Value, DeadLetter;
      dlq, deadRoots := dlq + [DeadLetter(d)], deadRoots + [d.root];
      chains := chains[d.root := chains[d.root].(place := Dead)];
      assert Dropped(Now(), d.subscription) == Buried(Dropped(old(Now()), d.subscription), d.root);
      Disconnect(d.subscription);
    }
  }
}
