/** `_Connection` of `pubsub/transport/server.py`, as far as deliveries go: every method does what its
    event in `Settlement` says. */
module Connection {
  import opened Common
  import opened Types
  import opened BrokerState
  import opened BrokerRuns
  import opened Settlement
  import B = Broker

  lemma AttachedOk(c: Config, s: State)
    requires Inv(c, s)
    ensures Settlement.Ok(c, BEGIN.(b := s))
  {
    hide Inv;
    InvBooks(c, s);
    BooksLinked(s);
  }

  lemma OkTied(c: Config, l: Settlement.Link)
    requires Settlement.Ok(c, l)
    ensures Tied(l) && Linked(l.b)
  {
  }

  // ---- What each event does ----------------------------------------------------------------

  lemma AfterSubscribed(c: Config, l: Settlement.Link, sub: nat)
    requires Tied(l) && CanHappen(l, Subscribed(sub))
    ensures After(c, l, Subscribed(sub)) == l.(subs := l.subs + {sub}, mine := l.mine + {sub})
  {
  }

  lemma AfterPull(c: Config, l: Settlement.Link, sub: nat)
    requires Tied(l) && CanHappen(l, Pull(sub))
    ensures sub in l.b.queues && l.b.queues[sub] != [] && l.b.queues[sub][0].root in l.b.chains
    ensures After(c, l, Pull(sub)) == l.(b := Take(l.b, sub), hand := l.hand[sub := l.b.queues[sub][0]])
  {
    assert l.b.queues[sub][0] in l.b.queues[sub];
    hide Take;
  }

  lemma AfterRecord(c: Config, l: Settlement.Link, sub: nat)
    requires Tied(l) && CanHappen(l, Record(sub))
    ensures sub in l.hand
    ensures After(c, l, Record(sub)) ==
      l.(hand := l.hand - {sub}, inflight := l.inflight[l.hand[sub].id := l.hand[sub]])
  {
  }

  lemma AfterClosed(c: Config, l: Settlement.Link, sub: nat)
    requires Tied(l) && CanHappen(l, SubClosed(sub))
    ensures After(c, l, SubClosed(sub)) == l.(subs := l.subs - {sub})
  {
  }

  /** An answer to a known delivery acks it; any other answer is popped. */
  lemma AfterAck(c: Config, l: Settlement.Link, id: nat)
    requires Tied(l)
    ensures Known(l, id) ==>
      var d := l.inflight[id];
      && d.root in l.b.chains && l.b.chains[d.root].cur == d
      && After(c, l, Event.OnAck(id)) == Popped(l, id).(b := Ack(c, l.b, d.root), settled := l.settled + [id])
    ensures !Known(l, id) ==> After(c, l, Event.OnAck(id)) == Popped(l, id)
  {
    AckKnown(c, l, id);
    KnownHolds(l, id);
    hide Tied, Linked, After, Ack;
  }

  lemma AfterNack(c: Config, l: Settlement.Link, id: nat)
    requires Tied(l)
    ensures Known(l, id) ==>
      var d := l.inflight[id];
      && d.root in l.b.chains && l.b.chains[d.root].cur == d
      && After(c, l, Event.OnNack(id)) == Popped(l, id).(b := Nack(c, l.b, d.root), settled := l.settled + [id])
    ensures !Known(l, id) ==> After(c, l, Event.OnNack(id)) == Popped(l, id)
  {
    NackKnown(c, l, id);
    KnownHolds(l, id);
    hide Tied, Linked, After, Nack;
  }

  lemma AfterUnsubscribe(c: Config, l: Settlement.Link, sub: nat)
    requires Tied(l)
    ensures After(c, l, Event.OnUnsubscribe(sub)) ==
      if sub in l.subs then l.(b := Remove(c, l.b, sub), subs := l.subs - {sub}, hand := l.hand - {sub}) else l
  {
    UnsubscribeKnown(c, l, sub);
    hide Tied, Linked, After, Remove;
  }

  class Connection {
    const broker: B.Broker
    /** Subscriptions with a stream and a pump task. */
    var subs: set<nat>
    /** Deliveries sent to the client and not answered yet. */
    var inflight: map<nat, Delivery>
    /** What each pump task has got from its stream and not recorded yet. */
    var hand: map<nat, Delivery>
    ghost var mine: set<nat>
    ghost var settled: seq<nat>

    ghost function Now(): Settlement.Link
      reads this, broker, broker.router
    {
      Link(broker.Now(), subs, inflight, hand, mine, settled)
    }

    ghost predicate Valid()
      reads this, broker, broker.router
    {
      Settlement.Ok(broker.config, Now()) && broker.router.Valid()
    }

    constructor (broker: B.Broker)
      requires broker.router.Valid() && Inv(broker.config, broker.Now())
      ensures this.broker == broker && Valid() && Now() == BEGIN.(b := broker.Now())
    {
      this.broker := broker;
      subs, inflight, hand, mine, settled := {}, map[], map[], {}, [];
      new;
      AttachedOk(broker.config, broker.Now());
    }

    /** `_on_subscribe` once the broker has returned the stream. */
    method OnSubscribed(sub: nat)
      requires Valid() && CanHappen(Now(), Subscribed(sub))
      modifies this`subs, this`mine
      ensures Valid() && Now() == After(broker.config, old(Now()), Subscribed(sub))
    {
      hide Settlement.Ok, Tied, After, CanHappen;
      OkTied(broker.config, Now());
      AfterSubscribed(broker.config, Now(), sub);
      AfterOk(broker.config, Now(), Subscribed(sub));
      subs, mine := subs + {sub}, mine + {sub};
    }

    /** `_pump` when its stream yields. */
    method Pump(sub: nat)
      requires Valid() && CanHappen(Now(), Pull(sub))
      modifies this`hand, broker`queues, broker`chains
      ensures Valid() && Now() == After(broker.config, old(Now()), Pull(sub))
    {
      hide Settlement.Ok, Tied, After, CanHappen, BrokerState.Take;
      OkTied(broker.config, Now());
      AfterPull(broker.config, Now(), sub);
      AfterOk(broker.config, Now(), Pull(sub));
      var d := broker.Take(sub);
      hand := hand[sub := d];
    }

    /** `_pump` records what it got, and sends it. */
    method PumpRecord(sub: nat)
      requires Valid() && CanHappen(Now(), Record(sub))
      modifies this`hand, this`inflight
      ensures Valid() && Now() == After(broker.config, old(Now()), Record(sub))
    {
      hide Settlement.Ok, Tied, After, CanHappen;
      OkTied(broker.config, Now());
      AfterRecord(broker.config, Now(), sub);
      AfterOk(broker.config, Now(), Record(sub));
      var d := hand[sub];
      inflight := inflight[d.id := d];
      hand := hand - {sub};
    }

    /** `_pump` after the stream has ended. */
    method PumpEnded(sub: nat)
      requires Valid() && CanHappen(Now(), SubClosed(sub))
      modifies this`subs
      ensures Valid() && Now() == After(broker.config, old(Now()), SubClosed(sub))
    {
      hide Settlement.Ok, Tied, After, CanHappen;
      OkTied(broker.config, Now());
      AfterClosed(broker.config, Now(), sub);
      AfterOk(broker.config, Now(), SubClosed(sub));
      subs := subs - {sub};
    }

    /** `_inflight.pop` and the lookup of the stream. */
    method PopKnown(id: nat) returns (d: Option<Delivery>)
      modifies this`inflight
      ensures Now() == Popped(old(Now()), id)
      ensures d == if Known(old(Now()), id) then Some(old(inflight)[id]) else None
    {
      if id !in inflight {
        assert inflight - {id} == inflight;
        return None;
      }
      d := if inflight[id].subscription in subs then Some(inflight[id]) else None;
      inflight := inflight - {id};
    }

    method OnAck(id: nat)
      requires Valid()
      modifies this`inflight, this`settled
      modifies broker`inflight, broker`chains, broker`admit, broker`parked, broker`woken
      ensures Valid() && Now() == After(broker.config, old(Now()), Event.OnAck(id))
    {
      hide Settlement.Ok, Tied, After, BrokerState.Ack;
      OkTied(broker.config, Now());
      AfterAck(broker.config, Now(), id);
      AfterOk(broker.config, Now(), Event.OnAck(id));
      var d := PopKnown(id);
      if d.Some? {
        broker.Ack(d.value);
        settled := settled + [id];
      }
    }

    method OnNack(id: nat)
      requires Valid()
      modifies this`inflight, this`settled
      modifies broker`inflight, broker`chains, broker`admit, broker`parked, broker`woken
      modifies broker`pending, broker`pendingTotal
      ensures Valid() && Now() == After(broker.config, old(Now()), Event.OnNack(id))
    {
      hide Settlement.Ok, Tied, After, BrokerState.Nack;
      OkTied(broker.config, Now());
      AfterNack(broker.config, Now(), id);
      AfterOk(broker.config, Now(), Event.OnNack(id));
      var d := PopKnown(id);
      if d.Some? {
        broker.Nack(d.value);
        settled := settled + [id];
      }
    }

    method OnUnsubscribe(sub: nat)
      requires Valid()
      modifies this`subs, this`hand
      modifies broker`inflight, broker`pending, broker`pendingTotal, broker`admit, broker`parked, broker`woken
      modifies broker.router
      ensures Valid() && Now() == After(broker.config, old(Now()), Event.OnUnsubscribe(sub))
    {
      hide Settlement.Ok, Tied, After, Remove;
      OkTied(broker.config, Now());
      AfterUnsubscribe(broker.config, Now(), sub);
      AfterOk(broker.config, Now(), Event.OnUnsubscribe(sub));
      if sub !in subs {
        return;
      }
      subs := subs - {sub};
      hand := hand - {sub};
      broker.Disconnect(sub);
    }
  }
}
