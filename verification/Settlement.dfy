/** A server connection settles deliveries by id, `_Connection` in `pubsub/transport/server.py`, while the
    broker and everybody else go on. */
module Settlement {
  import opened Common
  import opened Types
  import opened Retry
  import opened Counting
  import opened BrokerState
  import opened BrokerInvariant
  import opened BrokerHistory
  import opened BrokerGate
  import opened BrokerRuns
  import opened BrokerLifecycle

  /** `subs` and `inflight` are the connection's `_subs` and `_inflight`; a pump has taken a delivery from
      its stream but not recorded it yet while it is in `hand`. The rest is history: the subscriptions the
      connection ever had, and the ids that it passed to the broker as ack or nack. */
  datatype Link = Link(
    b: State, subs: set<nat>, inflight: map<nat, Delivery>, hand: map<nat, Delivery>,
    mine: set<nat>, settled: seq<nat>)

  const BEGIN: Link := Link(INIT, {}, map[], map[], {}, [])

  /** The client chooses the ids it acks and nacks. A stream ends only when the broker has dropped its
      subscription and its queue is drained. Everybody else leaves the connection's streams alone. */
  datatype Event =
    | Subscribed(sub: nat)
    | Pull(sub: nat)
    | Record(sub: nat)
    | OnAck(id: nat)
    | OnNack(id: nat)
    | SubClosed(sub: nat)
    | OnUnsubscribe(sub: nat)
    | Other(step: Step)

  predicate Known(l: Link, id: nat) {
    id in l.inflight && l.inflight[id].subscription in l.subs
  }

  /** Steps of other consumers, of producers and of the broker's own tasks. */
  ghost predicate Foreign(l: Link, step: Step) {
    match step
    case Consume(sub) => sub !in l.mine
    case Acknowledge(root) => root in l.b.chains && Sub(l.b, root) !in l.mine
    case Refuse(root) => root in l.b.chains && Sub(l.b, root) !in l.mine
    case Leave(sub) => sub !in l.mine
    case _ => true
  }

  ghost predicate CanHappen(l: Link, e: Event) {
    match e
    case Subscribed(sub) =>
      sub in l.b.regs && !l.b.regs[sub].replaying && sub !in l.mine
          && forall root <- l.b.chains :: Untaken(l.b, root, sub)
    case Pull(sub) => sub in l.subs && sub !in l.hand && Enabled(l.b, Consume(sub))
    case Record(sub) => sub in l.hand
    case OnAck(_) => true
    case OnNack(_) => true
    case SubClosed(sub) => sub in l.subs && sub !in l.b.regs && sub in l.b.queues && l.b.queues[sub] == []
        && sub !in l.hand
    case OnUnsubscribe(_) => true
    case Other(step) => Enabled(l.b, step) && Foreign(l, step)
  }

  /** Nobody has taken from a stream that is just being handed out. */
  predicate Untaken(s: State, root: nat, sub: nat)
    requires root in s.chains
  {
    s.chains[root].cur.subscription == sub ==> !s.chains[root].place.Held?
  }

  predicate Holds(s: State, d: Delivery) {
    d.root in s.chains && s.chains[d.root].cur == d && s.chains[d.root].place.Held?
  }

  /** What the connection has in hand and in flight is with a consumer, for all the broker knows. */
  ghost predicate Tied(l: Link) {
    && Linked(l.b)
    && (forall id <- l.inflight :: var d := l.inflight[id]; d.id == id && Holds(l.b, d) && d.subscription in l.mine)
    && (forall sub <- l.hand :: var d := l.hand[sub]; Holds(l.b, d) && d.subscription == sub && d.id !in l.inflight)
    && l.hand.Keys <= l.subs && l.subs <= l.mine && l.mine <= l.b.queues.Keys
    && (forall sub <- l.subs | sub in l.b.regs :: !l.b.regs[sub].replaying)
  }

  /** The step that the event makes the broker take, if any. */
  ghost function BrokerStep(l: Link, e: Event): Option<Step>
    requires Tied(l)
  {
    match e
    case Pull(sub) => Some(Consume(sub))
    case OnAck(id) => if Known(l, id) then Some(Acknowledge(l.inflight[id].root)) else None
    case OnNack(id) => if Known(l, id) then Some(Refuse(l.inflight[id].root)) else None
    case OnUnsubscribe(sub) => if sub in l.subs then Some(Leave(sub)) else None
    case Other(step) => Some(step)
    case _ => None
  }

  lemma BrokerStepEnabled(l: Link, e: Event)
    requires Tied(l) && CanHappen(l, e)
    ensures BrokerStep(l, e).Some? ==> Enabled(l.b, BrokerStep(l, e).value)
  {
    hide Linked;
  }

  ghost function Broker(c: Config, l: Link, e: Event): State
    requires Tied(l) && CanHappen(l, e)
  {
    BrokerStepEnabled(l, e);
    if BrokerStep(l, e).Some? then Apply(c, l.b, BrokerStep(l, e).value) else l.b
  }

  ghost function After(c: Config, l: Link, e: Event): Link
    requires Tied(l) && CanHappen(l, e)
  {
    var l' := l.(b := Broker(c, l, e));
    match e
    case Subscribed(sub) => l'.(subs := l.subs + {sub}, mine := l.mine + {sub})
    case Pull(sub) => l'.(hand := l.hand[sub := l.b.queues[sub][0]])
    case Record(sub) => l'.(hand := l.hand - {sub}, inflight := l.inflight[l.hand[sub].id := l.hand[sub]])
    case OnAck(id) =>
      l'.(inflight := l.inflight - {id}, settled := if Known(l, id) then l.settled + [id] else l.settled)
    case OnNack(id) =>
      l'.(inflight := l.inflight - {id}, settled := if Known(l, id) then l.settled + [id] else l.settled)
    case SubClosed(sub) => l'.(subs := l.subs - {sub})
    case OnUnsubscribe(sub) => if sub in l.subs then l'.(subs := l.subs - {sub}, hand := l.hand - {sub}) else l'
    case Other(_) => l'
  }

  // ---- The invariant -----------------------------------------------------------------------

  /** The delivery of that id can never be taken again. */
  ghost predicate Over(s: State, id: nat) {
    id in s.owner && s.owner[id] in s.chains &&
    (s.chains[s.owner[id]].cur.id == id ==>
       !Flying(s.chains[s.owner[id]].place) && !s.chains[s.owner[id]].place.Staged?)
  }

  ghost predicate SettledOk(l: Link) {
    && (forall id <- l.settled :: Over(l.b, id))
    && (forall i, j | 0 <= i < j < |l.settled| :: l.settled[i] != l.settled[j])
  }

  ghost predicate Ok(c: Config, l: Link) {
    Inv(c, l.b) && Tied(l) && SettledOk(l)
  }

  /** A held delivery stays held until it is settled. */
  lemma HeldStays(c: Config, s: State, step: Step, root: nat)
    requires Books(s, {}) && Linked(s) && Enabled(s, step) && root in s.chains && s.chains[root].place.Held?
    requires step != Acknowledge(root) && step != Refuse(root)
    ensures root in Apply(c, s, step).chains && Apply(c, s, step).chains[root] == s.chains[root]
  {
    StepLegal(c, s, step);
    hide Books, Linked, Apply;
    assert LegalMove(s, Apply(c, s, step), step, root);
  }

  lemma OverStays(c: Config, s: State, step: Step, id: nat)
    requires Books(s, {}) && Linked(s) && Enabled(s, step) && Over(s, id)
    requires id < s.nextId
    ensures Over(Apply(c, s, step), id)
  {
    hide Books, Linked, Apply, LegalStep;
    StepLegal(c, s, step);
    StepGrows(c, s, step);
    LegalAt(s, Apply(c, s, step), step, s.owner[id]);
  }

  lemma OwnedBelow(s: State, id: nat)
    requires Books(s, {}) && id in s.owner
    ensures id < s.nextId
  {
  }

  /** A delivery that is held is not over, so its id was not settled before. */
  lemma HeldNotSettled(l: Link, id: nat)
    requires Books(l.b, {}) && Tied(l) && SettledOk(l) && id in l.inflight
    ensures id !in l.settled
  {
    var d := l.inflight[id];
    HeldOwner(l.b, d.root);
    hide Books, Linked;
    assert id in l.settled ==> Over(l.b, id);
  }

  lemma HeldOwner(s: State, root: nat)
    requires Books(s, {}) && root in s.chains
    ensures s.chains[root].cur.id in s.owner && s.owner[s.chains[root].cur.id] == root
  {
  }

  // ---- Events ------------------------------------------------------------------------------

  predicate Settles(step: Step, d: Delivery) {
    step == Acknowledge(d.root) || step == Refuse(d.root)
  }

  lemma HoldsStays(c: Config, s: State, step: Step, d: Delivery)
    requires Books(s, {}) && Linked(s) && Enabled(s, step) && Holds(s, d) && !Settles(step, d)
    ensures Holds(Apply(c, s, step), d)
  {
    hide Books, Linked, Apply, Enabled;
    HeldStays(c, s, step, d.root);
  }

  /** What stays with the connection stays held while the broker takes a step that settles none of it. */
  lemma StepTied(c: Config, l: Link, step: Step)
    requires Books(l.b, {}) && Honest(c, l.b) && Tied(l) && Enabled(l.b, step)
    requires forall id <- l.inflight :: !Settles(step, l.inflight[id])
    requires forall sub <- l.hand :: !Settles(step, l.hand[sub])
    ensures Tied(l.(b := Apply(c, l.b, step)))
  {
    hide Books, Honest, Linked, Apply, Enabled, Holds, Settles;
    StepBooks(c, l.b, step);
    BooksLinked(Apply(c, l.b, step));
    forall id <- l.inflight
      ensures Holds(Apply(c, l.b, step), l.inflight[id])
    {
      HoldsStays(c, l.b, step, l.inflight[id]);
    }
    forall sub <- l.hand
      ensures Holds(Apply(c, l.b, step), l.hand[sub])
    {
      HoldsStays(c, l.b, step, l.hand[sub]);
    }
    StepQueues(c, l.b, step);
    StepSubs(c, l, step);
  }

  lemma StepSubs(c: Config, l: Link, step: Step)
    requires Tied(l) && Enabled(l.b, step)
    ensures forall sub <- l.subs | sub in Apply(c, l.b, step).regs :: !Apply(c, l.b, step).regs[sub].replaying
  {
    hide Linked, Apply, Enabled, Holds;
    forall sub <- l.subs | sub in Apply(c, l.b, step).regs
      ensures !Apply(c, l.b, step).regs[sub].replaying
    {
      StepReplaying(c, l.b, step, sub);
    }
  }

  lemma StepQueues(c: Config, s: State, step: Step)
    requires Linked(s) && Enabled(s, step)
    ensures s.queues.Keys <= Apply(c, s, step).queues.Keys
  {
    if step.FlushReplay? {
      FlushRegs(c, s, step.sub, step.history);
      hide Flush;
    } else {
      StepTerms(c, s, step);
      hide Apply;
    }
  }

  lemma StepSettled(c: Config, l: Link, step: Step)
    requires Books(l.b, {}) && Tied(l) && SettledOk(l) && Enabled(l.b, step)
    ensures SettledOk(l.(b := Apply(c, l.b, step)))
  {
    hide Books, Linked, Apply, Enabled, Over;
    forall id <- l.settled
      ensures Over(Apply(c, l.b, step), id)
    {
      OverOwned(l.b, id);
      OwnedBelow(l.b, id);
      OverStays(c, l.b, step, id);
    }
  }

  lemma OverOwned(s: State, id: nat)
    requires Over(s, id)
    ensures id in s.owner
  {
  }

  lemma SameDelivery(s: State, d: Delivery, e: Delivery)
    requires Books(s, {}) && d.root in s.chains && s.chains[d.root].cur == d && e.root in s.chains
        && s.chains[e.root].cur == e
    ensures d.id == e.id ==> d == e
  {
    HeldOwner(s, d.root);
    HeldOwner(s, e.root);
  }

  lemma HandTied(l: Link, sub: nat, d: Delivery)
    requires Tied(l) && sub in l.subs && Holds(l.b, d) && d.subscription == sub && d.id !in l.inflight
    ensures Tied(l.(hand := l.hand[sub := d]))
  {
    hide Linked;
  }

  lemma PulledApart(l: Link, sub: nat)
    requires Books(l.b, {}) && Tied(l) && sub in l.b.queues && l.b.queues[sub] != []
    ensures l.b.queues[sub][0].id !in l.inflight && l.b.queues[sub][0].subscription == sub
  {
    TakenQueued(l.b, sub);
    hide Books, Linked;
    var d := l.b.queues[sub][0];
    if d.id in l.inflight {
      SameDelivery(l.b, l.inflight[d.id], d);
      assert false;
    }
  }

  lemma ConsumeTied(c: Config, l: Link, sub: nat)
    requires Books(l.b, {}) && Honest(c, l.b) && Tied(l) && Enabled(l.b, Consume(sub))
    ensures Tied(l.(b := Apply(c, l.b, Consume(sub))))
  {
    hide Books, Honest, Linked, Apply, Enabled, Holds;
    StepTied(c, l, Consume(sub));
  }

  lemma PullTied(c: Config, l: Link, sub: nat)
    requires Books(l.b, {}) && Honest(c, l.b) && Tied(l) && CanHappen(l, Pull(sub))
    ensures Tied(After(c, l, Pull(sub)))
  {
    TiedLinked(l);
    hide Books, Honest, Linked, Tied, Holds;
    PulledApart(l, sub);
    ConsumeTied(c, l, sub);
    TakenHeld(l.b, sub);
    HandTied(l.(b := Apply(c, l.b, Consume(sub))), sub, l.b.queues[sub][0]);
  }

  lemma TakenHeld(s: State, sub: nat)
    requires Books(s, {}) && Linked(s) && sub in s.queues && s.queues[sub] != []
    ensures s.queues[sub][0] in s.queues[sub] && Holds(Take(s, sub), s.queues[sub][0])
  {
    TakenQueued(s, sub);
    hide Books;
    assert s.queues[sub][0] in s.queues[sub];
  }

  lemma RecordTied(c: Config, l: Link, sub: nat)
    requires Books(l.b, {}) && Tied(l) && CanHappen(l, Record(sub))
    ensures Tied(After(c, l, Record(sub)))
  {
    hide Books, Linked;
    forall q <- l.hand | q != sub
      ensures l.hand[q].id != l.hand[sub].id
    {
      SameDelivery(l.b, l.hand[q], l.hand[sub]);
    }
  }

  /** The connection without one delivery in flight. */
  function Popped(l: Link, id: nat): Link {
    l.(inflight := l.inflight - {id})
  }

  lemma PoppedApart(l: Link, id: nat, step: Step)
    requires Books(l.b, {}) && Tied(l) && id in l.inflight && Settles(step, l.inflight[id])
    ensures Tied(Popped(l, id))
    ensures forall i <- Popped(l, id).inflight :: !Settles(step, l.inflight[i])
    ensures forall sub <- l.hand :: !Settles(step, l.hand[sub])
  {
    hide Books, Linked;
  }

  lemma SettleTied(c: Config, l: Link, id: nat, step: Step)
    requires Books(l.b, {}) && Honest(c, l.b) && Tied(l) && id in l.inflight && Settles(step, l.inflight[id])
    requires Enabled(l.b, step)
    ensures Tied(Popped(l, id).(b := Apply(c, l.b, step)))
  {
    hide Books, Honest, Linked, Apply, Enabled, Settles, Tied;
    PoppedApart(l, id, step);
    TiedLinked(l);
    StepTied(c, Popped(l, id), step);
  }

  lemma TiedLinked(l: Link)
    requires Tied(l)
    ensures Linked(l.b)
  {
  }

  lemma OverNow(s: State, s': State, d: Delivery)
    requires d.id in s.owner && s.owner[d.id] == d.root && Grows(s, s') && d.root in s'.chains
    requires !Flying(s'.chains[d.root].place) && !s'.chains[d.root].place.Staged?
    ensures Over(s', d.id)
  {
  }

  /** A settled delivery is over. */
  lemma SettleOver(c: Config, s: State, step: Step, d: Delivery)
    requires Books(s, {}) && Linked(s) && Enabled(s, step) && Holds(s, d) && Settles(step, d)
    ensures Over(Apply(c, s, step), d.id)
  {
    hide Books, Linked, Ack, Nack, Over, Grows, Settled;
    HeldOwner(s, d.root);
    StepGrows(c, s, step);
    if step == Acknowledge(d.root) {
      AckMoves(c, s, d.root);
    } else {
      NackMoves(c, s, d.root);
    }
    OverNow(s, Apply(c, s, step), d);
  }

  lemma SettledThen(l: Link, l': Link, id: nat)
    requires SettledOk(l) && id !in l.settled && Over(l.b, id) && l'.b == l.b && l'.settled == l.settled + [id]
    ensures SettledOk(l')
  {
    hide Over;
  }

  lemma SettleSettled(c: Config, l: Link, id: nat, step: Step, l': Link)
    requires Books(l.b, {}) && Honest(c, l.b) && Tied(l) && SettledOk(l) && id in l.inflight
    requires Settles(step, l.inflight[id]) && Enabled(l.b, step)
    requires Linked(l.b) && l'.b == Apply(c, l.b, step) && l'.settled == l.settled + [id]
    ensures SettledOk(l')
  {
    HeldNotSettled(l, id);
    InFlightHolds(l, id);
    hide Books, Honest, Linked, Apply, Enabled, Over, Settles, SettledOk, Tied, Holds;
    StepSettled(c, l, step);
    SettleOver(c, l.b, step, l.inflight[id]);
    SettledThen(l.(b := Apply(c, l.b, step)), l', id);
  }

  lemma InFlightHolds(l: Link, id: nat)
    requires Tied(l) && id in l.inflight
    ensures Holds(l.b, l.inflight[id]) && l.inflight[id].id == id && Linked(l.b)
  {
  }

  lemma KnownHolds(l: Link, id: nat)
    requires Tied(l)
    ensures Known(l, id) ==> Holds(l.b, l.inflight[id])
  {
  }

  lemma HeldEnabled(l: Link, id: nat)
    requires Tied(l) && id in l.inflight
    ensures Enabled(l.b, Acknowledge(l.inflight[id].root)) && Enabled(l.b, Refuse(l.inflight[id].root))
  {
  }

  /** Only `b`, `subs`, `inflight`, `hand` and `mine` matter. */
  lemma SameTied(l: Link, l': Link)
    requires Tied(l) && l' == l.(settled := l'.settled)
    ensures Tied(l')
  {
    hide Linked, Holds;
  }

  ghost function Answered(c: Config, l: Link, id: nat, step: Step): Link
    requires Linked(l.b) && Enabled(l.b, step)
  {
    Popped(l, id).(b := Apply(c, l.b, step), settled := l.settled + [id])
  }

  /** An id that the connection has in flight for a stream it still has reaches the broker; any other
      answer changes nothing there. */
  lemma AckKnown(c: Config, l: Link, id: nat)
    requires Tied(l)
    ensures Known(l, id) ==>
      var step := Acknowledge(l.inflight[id].root);
      Enabled(l.b, step) && After(c, l, OnAck(id)) == Answered(c, l, id, step)
    ensures !Known(l, id) ==> After(c, l, OnAck(id)) == Popped(l, id)
  {
    if Known(l, id) {
      HeldEnabled(l, id);
    }
    hide Linked, Apply, Holds;
  }

  lemma NackKnown(c: Config, l: Link, id: nat)
    requires Tied(l)
    ensures Known(l, id) ==>
      var step := Refuse(l.inflight[id].root);
      Enabled(l.b, step) && After(c, l, OnNack(id)) == Answered(c, l, id, step)
    ensures !Known(l, id) ==> After(c, l, OnNack(id)) == Popped(l, id)
  {
    if Known(l, id) {
      HeldEnabled(l, id);
    }
    hide Linked, Apply, Holds;
  }

  lemma OnAckOk(c: Config, l: Link, id: nat)
    requires Books(l.b, {}) && Honest(c, l.b) && Tied(l) && SettledOk(l)
    ensures Tied(After(c, l, OnAck(id))) && SettledOk(After(c, l, OnAck(id)))
  {
    AckKnown(c, l, id);
    hide Books, Honest, Tied, SettledOk, After, Enabled, Answered;
    if Known(l, id) {
      AnsweredOk(c, l, id, Acknowledge(l.inflight[id].root));
    } else {
      PoppedTied(l, id);
      SameSettled(l, Popped(l, id));
    }
  }

  lemma OnNackOk(c: Config, l: Link, id: nat)
    requires Books(l.b, {}) && Honest(c, l.b) && Tied(l) && SettledOk(l)
    ensures Tied(After(c, l, OnNack(id))) && SettledOk(After(c, l, OnNack(id)))
  {
    NackKnown(c, l, id);
    hide Books, Honest, Tied, SettledOk, After, Enabled, Answered;
    if Known(l, id) {
      AnsweredOk(c, l, id, Refuse(l.inflight[id].root));
    } else {
      PoppedTied(l, id);
      SameSettled(l, Popped(l, id));
    }
  }

  lemma PoppedTied(l: Link, id: nat)
    requires Tied(l)
    ensures Tied(Popped(l, id))
  {
    hide Linked, Holds;
  }

  lemma AnsweredOk(c: Config, l: Link, id: nat, step: Step)
    requires Books(l.b, {}) && Honest(c, l.b) && Tied(l) && SettledOk(l) && id in l.inflight
    requires Settles(step, l.inflight[id]) && Linked(l.b) && Enabled(l.b, step)
    ensures Tied(Answered(c, l, id, step)) && SettledOk(Answered(c, l, id, step))
  {
    hide Books, Honest, Linked, Tied, SettledOk, Apply, Enabled, Settles;
    SettleTied(c, l, id, step);
    SameTied(Popped(l, id).(b := Apply(c, l.b, step)), Answered(c, l, id, step));
    SettleSettled(c, l, id, step, Answered(c, l, id, step));
  }

  lemma LeftTied(l: Link, sub: nat)
    requires Tied(l)
    ensures Tied(l.(subs := l.subs - {sub}, hand := l.hand - {sub}))
  {
    hide Linked, Holds;
  }

  lemma LeaveTied(c: Config, l: Link, sub: nat)
    requires Books(l.b, {}) && Honest(c, l.b) && Tied(l) && Enabled(l.b, Leave(sub))
    ensures Tied(l.(b := Apply(c, l.b, Leave(sub))))
  {
    hide Books, Honest, Linked, Apply, Enabled, Holds;
    StepTied(c, l, Leave(sub));
  }

  lemma LeaveEnabled(l: Link, sub: nat)
    requires Tied(l) && sub in l.subs
    ensures Enabled(l.b, Leave(sub)) && Linked(l.b)
  {
  }

  ghost function Quit(c: Config, l: Link, sub: nat): Link
    requires Linked(l.b) && Enabled(l.b, Leave(sub))
  {
    l.(b := Apply(c, l.b, Leave(sub)), subs := l.subs - {sub}, hand := l.hand - {sub})
  }

  lemma UnsubscribeKnown(c: Config, l: Link, sub: nat)
    requires Tied(l)
    ensures sub in l.subs ==> Enabled(l.b, Leave(sub)) && After(c, l, OnUnsubscribe(sub)) == Quit(c, l, sub)
    ensures sub !in l.subs ==> After(c, l, OnUnsubscribe(sub)) == l
  {
    if sub in l.subs {
      LeaveEnabled(l, sub);
    }
    hide Linked, Apply, Holds;
  }

  lemma QuitOk(c: Config, l: Link, sub: nat)
    requires Books(l.b, {}) && Honest(c, l.b) && Tied(l) && SettledOk(l) && Linked(l.b) && Enabled(l.b, Leave(sub))
    ensures Tied(Quit(c, l, sub)) && SettledOk(Quit(c, l, sub))
  {
    hide Books, Honest, Linked, Tied, SettledOk, Apply, Enabled;
    LeaveTied(c, l, sub);
    StepSettled(c, l, Leave(sub));
    LeftTied(l.(b := Apply(c, l.b, Leave(sub))), sub);
    SameSettled(l.(b := Apply(c, l.b, Leave(sub))), Quit(c, l, sub));
  }

  lemma OnUnsubscribeOk(c: Config, l: Link, sub: nat)
    requires Books(l.b, {}) && Honest(c, l.b) && Tied(l) && SettledOk(l)
    ensures Tied(After(c, l, OnUnsubscribe(sub))) && SettledOk(After(c, l, OnUnsubscribe(sub)))
  {
    UnsubscribeKnown(c, l, sub);
    hide Books, Honest, Tied, SettledOk, Enabled, After, Quit;
    if sub in l.subs {
      QuitOk(c, l, sub);
    }
  }

  lemma OtherOk(c: Config, l: Link, step: Step)
    requires Books(l.b, {}) && Honest(c, l.b) && Tied(l) && SettledOk(l) && CanHappen(l, Other(step))
    ensures Tied(After(c, l, Other(step))) && SettledOk(After(c, l, Other(step)))
  {
    hide Books, Honest, Linked, Apply, Over, Enabled;
    StepTied(c, l, step);
    StepSettled(c, l, step);
  }

  lemma AfterInv(c: Config, l: Link, e: Event)
    requires Ok(c, l) && CanHappen(l, e)
    ensures Inv(c, After(c, l, e).b)
  {
    hide Inv, Tied, SettledOk, CanHappen, Broker;
    AfterBroker(c, l, e);
    BrokerInv(c, l, e);
  }

  lemma BrokerInv(c: Config, l: Link, e: Event)
    requires Inv(c, l.b) && Tied(l) && CanHappen(l, e)
    ensures Inv(c, Broker(c, l, e))
  {
    TiedLinked(l);
    hide Inv, Tied, Linked, Apply, Enabled, CanHappen, BrokerStep;
    BrokerStepEnabled(l, e);
    if BrokerStep(l, e).Some? {
      StepInv(c, l.b, BrokerStep(l, e).value);
    }
  }

  /** Every event keeps the invariant. */
  lemma AfterOk(c: Config, l: Link, e: Event)
    requires Ok(c, l) && CanHappen(l, e)
    ensures Ok(c, After(c, l, e))
  {
    AfterInv(c, l, e);
    hide Books, Honest, GateOk, Tied, SettledOk, After, Broker;
    match e
    case Subscribed(sub) => SubscribedTied(c, l, sub);
    case Pull(sub) => PullOk(c, l, sub);
    case Record(sub) => RecordOk(c, l, sub);
    case OnAck(id) => OnAckOk(c, l, id);
    case OnNack(id) => OnNackOk(c, l, id);
    case SubClosed(sub) => SubClosedOk(c, l, sub);
    case OnUnsubscribe(sub) => OnUnsubscribeOk(c, l, sub);
    case Other(step) => OtherOk(c, l, step);
  }

  lemma PullOk(c: Config, l: Link, sub: nat)
    requires Books(l.b, {}) && Honest(c, l.b) && Tied(l) && SettledOk(l) && CanHappen(l, Pull(sub))
    ensures Tied(After(c, l, Pull(sub))) && SettledOk(After(c, l, Pull(sub)))
  {
    TiedLinked(l);
    hide Books, Honest, Tied, SettledOk, Linked, Apply;
    PullTied(c, l, sub);
    StepSettled(c, l, Consume(sub));
    SameSettled(l.(b := Apply(c, l.b, Consume(sub))), After(c, l, Pull(sub)));
  }

  lemma RecordOk(c: Config, l: Link, sub: nat)
    requires Books(l.b, {}) && Tied(l) && SettledOk(l) && CanHappen(l, Record(sub))
    ensures Tied(After(c, l, Record(sub))) && SettledOk(After(c, l, Record(sub)))
  {
    hide Books, SettledOk;
    RecordTied(c, l, sub);
    SameSettled(l, After(c, l, Record(sub)));
  }

  lemma SubClosedOk(c: Config, l: Link, sub: nat)
    requires Tied(l) && SettledOk(l) && CanHappen(l, SubClosed(sub))
    ensures Tied(After(c, l, SubClosed(sub))) && SettledOk(After(c, l, SubClosed(sub)))
  {
    hide SettledOk, Linked, Holds;
    SameSettled(l, After(c, l, SubClosed(sub)));
  }

  lemma SameSettled(l: Link, l': Link)
    requires SettledOk(l) && l'.b == l.b && l'.settled == l.settled
    ensures SettledOk(l')
  {
  }

  lemma SubscribedTied(c: Config, l: Link, sub: nat)
    requires Tied(l) && SettledOk(l) && CanHappen(l, Subscribed(sub))
    ensures Tied(After(c, l, Subscribed(sub))) && SettledOk(After(c, l, Subscribed(sub)))
  {
    assert sub in l.b.queues;
    hide Linked, Over;
  }

  // ---- Runs --------------------------------------------------------------------------------

  /** `Tied` makes `After` well defined and never stops a run: `AfterOk` keeps it. */
  ghost predicate Runs(c: Config, l: Link, events: seq<Event>)
    decreases |events|
  {
    events == [] || (Tied(l) && CanHappen(l, events[0]) && Runs(c, After(c, l, events[0]), events[1..]))
  }

  ghost function Final(c: Config, l: Link, events: seq<Event>): Link
    requires Runs(c, l, events)
    decreases |events|
  {
    if events == [] then l else Final(c, After(c, l, events[0]), events[1..])
  }

  ghost predicate Arises(c: Config, l: Link) {
    exists events :: Runs(c, BEGIN, events) && Final(c, BEGIN, events) == l
  }

  lemma BeginOk(c: Config)
    ensures Ok(c, BEGIN)
  {
    InitInv(c);
    BooksLinked(INIT);
    hide Inv, Linked;
  }

  lemma {:induction false} RunOk(c: Config, l: Link, events: seq<Event>)
    requires Ok(c, l) && Reachable(c, l.b) && Runs(c, l, events)
    ensures Ok(c, Final(c, l, events)) && Reachable(c, Final(c, l, events).b)
    decreases |events|
  {
    if events != [] {
      hide Ok, Reachable, After, Tied, CanHappen;
      AfterOk(c, l, events[0]);
      BrokerReaches(c, l, events[0]);
      RunOk(c, After(c, l, events[0]), events[1..]);
    }
  }

  lemma BrokerReaches(c: Config, l: Link, e: Event)
    requires Tied(l) && CanHappen(l, e) && Reachable(c, l.b)
    ensures Reachable(c, After(c, l, e).b)
  {
    AfterBroker(c, l, e);
    BrokerStepEnabled(l, e);
    hide Reachable, After, Apply, Enabled, CanHappen;
    if BrokerStep(l, e).Some? {
      Reaches(c, l.b, BrokerStep(l, e).value);
    }
  }

  lemma AfterBroker(c: Config, l: Link, e: Event)
    requires Tied(l) && CanHappen(l, e)
    ensures After(c, l, e).b == Broker(c, l, e)
  {
    hide Broker, Linked, Holds;
  }

  lemma ReachableOk(c: Config, l: Link)
    requires Arises(c, l)
    ensures Ok(c, l) && Reachable(c, l.b)
  {
    hide Ok, Reachable;
    var events :| Runs(c, BEGIN, events) && Final(c, BEGIN, events) == l;
    BeginOk(c);
    InitReachable(c);
    RunOk(c, BEGIN, events);
  }

  // ---- Results -----------------------------------------------------------------------------

  /** Whatever a client sends, and however pumps, evictions and other steps interleave, the broker is in a
      state that its own steps reach, and no delivery id reaches it twice. */
  lemma SettledAtMostOnce(c: Config, l: Link, i: nat, j: nat)
    requires Arises(c, l) && i < j < |l.settled|
    ensures l.settled[i] != l.settled[j] && Reachable(c, l.b)
  {
    ReachableOk(c, l);
    hide Reachable, Arises, Inv, Tied;
  }

  lemma NackState(c: Config, l: Link, id: nat)
    requires Tied(l) && Known(l, id)
    ensures
      var d := l.inflight[id];
      && Holds(l.b, d) && d.id == id && d.root == l.b.chains[d.root].cur.root
      && After(c, l, OnNack(id)).b == Nack(c, l.b, d.root)
  {
    hide Linked, Nack, After, Tied;
    NackKnown(c, l, id);
    InFlightHolds(l, id);
  }

  /** A nack that finds a live registration finds its delivery in the broker's in-flight map, moves it to
      limbo and leaves the backlog as it is. */
  lemma NackKeepsBacklog(c: Config, l: Link, id: nat)
    requires Arises(c, l) && Known(l, id) && l.inflight[id].subscription in l.b.regs
    ensures Tied(l) && id in l.b.inflight && l.b.inflight[id] == l.inflight[id]
    ensures
      var s', d := After(c, l, OnNack(id)).b, l.inflight[id];
      && Backlog(s') == Backlog(l.b) && id !in s'.inflight
      && d.root in Limbo(s', d.subscription) && d.root !in Limbo(l.b, d.subscription)
  {
    ReachableOk(c, l);
    hide Reachable, Arises, Honest, GateOk, SettledOk, Books, Tied, After, Nack, Limbo, Backlog;
    NackState(c, l, id);
    NackKeeps(c, l.b, l.inflight[id]);
  }

  lemma LimboMember(s: State, root: nat)
    requires root in s.chains
    ensures root in Limbo(s, Sub(s, root)) <==> InLimbo(s.chains[root].place)
  {
  }

  lemma HeldRoot(s: State, d: Delivery)
    requires Books(s, {}) && Holds(s, d)
    ensures s.chains[d.root].cur.root == d.root
  {
  }

  lemma NackKeeps(c: Config, s: State, d: Delivery)
    requires Books(s, {}) && Holds(s, d) && d.subscription in s.regs
    ensures d.id in s.inflight && s.inflight[d.id] == d
    ensures
      var s' := Nack(c, s, d.root);
      && Backlog(s') == Backlog(s) && d.id !in s'.inflight
      && d.root in Limbo(s', d.subscription) && d.root !in Limbo(s, d.subscription)
  {
    hide Books, Nack, Backlog, Limbo;
    HeldIsInFlight(s, d);
    HeldRoot(s, d);
    RefuseShift(c, s, d.root);
    NackLimbo(c, s, d.root);
    LimboMember(s, d.root);
    LimboMember(Nack(c, s, d.root), d.root);
  }

  lemma HeldIsInFlight(s: State, d: Delivery)
    requires Books(s, {}) && Holds(s, d) && d.subscription in s.regs
    ensures d.id in s.inflight && s.inflight[d.id] == d
  {
  }

  lemma NackLimbo(c: Config, s: State, root: nat)
    requires root in s.chains && s.chains[root].cur.root == root && s.chains[root].cur.subscription in s.regs
    ensures
      var s' := Nack(c, s, root);
      root in s'.chains && InLimbo(s'.chains[root].place) && s'.chains[root].cur == s.chains[root].cur
      && s'.inflight == s.inflight - {s.chains[root].cur.id}
  {
    hide Value, Exhausted;
  }

  lemma AckState(c: Config, l: Link, id: nat)
    requires Tied(l) && Known(l, id)
    ensures
      var d := l.inflight[id];
      && Holds(l.b, d) && d.id == id
      && After(c, l, OnAck(id)).b == Ack(c, l.b, d.root) && After(c, l, OnAck(id)).settled == l.settled + [id]
  {
    hide Linked, Ack, After, Tied;
    AckKnown(c, l, id);
    InFlightHolds(l, id);
  }

  /** An ack of a delivery that the connection has in flight for one of its streams settles it for good. */
  lemma AckSettles(c: Config, l: Link, id: nat)
    requires Arises(c, l) && Known(l, id)
    ensures Tied(l) && l.inflight[id].root in l.b.chains
    ensures
      var l', root := After(c, l, OnAck(id)), l.inflight[id].root;
      && l'.b.chains == l.b.chains[root := l.b.chains[root].(place := Acked)] && id !in l'.b.inflight
      && l'.settled == l.settled + [id]
  {
    ReachableOk(c, l);
    hide Reachable, Arises, Inv, SettledOk, Tied, After, Ack;
    AckState(c, l, id);
    AckMoves(c, l.b, l.inflight[id].root);
    AckFlights(c, l.b, l.inflight[id].root);
  }

  lemma AckFlights(c: Config, s: State, root: nat)
    requires root in s.chains
    ensures Ack(c, s, root).inflight == s.inflight - {s.chains[root].cur.id}
  {
    RefreshSame(c, Settled(s, root, Acked));
    hide Refresh;
  }

  /** An answer to an id that is unknown, answered already or of a stream that the connection no longer
      has does not reach the broker. */
  lemma StaleAnswersAreIgnored(c: Config, l: Link, id: nat)
    requires Arises(c, l) && !Known(l, id)
    ensures Tied(l) && After(c, l, OnAck(id)).b == l.b && After(c, l, OnNack(id)).b == l.b
    ensures After(c, l, OnAck(id)).settled == l.settled && After(c, l, OnNack(id)).settled == l.settled
  {
    ReachableOk(c, l);
    AckKnown(c, l, id);
    NackKnown(c, l, id);
    hide Reachable, Arises, Inv, SettledOk, Tied, After;
  }

  /** After its answer an id is stale. */
  lemma AnsweredIsStale(c: Config, l: Link, id: nat)
    requires Arises(c, l)
    ensures Tied(l) && !Known(After(c, l, OnAck(id)), id) && !Known(After(c, l, OnNack(id)), id)
  {
    ReachableOk(c, l);
    AckKnown(c, l, id);
    NackKnown(c, l, id);
    hide Reachable, Arises, Inv, SettledOk, Tied, After;
  }

  /** Which ids the connection knows after an event: a recorded delivery becomes known, an answered one is
      known no longer, nor is any of a stream that has ended or was unsubscribed. */
  lemma KnownExactly(c: Config, l: Link, e: Event, id: nat)
    requires Tied(l) && CanHappen(l, e)
    ensures Known(After(c, l, e), id) <==>
      match e
      case Record(sub) => Known(l, id) || id == l.hand[sub].id
      case OnAck(i) => Known(l, id) && id != i
      case OnNack(i) => Known(l, id) && id != i
      case SubClosed(sub) => Known(l, id) && l.inflight[id].subscription != sub
      case OnUnsubscribe(sub) => Known(l, id) && l.inflight[id].subscription != sub
      case _ => Known(l, id)
  {
    hide Linked, Broker, Holds;
  }

  /** Which streams the connection has after an event. */
  lemma StreamsExactly(c: Config, l: Link, e: Event)
    requires Tied(l) && CanHappen(l, e)
    ensures After(c, l, e).subs ==
      match e
      case Subscribed(sub) => l.subs + {sub}
      case SubClosed(sub) => l.subs - {sub}
      case OnUnsubscribe(sub) => l.subs - {sub}
      case _ => l.subs
  {
    hide Linked, Broker, Holds;
  }

  /** The pump takes the head of its stream's queue, keeps it in hand, and then records just that. */
  lemma PumpMoves(c: Config, l: Link, sub: nat)
    requires Tied(l)
    ensures CanHappen(l, Pull(sub)) ==>
      var l' := After(c, l, Pull(sub));
      && l'.hand == l.hand[sub := l.b.queues[sub][0]] && l'.inflight == l.inflight
      && l'.b.queues == l.b.queues[sub := l.b.queues[sub][1..]]
    ensures CanHappen(l, Record(sub)) ==>
      var l', d := After(c, l, Record(sub)), l.hand[sub];
      l'.hand == l.hand - {sub} && l'.inflight == l.inflight[d.id := d] && l'.b == l.b
  {
    hide Holds;
  }

  /** Unsubscribing a stream of the connection takes the registration and every in-flight entry of it out of
      the broker, once. */
  lemma UnsubscribeLeaves(c: Config, l: Link, sub: nat)
    requires Tied(l)
    ensures
      var l' := After(c, l, OnUnsubscribe(sub));
      && sub !in l'.subs && sub !in l'.hand
      && (sub in l.subs ==>
            && sub !in l'.b.regs && l'.b.regs.Keys == l.b.regs.Keys - {sub}
            && forall i <- l'.b.inflight :: l'.b.inflight[i].subscription != sub)
      && (sub !in l.subs ==> l' == l)
  {
    if sub in l.subs {
      LeaveEnabled(l, sub);
    }
    RefreshSame(c, Dropped(l.b, sub));
    hide Linked, Holds, Refresh, Value;
  }
}
