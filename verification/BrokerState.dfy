/** The broker's bookkeeping, `pubsub/server/broker.py` with `pubsub/server/retry.py`: what each stretch of
    code between two suspension points does to the fields, and where each delivery really is. */
module BrokerState {
  import opened Common
  import opened Counting
  import opened Types
  import opened Retry
  import opened Sorting
  import opened Router
  import Topic

  const QUEUE_BOUND: nat := 128

  /** `limit` is `max_inflight_per_subscriber`; `None` disables admission control. With a budget of at
      least 3 attempts `schedule` never suspends for a first attempt. */
  datatype Config = Config(limit: Option<int>, policy: Policy)

  predicate Sane(c: Config) {
    c.policy.maxAttempts >= 3
  }

  /** Where a chain of deliveries is. In limbo it sleeps in `_delayed` or waits in `_to_dlq`. */
  datatype Place = Staged | Queued | Held | Sleeping | DeadLettering | Acked | Dead | Gone

  predicate Flying(p: Place) { p.Queued? || p.Held? }

  predicate InLimbo(p: Place) { p.Sleeping? || p.DeadLettering? }

  /** All deliveries of one chain so far, `cur` the last of them. */
  datatype Chain = Chain(cur: Delivery, place: Place, trail: seq<Delivery>)

  /** The first six fields and `producers` are the broker's own; `chains` is the truth they are kept to
      mirror: coroutine frames, queues and consumers. A producer is parked on the gate, woken by it, or
      past it with a message that is not fanned out yet. `owner` tells for which chain an id was drawn. */
  datatype State = State(
    regs: map<nat, Registration>,
    queues: map<nat, seq<Delivery>>,
    inflight: map<nat, Delivery>,
    pending: map<nat, nat>,
    pendingTotal: int,
    admit: bool,
    parked: map<nat, Message>, woken: map<nat, Message>, passed: map<nat, Message>,
    nextId: nat,
    owner: map<nat, nat>,
    chains: map<nat, Chain>,
    dlq: seq<DlqEntry>, deadRoots: seq<nat>)

  const INIT: State :=
    State(map[], map[], map[], map[], 0, true, map[], map[], map[], 0, map[], map[], [], [])

  // ---- The gate ----------------------------------------------------------------------------

  function Backlog(s: State): int {
    |s.inflight| + s.pendingTotal
  }

  function Watermark(limit: int, s: State): int {
    limit * (if |s.regs| > 1 then |s.regs| else 1)
  }

  predicate GateOpen(c: Config, s: State) {
    c.limit == None || Backlog(s) < Watermark(c.limit.value, s)
  }

  /** `_refresh_admission`; setting the event wakes every parked producer. */
  function Refresh(c: Config, s: State): State {
    if GateOpen(c, s) then s.(admit := true, woken := s.woken + s.parked, parked := map[]) else s
  }

  /** One evaluation of the loop guard of `_gate` by producer `p`. */
  function Gate(c: Config, s: State, p: nat, m: Message): State {
    if GateOpen(c, s) then s.(woken := s.woken - {p}, passed := s.passed[p := m])
    else s.(woken := s.woken - {p}, admit := false, parked := s.parked[p := m])
  }

  // ---- Bookkeeping -------------------------------------------------------------------------

  function EnterRetry(s: State, sub: nat): State {
    s.(pending := s.pending[sub := Value(s.pending, sub) + 1],
       pendingTotal := s.pendingTotal + 1)
  }

  function LeaveRetry(s: State, sub: nat): State {
    if Value(s.pending, sub) == 0 then s
    else s.(pending := Fewer(s.pending, sub), pendingTotal := s.pendingTotal - 1)
  }

  function RecordInflight(s: State, d: Delivery): State {
    s.(inflight := s.inflight[d.id := d])
  }

  function Moved(s: State, root: nat, place: Place): State
    requires root in s.chains
  {
    s.(chains := s.chains[root := s.chains[root].(place := place)])
  }

  /** `schedule`: sleep before the next attempt, or go to the dead letters. */
  function Schedule(c: Config, s: State, d: Delivery): (s': State)
    requires d.root in s.chains
    ensures s'.regs == s.regs && s'.queues == s.queues && s'.chains.Keys == s.chains.Keys
  {
    Moved(s, d.root, if Exhausted(c.policy, d.attempt + 1) then DeadLettering else Sleeping)
  }

  function PutQueue(s: State, d: Delivery): (s': State)
    requires d.root in s.chains && d.subscription in s.queues
    ensures s'.regs == s.regs && s'.queues.Keys == s.queues.Keys && s'.chains.Keys == s.chains.Keys
  {
    Moved(s, d.root, Queued).(queues := s.queues[d.subscription := s.queues[d.subscription] + [d]])
  }

  predicate HasRoom(s: State, sub: nat)
    requires sub in s.queues
  {
    |s.queues[sub]| < QUEUE_BOUND
  }

  function Enqueue(c: Config, s: State, d: Delivery): (s': State)
    requires d.root in s.chains && d.subscription in s.queues
    ensures s'.regs == s.regs && s'.queues.Keys == s.queues.Keys && s'.chains.Keys == s.chains.Keys
  {
    if HasRoom(s, d.subscription) then RecordInflight(PutQueue(s, d), d)
    else Schedule(c, EnterRetry(s, d.subscription), d)
  }

  function NewDelivery(s: State, sub: nat, m: Message): Delivery {
    Delivery(s.nextId, sub, m, 1, s.nextId)
  }

  /** A new chain that is neither buffered nor queued yet. */
  function NewChain(s: State, d: Delivery): State {
    s.(nextId := s.nextId + 1, owner := s.owner[d.id := d.root], chains := s.chains[d.root := Chain(d, Staged, [d])])
  }

  function SetBuffer(s: State, sub: nat, buffer: seq<Delivery>): State
    requires sub in s.regs
  {
    s.(regs := s.regs[sub := s.regs[sub].(buffer := buffer)])
  }

  // ---- Steps -------------------------------------------------------------------------------

  /** `_deliver` of a first attempt. */
  function Deliver(c: Config, s: State, sub: nat, m: Message): (s': State)
    requires sub in s.regs && sub in s.queues
    ensures s'.regs.Keys == s.regs.Keys && s'.queues.Keys == s.queues.Keys
  {
    var d := NewDelivery(s, sub, m);
    if s.regs[sub].replaying then SetBuffer(NewChain(s, d), sub, s.regs[sub].buffer + [d]) else Offer(c, s, sub, m)
  }

  function DeliverAll(c: Config, s: State, targets: seq<nat>, m: Message): State
    requires forall sub <- targets :: sub in s.regs && sub in s.queues
    decreases |targets|
  {
    if targets == [] then s
    else
      assert targets[0] in targets;
      DeliverAll(c, Deliver(c, s, targets[0], m), targets[1..], m)
  }

  /** A first attempt that is enqueued whatever the registration says. */
  function Offer(c: Config, s: State, sub: nat, m: Message): (s': State)
    requires sub in s.queues
    ensures s'.regs == s.regs && s'.queues.Keys == s.queues.Keys && s.chains.Keys <= s'.chains.Keys
  {
    var d := NewDelivery(s, sub, m);
    Enqueue(c, NewChain(s, d), d)
  }

  /** Enqueueing the matching history, oldest first. */
  function OfferHistory(c: Config, s: State, sub: nat, history: seq<Message>): (s': State)
    requires sub in s.queues
    ensures s'.regs == s.regs && s'.queues.Keys == s.queues.Keys && s.chains.Keys <= s'.chains.Keys
    decreases |history|
  {
    if history == [] then s else OfferHistory(c, Offer(c, s, sub, history[0]), sub, history[1..])
  }

  function BufferKey(d: Delivery): real { d.message.createdAt }

  predicate BufferKnown(s: State, sub: nat) {
    && sub in s.regs && sub in s.queues
    && forall d <- s.regs[sub].buffer :: d.root in s.chains && d.subscription == sub
  }

  /** Enqueueing existing deliveries in order. */
  function OfferAll(c: Config, s: State, ds: seq<Delivery>): (s': State)
    requires forall d <- ds :: d.root in s.chains && d.subscription in s.queues
    ensures s'.regs == s.regs && s'.queues.Keys == s.queues.Keys && s'.chains.Keys == s.chains.Keys
    decreases |ds|
  {
    if ds == [] then s
    else
      assert ds[0] in ds;
      OfferAll(c, Enqueue(c, s, ds[0]), ds[1..])
  }

  function Matching(tokens: seq<string>, history: seq<Message>): seq<Message> {
    if history == [] then []
    else if Topic.Denotes(tokens, Topic.Split(history[0].topic)) then [history[0]] + Matching(tokens, history[1..])
    else Matching(tokens, history[1..])
  }

  lemma SortMembers(ds: seq<Delivery>)
    ensures forall d :: d in Sort(ds, BufferKey) <==> d in ds
  {
    SortIsStable(ds, BufferKey);
    assert forall d :: d in Sort(ds, BufferKey) <==> d in multiset(Sort(ds, BufferKey));
    assert forall d :: d in ds <==> d in multiset(ds);
  }

  /** The registration leaves replay mode with nothing staged. */
  function GoLive(s: State, sub: nat): State
    requires sub in s.regs
  {
    s.(regs := s.regs[sub := s.regs[sub].(replaying := false, buffer := [])])
  }

  /** The part of `_replay` after the history was read, which never suspends. */
  function Flush(c: Config, s: State, sub: nat, history: seq<Message>): State
    requires BufferKnown(s, sub)
  {
    SortMembers(s.regs[sub].buffer);
    var past := OfferHistory(c, GoLive(s, sub), sub, Matching(s.regs[sub].tokens, history));
    OfferAll(c, past, Sort(s.regs[sub].buffer, BufferKey))
  }

  function Subscribe(c: Config, s: State, sub: nat, tokens: seq<string>, replay: bool): State {
    Refresh(c, s.(regs := s.regs[sub := Registration(tokens, replay, [])], queues := s.queues[sub := []]))
  }

  /** Dropping a registration with its flights and its share of limbo. */
  function Dropped(s: State, sub: nat): State {
    s.(regs := s.regs - {sub},
       inflight := map i | i in s.inflight && s.inflight[i].subscription != sub :: s.inflight[i],
       pendingTotal := s.pendingTotal - Value(s.pending, sub),
       pending := s.pending - {sub})
  }

  /** `_disconnect` and `_unsubscribe`, which differ only in the stream. */
  function Remove(c: Config, s: State, sub: nat): State {
    Refresh(c, Dropped(s, sub))
  }

  function Take(s: State, sub: nat): State
    requires sub in s.queues && s.queues[sub] != [] && s.queues[sub][0].root in s.chains
  {
    Moved(s, s.queues[sub][0].root, Held).(queues := s.queues[sub := s.queues[sub][1..]])
  }

  function Ack(c: Config, s: State, root: nat): State
    requires root in s.chains
  {
    Refresh(c, Moved(s, root, Acked).(inflight := s.inflight - {s.chains[root].cur.id}))
  }

  function Nack(c: Config, s: State, root: nat): State
    requires root in s.chains && s.chains[root].cur.root == root
  {
    var d := s.chains[root].cur;
    var s' := s.(inflight := s.inflight - {d.id});
    if d.subscription !in s.regs then Refresh(c, Moved(s', root, Gone))
    else Schedule(c, EnterRetry(s', d.subscription), d)
  }

  /** The sleeping chain with the delivery that `_delayed` makes next. */
  function Renewed(s: State, root: nat): State
    requires root in s.chains
  {
    var d := Redelivered(s.chains[root].cur, s.nextId);
    s.(nextId := s.nextId + 1, owner := s.owner[d.id := root],
       chains := s.chains[root := Chain(d, Sleeping, s.chains[root].trail + [d])])
  }

  function Requeue(s: State, d: Delivery): State
    requires d.root in s.chains && d.subscription in s.queues
  {
    RecordInflight(LeaveRetry(PutQueue(s, d), d.subscription), d)
  }

  /** `_delayed` after its sleep. */
  function Wake(c: Config, s: State, root: nat): State
    requires root in s.chains && s.chains[root].cur.root == root && s.chains[root].cur.subscription in s.queues
  {
    var d := Redelivered(s.chains[root].cur, s.nextId);
    if HasRoom(s, d.subscription) then Requeue(Renewed(s, root), d) else Schedule(c, Renewed(s, root), d)
  }

  function Buried(s: State, root: nat): State
    requires root in s.chains
  {
    Moved(s, root, Dead).(dlq := s.dlq + [DeadLetter(s.chains[root].cur)], deadRoots := s.deadRoots + [root])
  }

  /** `_to_dlq` returns and `_on_exhausted` disconnects the subscriber. */
  function BuryAndEvict(c: Config, s: State, root: nat): State
    requires root in s.chains
  {
    Refresh(c, Buried(Dropped(s, s.chains[root].cur.subscription), root))
  }

  /** Messages, producers and subscriptions are numbered; the settling steps name the root of the chain
      whose current delivery is settled. */
  datatype Step =
    | Arrive(p: nat, message: Message)
    | Reconsider(p: nat)
    | Fanout(p: nat, targets: seq<nat>)
    | Join(sub: nat, tokens: seq<string>, replay: bool)
    | FlushReplay(sub: nat, history: seq<Message>)
    | FailReplay(sub: nat)
    | Consume(sub: nat)
    | Acknowledge(root: nat)
    | Refuse(root: nat)
    | WakeUp(root: nat)
    | Bury(root: nat)
    | Leave(sub: nat)

  /** Exactly the registrations whose pattern denotes the topic, once each. */
  ghost predicate Targets(s: State, m: Message, targets: seq<nat>) {
    && (forall i, j | 0 <= i < j < |targets| :: targets[i] != targets[j])
    && (forall sub :: sub in targets <==>
          sub in s.regs && Topic.Denotes(s.regs[sub].tokens, Topic.Split(m.topic)))
  }

  ghost predicate Enabled(s: State, step: Step) {
    match step
    case Arrive(p, _) => p !in s.parked && p !in s.woken && p !in s.passed
    case Reconsider(p) => p in s.woken
    case Fanout(p, targets) => p in s.passed && Targets(s, s.passed[p], targets)
    case Join(sub, _, _) => sub !in s.queues
    case FlushReplay(sub, _) => sub in s.regs && s.regs[sub].replaying
    case FailReplay(sub) => sub in s.regs && s.regs[sub].replaying
    case Consume(sub) => sub in s.queues && s.queues[sub] != []
    // A consumer settles each delivery it took at most once.
    case Acknowledge(root) => root in s.chains && s.chains[root].place.Held?
    case Refuse(root) => root in s.chains && s.chains[root].place.Held?
    case WakeUp(root) => root in s.chains && s.chains[root].place.Sleeping?
    case Bury(root) => root in s.chains && s.chains[root].place.DeadLettering?
    // `subscribe` returns the stream only after the replay, so nobody can unsubscribe before.
    case Leave(sub) => sub in s.regs ==> !s.regs[sub].replaying
  }

  /** References held by queues, buffers and chains resolve. */
  ghost predicate Linked(s: State) {
    && s.regs.Keys <= s.queues.Keys
    && (forall sub <- s.regs :: BufferKnown(s, sub))
    && (forall sub <- s.queues :: forall d <- s.queues[sub] :: d.root in s.chains)
    && (forall root <- s.chains ::
          s.chains[root].cur.root == root && s.chains[root].cur.subscription in s.queues)
  }

  ghost function Apply(c: Config, s: State, step: Step): State
    requires Linked(s) && Enabled(s, step)
  {
    match step
    case Arrive(p, m) => Gate(c, s, p, m)
    case Reconsider(p) => Gate(c, s, p, s.woken[p])
    case Fanout(p, targets) => DeliverAll(c, s, targets, s.passed[p]).(passed := s.passed - {p})
    case Join(sub, tokens, replay) => Subscribe(c, s, sub, tokens, replay)
    case FlushReplay(sub, history) => Flush(c, s, sub, history)
    case FailReplay(sub) => s.(regs := s.regs - {sub})
    case Consume(sub) =>
      assert s.queues[sub][0] in s.queues[sub];
      Take(s, sub)
    case Acknowledge(root) => Ack(c, s, root)
    case Refuse(root) => Nack(c, s, root)
    case WakeUp(root) => Wake(c, s, root)
    case Bury(root) => BuryAndEvict(c, s, root)
    case Leave(sub) => Remove(c, s, sub)
  }
}
