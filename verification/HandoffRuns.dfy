/** No message is lost between replay and live delivery, in any execution, and which ones come twice. */
module HandoffRuns {
  import opened Common
  import opened Types
  import opened Sorting
  import opened BrokerState
  import opened BrokerInvariant
  import opened BrokerHistory
  import opened BrokerGate
  import opened BrokerRuns
  import opened BrokerWaiters
  import opened BrokerCopies
  import opened BrokerLifecycle
  import opened Retry
  import opened Handoff
  import Topic
  import R = Router
  import D = Durability

  /** The worlds that the handoff goes through, and the events between them. */
  datatype Execution = Execution(worlds: seq<World>, events: seq<Event>)

  /** `Linked` never stops an execution, since every reachable world has it. */
  ghost predicate Turns(c: Config, t: Execution, i: nat)
    requires i < |t.events| < |t.worlds|
  {
    && Linked(t.worlds[i].b) && CanHappen(t.worlds[i], t.events[i])
    && t.worlds[i + 1] == After(c, t.worlds[i], t.events[i])
  }

  ghost predicate IsExecution(c: Config, t: Execution) {
    && |t.worlds| == |t.events| + 1 && t.worlds[0] == BEGIN
    && forall i | 0 <= i < |t.events| :: Turns(c, t, i)
  }

  function End(t: Execution): World
    requires t.worlds != []
  {
    t.worlds[|t.worlds| - 1]
  }

  ghost predicate Possible(c: Config, w: World) {
    exists t :: IsExecution(c, t) && End(t) == w
  }

  lemma BeginOk(c: Config)
    ensures WorldOk(c, BEGIN)
  {
    InitInv(c);
    hide Inv;
    assert BEGIN.mem.history == [];
  }

  lemma {:induction false} ExecutionOk(c: Config, t: Execution, i: nat)
    requires IsExecution(c, t) && i < |t.worlds|
    ensures WorldOk(c, t.worlds[i])
  {
    hide WorldOk, After, CanHappen, Linked;
    if i == 0 {
      BeginOk(c);
    } else {
      ExecutionOk(c, t, i - 1);
      assert Turns(c, t, i - 1);
      AfterWorld(c, t.worlds[i - 1], t.events[i - 1]);
    }
  }

  lemma PossibleOk(c: Config, w: World)
    requires Possible(c, w)
    ensures WorldOk(c, w)
  {
    hide WorldOk, Turns;
    var t :| IsExecution(c, t) && End(t) == w;
    ExecutionOk(c, t, |t.events|);
  }

  /** A subscription whose replay from `w.from` is over and that is still registered. */
  ghost predicate Replayed(w: World, sub: nat) {
    sub in w.from && sub in w.b.regs && !w.b.regs[sub].replaying
  }

  lemma ReplayedKnown(c: Config, w: World, sub: nat)
    requires WorldOk(c, w) && Replayed(w, sub)
    ensures sub in w.early && sub in w.seen && w.early[sub] <= w.seen[sub] <= w.appended && w.fanned <= w.appended
    ensures Counted(w, sub)
  {
    assert SubOk(w, sub);
  }

  /** No gap. A retained message from the replay's start on that the pattern denotes and whose publish
      has returned has one or two chains of deliveries to the subscription; two exactly when its append
      came before the history was read and its fanout after the registration. */
  lemma NoGap(c: Config, w: World, sub: nat, m: Message)
    requires Possible(c, w) && Replayed(w, sub)
    requires m in w.fanned && m in w.mem.history && m.createdAt >= w.from[sub] && Matches(w, sub, m)
    ensures sub in w.early && sub in w.seen
    ensures 1 <= |Copies(w.b, sub, m)| <= 2
    ensures |Copies(w.b, sub, m)| == 2 <==> m in w.seen[sub] && m !in w.early[sub]
  {
    PossibleOk(c, w);
    hide Possible, Matches, Copies;
    ReplayedKnown(c, w, sub);
    hide WorldOk;
    assert |Copies(w.b, sub, m)| == Expected(w, sub, m);
  }

  /** Nothing else reaches the subscription: a message that is not denoted never does, and one that was
      not retained, is too old or is not fanned out yet does so at most once. */
  lemma NothingElse(c: Config, w: World, sub: nat, m: Message)
    requires Possible(c, w) && Replayed(w, sub)
    ensures !Matches(w, sub, m) ==> Copies(w.b, sub, m) == {}
    ensures m !in w.mem.history || m.createdAt < w.from[sub] || m !in w.fanned ==> |Copies(w.b, sub, m)| <= 1
  {
    PossibleOk(c, w);
    hide Possible, Matches, Copies;
    ReplayedKnown(c, w, sub);
    hide WorldOk;
    assert |Copies(w.b, sub, m)| == Expected(w, sub, m);
  }

  /** After the flush every copy is with the subscriber or in limbo, or was settled. */
  lemma NoCopyStaysStaged(c: Config, w: World, sub: nat, m: Message)
    requires Possible(c, w) && Replayed(w, sub)
    ensures forall root <- Copies(w.b, sub, m) :: root in w.b.chains && !w.b.chains[root].place.Staged?
  {
    PossibleOk(c, w);
    hide Possible, SlotsOk, StoreOk, SubsOk, CountsOk, Honest, GateOk;
    LiveNotStaged(w.b, sub);
  }

  lemma LiveNotStaged(s: State, sub: nat)
    requires Books(s, {}) && sub in s.regs && !s.regs[sub].replaying
    ensures forall root <- s.chains | s.chains[root].cur.subscription == sub :: !s.chains[root].place.Staged?
  {
    hide Placed, QueuesOk, PendingOk;
    assert s.regs[sub].buffer == [];
  }

  // ---- The in-memory backend ---------------------------------------------------------------

  /** The in-memory backend never suspends: an append and its fanout are one step, and so are the
      registration, the read and the flush of a replay. */
  ghost predicate Uninterrupted(t: Execution, i: nat)
    requires i < |t.events|
  {
    match t.events[i]
    case Store(p) => i + 1 < |t.events| && Fans(t.events[i + 1], p)
    case Start(sub, _, _) => i + 2 < |t.events| && t.events[i + 1] == Read(sub) && Flushes(t.events[i + 2], sub)
    case Read(sub) => i > 0 && Starts(t.events[i - 1], sub)
    case Other(Fanout(p, _)) => i > 0 && t.events[i - 1] == Store(p)
    case Other(FlushReplay(sub, _)) => i > 0 && t.events[i - 1] == Read(sub)
    case _ => true
  }

  predicate Fans(e: Event, p: nat) {
    e.Other? && e.step.Fanout? && e.step.p == p
  }

  predicate Flushes(e: Event, sub: nat) {
    e.Other? && e.step.FlushReplay? && e.step.sub == sub
  }

  predicate Starts(e: Event, sub: nat) {
    e.Start? && e.sub == sub
  }

  ghost predicate InMemoryExecution(c: Config, t: Execution) {
    IsExecution(c, t) && forall i | 0 <= i < |t.events| :: Uninterrupted(t, i)
  }

  /** Nothing is half published and nobody is half subscribed. */
  ghost predicate Quiescent(w: World) {
    && w.appended == w.fanned
    && (forall sub <- w.from | sub in w.b.regs ::
          !w.b.regs[sub].replaying && sub in w.seen && sub in w.early && w.seen[sub] == w.early[sub])
  }

  lemma QuiescentTerms(w: World, w': World)
    requires Quiescent(w) && SubsOk(w) && SameTerms(w.b, w'.b)
    requires w'.from == w.from && w'.seen == w.seen && w'.early == w.early && w'.appended == w'.fanned
    ensures Quiescent(w')
  {
    FromQueues(w);
  }

  lemma PublishQuiescent(c: Config, w: World, w1: World, w2: World, p: nat, targets: seq<nat>)
    requires SubsOk(w) && Quiescent(w)
    requires Linked(w.b) && CanHappen(w, Store(p)) && w1 == After(c, w, Store(p))
    requires CanHappen(w1, Other(Fanout(p, targets))) && w2 == After(c, w1, Other(Fanout(p, targets)))
    ensures Quiescent(w2)
  {
    StepTerms(c, w.b, Fanout(p, targets));
    hide SubsOk, Linked, Enabled, Apply, SameTerms, D.InMemory;
    QuiescentTerms(w, w2);
  }

  predicate OnItsOwn(e: Event) {
    e.Configure? || (e.Other? && !e.step.Fanout? && !e.step.FlushReplay?)
  }

  lemma PlainQuiescent(c: Config, w: World, e: Event)
    requires SubsOk(w) && Quiescent(w) && OnItsOwn(e) && Linked(w.b) && CanHappen(w, e)
    ensures Quiescent(After(c, w, e))
  {
    if e.Other? {
      StepTerms(c, w.b, e.step);
      hide SubsOk, Linked, Enabled, Apply, SameTerms;
      QuiescentTerms(w, After(c, w, e));
    }
  }

  lemma StartedRegs(c: Config, w: World, sub: nat, tokens: seq<string>, timestamp: real)
    requires Linked(w.b) && CanHappen(w, Start(sub, tokens, timestamp))
    ensures After(c, w, Start(sub, tokens, timestamp)).b.regs == w.b.regs[sub := R.Registration(tokens, true, [])]
  {
    hide Linked, Subscribe;
    JoinedRegs(c, w.b, sub, tokens);
  }

  lemma FlushedRegs(c: Config, w: World, sub: nat, history: seq<Message>)
    requires Linked(w.b) && CanHappen(w, Other(FlushReplay(sub, history)))
    ensures
      var w' := After(c, w, Other(FlushReplay(sub, history)));
      && w'.b.regs == GoLive(w.b, sub).regs
      && w'.from == w.from && w'.seen == w.seen && w'.early == w.early && w'.appended == w.appended
          && w'.fanned == w.fanned
  {
    FlushRegs(c, w.b, sub, history);
    hide Flush;
  }

  lemma ReplayQuiescent(c: Config, w: World, w1: World, w2: World, e: Event, history: seq<Message>)
    requires SubsOk(w) && Quiescent(w) && e.Start?
    requires Linked(w.b) && CanHappen(w, e) && w1 == After(c, w, e)
    requires Linked(w1.b) && CanHappen(w1, Read(e.sub)) && w2 == After(c, w1, Read(e.sub))
    requires CanHappen(w2, Other(FlushReplay(e.sub, history)))
    ensures Quiescent(After(c, w2, Other(FlushReplay(e.sub, history))))
  {
    StartedRegs(c, w, e.sub, e.tokens, e.timestamp);
    FlushedRegs(c, w2, e.sub, history);
    hide SubsOk, Linked, Enabled, Apply, D.ReadFrom;
  }

  /** No publish and no subscribe is under way before event `i`. */
  predicate Boundary(t: Execution, i: nat) {
    i == 0 || (i <= |t.events| && !t.events[i - 1].Store? && !t.events[i - 1].Start? && !t.events[i - 1].Read?)
  }

  lemma WorldLinked(c: Config, w: World)
    requires WorldOk(c, w)
    ensures Linked(w.b)
  {
    hide SlotsOk, StoreOk, SubsOk, CountsOk, Honest, GateOk;
    BooksLinked(w.b);
  }

  lemma WorldSubs(c: Config, t: Execution, i: nat)
    requires IsExecution(c, t) && i < |t.worlds|
    ensures SubsOk(t.worlds[i]) && Linked(t.worlds[i].b)
  {
    hide IsExecution, Inv, SlotsOk, StoreOk, SubsOk, CountsOk;
    ExecutionOk(c, t, i);
    WorldLinked(c, t.worlds[i]);
  }

  lemma InMemoryMeans(c: Config, t: Execution)
    requires InMemoryExecution(c, t)
    ensures IsExecution(c, t) && |t.worlds| == |t.events| + 1
  {
  }

  lemma ExecutionTurns(c: Config, t: Execution, i: nat)
    requires InMemoryExecution(c, t) && i < |t.events|
    ensures |t.worlds| == |t.events| + 1 && Turns(c, t, i) && Uninterrupted(t, i)
  {
  }

  lemma {:induction false} BoundaryQuiescent(c: Config, t: Execution, i: nat)
    requires InMemoryExecution(c, t) && i < |t.worlds| && Boundary(t, i)
    ensures Quiescent(t.worlds[i])
    decreases i
  {
    if i == 0 {
      BeginQuiescent(c, t);
    } else {
      hide Quiescent, InMemoryExecution, Turns, IsExecution;
      InMemoryMeans(c, t);
      BoundaryCases(c, t, i);
      hide OnItsOwn, Fans, Flushes, Boundary;
      if OnItsOwn(t.events[i - 1]) {
        BoundaryBefore(c, t, i - 1);
        BoundaryQuiescent(c, t, i - 1);
        PlainBoundary(c, t, i);
      } else if t.events[i - 2].Store? {
        BoundaryBefore(c, t, i - 2);
        BoundaryQuiescent(c, t, i - 2);
        PublishedBoundary(c, t, i);
      } else {
        BoundaryBefore(c, t, i - 3);
        BoundaryQuiescent(c, t, i - 3);
        FlushedBoundary(c, t, i);
      }
    }
  }

  /** What ends at a boundary. */
  lemma BoundaryCases(c: Config, t: Execution, i: nat)
    requires InMemoryExecution(c, t) && 0 < i < |t.worlds| && Boundary(t, i)
    ensures
      || OnItsOwn(t.events[i - 1])
      || (i > 1 && t.events[i - 2].Store? && Fans(t.events[i - 1], t.events[i - 2].p))
      || (&& i > 2 && t.events[i - 3].Start? && t.events[i - 2] == Read(t.events[i - 3].sub)
          && Flushes(t.events[i - 1], t.events[i - 3].sub))
  {
    assert Uninterrupted(t, i - 1);
    if t.events[i - 1].Other? && t.events[i - 1].step.FlushReplay? {
      assert Uninterrupted(t, i - 2);
    }
  }

  lemma BeginQuiescent(c: Config, t: Execution)
    requires InMemoryExecution(c, t)
    ensures t.worlds != [] && Quiescent(t.worlds[0])
  {
  }

  /** What starts on its own starts at a boundary. */
  lemma BoundaryBefore(c: Config, t: Execution, k: nat)
    requires InMemoryExecution(c, t) && k < |t.events|
    requires OnItsOwn(t.events[k]) || t.events[k].Store? || t.events[k].Start?
    ensures Boundary(t, k)
  {
    if k > 0 {
      assert Uninterrupted(t, k - 1);
      if k > 1 {
        assert Uninterrupted(t, k - 2);
      }
    }
  }

  lemma PlainBoundary(c: Config, t: Execution, i: nat)
    requires InMemoryExecution(c, t) && 0 < i < |t.worlds| && OnItsOwn(t.events[i - 1]) && Quiescent(t.worlds[i - 1])
    ensures Quiescent(t.worlds[i])
  {
    hide Quiescent, InMemoryExecution, SubsOk, Linked, CanHappen, After, IsExecution, Uninterrupted;
    InMemoryMeans(c, t);
    ExecutionTurns(c, t, i - 1);
    WorldSubs(c, t, i - 1);
    PlainQuiescent(c, t.worlds[i - 1], t.events[i - 1]);
  }

  lemma PublishedBoundary(c: Config, t: Execution, i: nat)
    requires InMemoryExecution(c, t) && 1 < i < |t.worlds| && t.events[i - 2].Store?
        && Fans(t.events[i - 1], t.events[i - 2].p)
    requires Quiescent(t.worlds[i - 2])
    ensures Quiescent(t.worlds[i])
  {
    hide Quiescent, InMemoryExecution, SubsOk, Linked, CanHappen, After, IsExecution, Uninterrupted;
    InMemoryMeans(c, t);
    ExecutionTurns(c, t, i - 2);
    ExecutionTurns(c, t, i - 1);
    WorldSubs(c, t, i - 2);
    PublishQuiescent(c, t.worlds[i - 2], t.worlds[i - 1], t.worlds[i], t.events[i - 2].p, t.events[i - 1].step.targets);
  }

  lemma FlushedBoundary(c: Config, t: Execution, i: nat)
    requires InMemoryExecution(c, t) && 2 < i < |t.worlds| && t.events[i - 3].Start?
        && t.events[i - 2] == Read(t.events[i - 3].sub)
    requires Flushes(t.events[i - 1], t.events[i - 3].sub) && Quiescent(t.worlds[i - 3])
    ensures Quiescent(t.worlds[i])
  {
    hide Quiescent, InMemoryExecution, SubsOk, Linked, CanHappen, After, IsExecution, Uninterrupted;
    InMemoryMeans(c, t);
    ExecutionTurns(c, t, i - 3);
    ExecutionTurns(c, t, i - 2);
    ExecutionTurns(c, t, i - 1);
    WorldSubs(c, t, i - 3);
    ReplayQuiescent(c, t.worlds[i - 3], t.worlds[i - 2], t.worlds[i - 1], t.events[i - 3],
        t.events[i - 1].step.history);
  }

  lemma EndBoundary(c: Config, t: Execution)
    requires InMemoryExecution(c, t)
    ensures Boundary(t, |t.events|)
  {
    var n := |t.events|;
    if n > 0 {
      assert Uninterrupted(t, n - 1);
      if n > 1 {
        assert Uninterrupted(t, n - 2);
      }
    }
  }

  /** With the in-memory backend the handoff delivers every such message exactly once. */
  lemma ExactlyOnceInMemory(c: Config, t: Execution, sub: nat, m: Message)
    requires InMemoryExecution(c, t) && Replayed(End(t), sub)
    requires m in End(t).mem.history && m.createdAt >= End(t).from[sub] && Matches(End(t), sub, m)
    ensures |Copies(End(t).b, sub, m)| == 1
  {
    hide WorldOk, Matches, Copies, Quiescent, Replayed, Turns, Uninterrupted;
    EndBoundary(c, t);
    ExecutionOk(c, t, |t.events|);
    BoundaryQuiescent(c, t, |t.events|);
    QuiescentExact(c, End(t), sub, m);
  }

  lemma QuiescentExact(c: Config, w: World, sub: nat, m: Message)
    requires WorldOk(c, w) && Quiescent(w) && Replayed(w, sub)
    requires m in w.mem.history && m.createdAt >= w.from[sub] && Matches(w, sub, m)
    ensures |Copies(w.b, sub, m)| == 1
  {
    hide WorldOk, Matches, Copies;
    ReplayedKnown(c, w, sub);
    RetainedAppended(c, w, m);
    assert |Copies(w.b, sub, m)| == Expected(w, sub, m);
  }

  lemma RetainedAppended(c: Config, w: World, m: Message)
    requires WorldOk(c, w) && m in w.mem.history
    ensures m in w.appended
  {
  }

  // ---- A duplicate -------------------------------------------------------------------------

  lemma BeginPossible(c: Config)
    ensures Possible(c, BEGIN)
  {
    assert IsExecution(c, Execution([BEGIN], []));
  }

  function Longer(t: Execution, e: Event, w: World): Execution {
    Execution(t.worlds + [w], t.events + [e])
  }

  lemma TurnsSame(c: Config, t: Execution, t': Execution, i: nat)
    requires i < |t.events| < |t.worlds| && i < |t'.events| < |t'.worlds| && Turns(c, t, i)
    requires t'.worlds[i] == t.worlds[i] && t'.worlds[i + 1] == t.worlds[i + 1] && t'.events[i] == t.events[i]
    ensures Turns(c, t', i)
  {
    hide After, CanHappen, Linked;
  }

  lemma TurnsLast(c: Config, t: Execution, e: Event)
    requires |t.worlds| == |t.events| + 1 && Linked(End(t).b) && CanHappen(End(t), e)
    ensures Turns(c, Longer(t, e, After(c, End(t), e)), |t.events|)
  {
    hide After, CanHappen, Linked;
  }

  lemma ExecutionGoesOn(c: Config, t: Execution, e: Event)
    requires IsExecution(c, t) && Linked(End(t).b) && CanHappen(End(t), e)
    ensures IsExecution(c, Longer(t, e, After(c, End(t), e)))
  {
    hide After, CanHappen, Linked, Turns;
    var t' := Longer(t, e, After(c, End(t), e));
    TurnsLast(c, t, e);
    forall i | 0 <= i < |t.events|
      ensures Turns(c, t', i)
    {
      TurnsSame(c, t, t', i);
    }
  }

  lemma Happens(c: Config, w: World, e: Event)
    requires Possible(c, w) && CanHappen(w, e)
    ensures Linked(w.b) && Possible(c, After(c, w, e))
  {
    hide WorldOk, CanHappen, After, Linked, Turns;
    PossibleOk(c, w);
    WorldLinked(c, w);
    var t :| IsExecution(c, t) && End(t) == w;
    ExecutionGoesOn(c, t, e);
    assert End(Longer(t, e, After(c, w, e))) == After(c, w, e);
  }

  const UNLIMITED: Config := Config(None, Policy(10, 1.0, 10))
  const ANY: seq<string> := [Topic.TAIL_WILDCARD]
  const NEWS: Message := Message(0, "a", 0, 0.0)

  /** `NEWS` is past the gate and retained, and nobody has subscribed. */
  ghost predicate Published(w: World) {
    && w.b.passed == map[0 := NEWS] && w.b.queues == map[] && w.b.regs == map[]
    && w.mem.history == [NEWS] && w.appended == {NEWS} && w.fanned == {} && w.got == map[]
    && w.from == map[] && w.early == map[] && w.seen == map[]
  }

  lemma ToArrived() returns (w: World)
    ensures Possible(UNLIMITED, w) && w == BEGIN.(b := w.b, mem := D.InMemory(BEGIN.mem, D.Register("a", true)),
        arrived := {NEWS})
    ensures w.b.passed == map[0 := NEWS] && w.b.queues == map[] && w.b.regs == map[]
  {
    BeginPossible(UNLIMITED);
    hide Possible;
    Happens(UNLIMITED, BEGIN, Configure("a", true));
    var w1 := After(UNLIMITED, BEGIN, Configure("a", true));
    Happens(UNLIMITED, w1, Other(Arrive(0, NEWS)));
    w := After(UNLIMITED, w1, Other(Arrive(0, NEWS)));
  }

  lemma ToPublished() returns (w: World)
    ensures Possible(UNLIMITED, w) && Published(w)
  {
    hide Possible;
    var w0 := ToArrived();
    Happens(UNLIMITED, w0, Store(0));
    w := After(UNLIMITED, w0, Store(0));
    assert w.mem.history == [NEWS];
  }

  /** Subscriber 0 has registered before the fanout of `NEWS` and has read it from the history. */
  ghost predicate BothWays(w: World) {
    && w.b.passed == map[0 := NEWS] && w.appended == {NEWS} && w.mem.history == [NEWS]
    && w.b.regs.Keys == {0} && w.b.regs[0].tokens == ANY
    && w.from == map[0 := 0.0] && w.early == map[0 := {}] && w.seen == map[0 := {NEWS}]
  }

  lemma ToRead(w: World) returns (w': World)
    requires Possible(UNLIMITED, w) && Published(w)
    ensures Possible(UNLIMITED, w') && BothWays(w') && w'.b.regs[0].replaying && w'.got == map[0 := [NEWS]]
  {
    hide Possible;
    Happens(UNLIMITED, w, Start(0, ANY, 0.0));
    var w1 := After(UNLIMITED, w, Start(0, ANY, 0.0));
    StartedRegs(UNLIMITED, w, 0, ANY, 0.0);
    StepWakes(UNLIMITED, w.b, Join(0, ANY, true)) by {
      PossibleOk(UNLIMITED, w);
    }
    assert w1.b.regs == map[0 := R.Registration(ANY, true, [])];
    hide Subscribe;
    Happens(UNLIMITED, w1, Read(0));
    w' := After(UNLIMITED, w1, Read(0));
    OnlyNews(w1.mem);
  }

  lemma OnlyNews(mem: D.Memory)
    requires mem.history == [NEWS]
    ensures D.ReadFrom(mem, 0.0) == [NEWS]
  {
    assert [NEWS][1..] == [];
    assert D.Since([NEWS], 0.0) == [NEWS];
    assert Sort([NEWS], CreatedAt) == Insert(NEWS, Sort([NEWS][1..], CreatedAt), CreatedAt);
    assert Sort([NEWS], CreatedAt) == [NEWS];
  }

  lemma ToFlushed(w: World) returns (w': World)
    requires Possible(UNLIMITED, w) && BothWays(w) && w.b.regs[0].replaying && w.got == map[0 := [NEWS]]
    ensures Possible(UNLIMITED, w') && BothWays(w') && !w'.b.regs[0].replaying
  {
    hide Possible;
    Happens(UNLIMITED, w, Other(FlushReplay(0, [NEWS])));
    w' := After(UNLIMITED, w, Other(FlushReplay(0, [NEWS])));
    FlushRegs(UNLIMITED, w.b, 0, [NEWS]);
    FlushShift(UNLIMITED, w.b, 0, [NEWS]);
    hide Flush;
  }

  lemma ToDuplicate(w: World) returns (w': World)
    requires Possible(UNLIMITED, w) && BothWays(w) && !w.b.regs[0].replaying
    ensures Possible(UNLIMITED, w') && Replayed(w', 0) && Matches(w', 0, NEWS) && NEWS in w'.fanned
    ensures w'.mem.history == [NEWS] && w'.from == w.from && w'.seen == w.seen && w'.early == w.early
  {
    assert Topic.Denotes(ANY, Topic.Split("a"));
    hide Possible, Topic.Denotes;
    assert Targets(w.b, NEWS, [0]);
    hide Targets;
    Happens(UNLIMITED, w, Other(Fanout(0, [0])));
    w' := After(UNLIMITED, w, Other(Fanout(0, [0])));
    FanoutKeeps(w.b, [0]);
    hide Apply;
  }

  lemma FanoutKeeps(s: State, targets: seq<nat>)
    requires Linked(s) && Enabled(s, Fanout(0, targets)) && 0 in s.regs
    ensures
      var s' := Apply(UNLIMITED, s, Fanout(0, targets));
      0 in s'.regs && s'.regs[0].tokens == s.regs[0].tokens && s'.regs[0].replaying == s.regs[0].replaying
  {
    DeliverAllShift(UNLIMITED, s, targets, s.passed[0]);
    StepTerms(UNLIMITED, s, Fanout(0, targets));
    hide DeliverAll;
  }

  ghost predicate Duplicated(w: World, sub: nat, m: Message) {
    Possible(UNLIMITED, w) && Replayed(w, sub) && |Copies(w.b, sub, m)| == 2
  }

  /** When append and fanout are not one step, a message can reach a subscriber twice. */
  lemma DuplicatesHappen()
    ensures exists w :: Duplicated(w, 0, NEWS)
  {
    hide Possible, Copies, Matches;
    var w0 := ToPublished();
    var w1 := ToRead(w0);
    var w2 := ToFlushed(w1);
    var w3 := ToDuplicate(w2);
    NoGap(UNLIMITED, w3, 0, NEWS);
    assert Duplicated(w3, 0, NEWS);
  }
}
