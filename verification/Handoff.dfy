/** The handoff from replay to live delivery: publishes append and then fan out, a replaying subscriber
    registers, reads the history and is flushed, and all these steps interleave with each other and with
    everything else the broker does. */
module Handoff {
  import opened Types
  import opened BrokerState
  import opened BrokerInvariant
  import opened BrokerHistory
  import opened BrokerGate
  import opened BrokerRuns
  import opened BrokerCopies
  import opened BrokerLifecycle
  import opened BrokerWaiters
  import D = Durability
  import R = Router
  import Topic

  /** The broker and its durable store. The rest is history: the messages drawn, appended and fanned out
      so far; of each subscription that replays, its start, what had been fanned out when it registered,
      what it has read, and what had been appended then. */
  datatype World = World(
    b: State, mem: D.Memory,
    arrived: set<Message>, appended: set<Message>, fanned: set<Message>,
    from: map<nat, real>, early: map<nat, set<Message>>,
    got: map<nat, seq<Message>>, seen: map<nat, set<Message>>)

  datatype Event =
    | Configure(topic: string, replays: bool)
    | Store(p: nat)
    | Start(sub: nat, tokens: seq<string>, timestamp: real)
    | Read(sub: nat)
    | Other(step: Step)

  const BEGIN: World := World(INIT, D.Memory(map[], [], map[], []), {}, {}, {}, map[], map[], map[], map[])

  predicate Replaying(s: State, sub: nat) {
    sub in s.regs && s.regs[sub].replaying
  }

  ghost predicate CanHappen(w: World, e: Event) {
    match e
    case Configure(_, _) => true
    case Store(p) => p in w.b.passed && w.b.passed[p] !in w.appended
    case Start(sub, tokens, _) => Enabled(w.b, Join(sub, tokens, true))
    case Read(sub) => Replaying(w.b, sub) && sub in w.from && sub !in w.got
    case Other(step) => Enabled(w.b, step) && InTurn(w, step)
  }

  /** Message ids are fresh, a publish fans out after its append, and a flush uses what was read. */
  ghost predicate InTurn(w: World, step: Step)
    requires Enabled(w.b, step)
  {
    match step
    case Arrive(_, m) => m !in w.arrived
    case Fanout(p, _) => w.b.passed[p] in w.appended
    case Join(_, _, replay) => !replay
    case FlushReplay(sub, history) => sub in w.got && history == w.got[sub]
    case _ => true
  }

  ghost function After(c: Config, w: World, e: Event): World
    requires Linked(w.b) && CanHappen(w, e)
  {
    match e
    case Configure(topic, replays) => w.(mem := D.InMemory(w.mem, D.Register(topic, replays)))
    case Store(p) =>
      w.(mem := D.InMemory(w.mem, D.Append(w.b.passed[p])), appended := w.appended + {w.b.passed[p]})
    case Start(sub, tokens, timestamp) =>
      w.(b := Apply(c, w.b, Join(sub, tokens, true)), from := w.from[sub := timestamp],
          early := w.early[sub := w.fanned])
    case Read(sub) =>
      w.(got := w.got[sub := D.ReadFrom(w.mem, w.from[sub])], seen := w.seen[sub := w.appended])
    case Other(step) => Stepped(c, w, step)
  }

  ghost function Stepped(c: Config, w: World, step: Step): World
    requires Linked(w.b) && Enabled(w.b, step)
  {
    w.(b := Apply(c, w.b, step),
       arrived := if step.Arrive? then w.arrived + {step.message} else w.arrived,
       fanned := if step.Fanout? then w.fanned + {w.b.passed[step.p]} else w.fanned)
  }

  // ---- Producers ---------------------------------------------------------------------------

  /** Each producer is at one place, with a message of its own that is not fanned out yet. */
  ghost predicate SlotsOk(w: World) {
    && Apart(w.b)
    && (forall p, m | Publishing(w.b, p, m) :: m in w.arrived && m !in w.fanned)
    && (forall p, q, m | Publishing(w.b, p, m) && Publishing(w.b, q, m) :: p == q)
  }

  lemma WakesSlots(c: Config, w: World, s': State)
    requires SlotsOk(w) && Wakes(c, w.b, s')
    ensures SlotsOk(w.(b := s'))
  {
    WakesAt(c, w.b, s');
    hide Publishing, Apart, Wakes;
  }

  lemma ArriveSlots(c: Config, w: World, p: nat, m: Message)
    requires SlotsOk(w) && w.fanned <= w.arrived && m !in w.arrived && Enabled(w.b, Arrive(p, m))
    ensures SlotsOk(w.(b := Gate(c, w.b, p, m), arrived := w.arrived + {m}))
  {
    ArriveAt(c, w.b, p, m);
    hide Publishing, Apart, Gate;
  }

  lemma ReconsiderSlots(c: Config, w: World, p: nat)
    requires SlotsOk(w) && p in w.b.woken
    ensures SlotsOk(w.(b := Gate(c, w.b, p, w.b.woken[p])))
  {
    ReconsiderAt(c, w.b, p);
    hide Publishing, Apart, Gate;
  }

  lemma FanoutSlots(w: World, s': State, p: nat)
    requires SlotsOk(w) && p in w.b.passed && s'.parked == w.b.parked && s'.woken == w.b.woken
        && s'.passed == w.b.passed - {p}
    ensures SlotsOk(w.(b := s', fanned := w.fanned + {w.b.passed[p]}))
  {
    FanoutAt(w.b, s', p);
    hide Publishing, Apart;
  }

  // ---- The invariant -----------------------------------------------------------------------

  /** `m` was fanned out after `sub` had registered. */
  ghost predicate Late(w: World, sub: nat, m: Message)
    requires sub in w.early
  {
    m in w.fanned && m !in w.early[sub]
  }

  /** `m` was retained before `sub` read the history, and is recent enough. */
  ghost predicate InHistory(w: World, sub: nat, m: Message)
    requires sub in w.from
  {
    sub in w.seen && m in w.seen[sub] && m in w.mem.history && m.createdAt >= w.from[sub]
  }

  ghost predicate Matches(w: World, sub: nat, m: Message)
    requires sub in w.b.regs
  {
    Topic.Denotes(w.b.regs[sub].tokens, Topic.Split(m.topic))
  }

  function One(b: bool): nat {
    if b then 1 else 0
  }

  ghost function Expected(w: World, sub: nat, m: Message): nat
    requires sub in w.b.regs && sub in w.from && sub in w.early
  {
    if Matches(w, sub, m) then One(Late(w, sub, m)) + One(!w.b.regs[sub].replaying && InHistory(w, sub, m)) else 0
  }

  ghost predicate Counted(w: World, sub: nat)
    requires sub in w.b.regs && sub in w.from && sub in w.early
  {
    forall m :: |Copies(w.b, sub, m)| == Expected(w, sub, m)
  }

  ghost predicate StoreOk(w: World) {
    && w.fanned <= w.appended <= w.arrived
    && (forall m :: multiset(w.mem.history)[m] <= 1)
    && (forall m <- w.mem.history :: m in w.appended)
  }

  /** What is known of a subscription that replays. */
  ghost predicate SubOk(w: World, sub: nat)
    requires sub in w.from
  {
    && sub in w.b.queues && sub in w.early && w.early[sub] <= w.fanned
    && (sub in w.got <==> sub in w.seen)
    && (sub in w.seen ==> w.early[sub] <= w.seen[sub] <= w.appended)
    && (sub in w.got ==> forall m :: multiset(w.got[sub])[m] == One(InHistory(w, sub, m)))
    && (sub in w.b.regs && !w.b.regs[sub].replaying ==> sub in w.got)
  }

  ghost predicate SubsOk(w: World) {
    && w.got.Keys == w.seen.Keys && w.got.Keys <= w.from.Keys
    && (forall sub <- w.from :: SubOk(w, sub))
  }

  ghost predicate CountsOk(w: World)
    requires SubsOk(w)
  {
    forall sub <- w.from | sub in w.b.regs :: Counted(w, sub)
  }

  ghost predicate WorldOk(c: Config, w: World) {
    Inv(c, w.b) && SlotsOk(w) && StoreOk(w) && SubsOk(w) && CountsOk(w)
  }

  // ---- The store ---------------------------------------------------------------------------

  lemma AppendCount(xs: seq<Message>, x: Message)
    ensures forall m :: multiset(xs + [x])[m] == multiset(xs)[m] + One(m == x)
    ensures forall m :: m in xs + [x] <==> m in xs || m == x
  {
    assert multiset(xs + [x]) == multiset(xs) + multiset{x};
  }

  lemma StoredHistory(w: World, p: nat)
    requires p in w.b.passed
    ensures
      var m := w.b.passed[p];
      var history := D.InMemory(w.mem, D.Append(m)).history;
      && (forall x :: multiset(history)[x] <= multiset(w.mem.history)[x] + One(x == m))
      && (forall x :: x in history ==> x in w.mem.history || x == m)
      && (forall x :: x in w.mem.history ==> x in history)
  {
    AppendCount(w.mem.history, w.b.passed[p]);
  }

  lemma StoreStoreOk(w: World, w': World, p: nat)
    requires StoreOk(w) && SlotsOk(w) && p in w.b.passed && w.b.passed[p] !in w.appended
    requires w' == w.(mem := D.InMemory(w.mem, D.Append(w.b.passed[p])), appended := w.appended + {w.b.passed[p]})
    ensures StoreOk(w')
  {
    var m := w.b.passed[p];
    StoredHistory(w, p);
    assert Publishing(w.b, p, m);
    assert m !in w.mem.history;
    assert multiset(w.mem.history)[m] == 0;
  }

  lemma StoreSubs(w: World, w': World, p: nat)
    requires SubsOk(w) && CountsOk(w) && p in w.b.passed && w.b.passed[p] !in w.appended
    requires w' == w.(mem := D.InMemory(w.mem, D.Append(w.b.passed[p])), appended := w.appended + {w.b.passed[p]})
    ensures SubsOk(w') && CountsOk(w')
  {
    StoredHistory(w, p);
    hide D.InMemory, Copies, Matches;
    forall sub <- w.from
      ensures SubOk(w', sub) && forall m :: InHistory(w', sub, m) == InHistory(w, sub, m)
    {
      assert SubOk(w, sub);
    }
    forall sub <- w'.from | sub in w'.b.regs
      ensures Counted(w', sub)
    {
      assert Counted(w, sub);
      SameExpected(w, w', sub);
    }
  }

  /** Nothing that a count depends on has changed. */
  lemma SameExpected(w: World, w': World, sub: nat)
    requires sub in w.b.regs && sub in w.from && sub in w.early && Counted(w, sub)
    requires sub in w'.b.regs && sub in w'.from && sub in w'.early
    requires w'.b == w.b && w'.fanned == w.fanned && w'.early[sub] == w.early[sub]
    requires !w.b.regs[sub].replaying ==> forall m :: InHistory(w', sub, m) == InHistory(w, sub, m)
    ensures Counted(w', sub)
  {
    hide Copies, InHistory, Topic.Denotes;
    forall m
      ensures |Copies(w'.b, sub, m)| == Expected(w', sub, m)
    {
      assert |Copies(w.b, sub, m)| == Expected(w, sub, m);
    }
  }

  // ---- The read ----------------------------------------------------------------------------

  lemma ReadSubOk(w: World, w': World, sub: nat)
    requires SubsOk(w) && StoreOk(w) && CanHappen(w, Read(sub))
    requires w' == w.(got := w.got[sub := D.ReadFrom(w.mem, w.from[sub])], seen := w.seen[sub := w.appended])
    ensures SubsOk(w')
  {
    D.ReadFromMeaning(w.mem, w.from[sub]);
    assert SubOk(w, sub);
    hide D.ReadFrom;
    assert SubOk(w', sub);
    forall q <- w'.from
      ensures SubOk(w', q)
    {
      assert SubOk(w, q);
    }
  }

  lemma ReadSubs(w: World, w': World, sub: nat)
    requires SubsOk(w) && CountsOk(w) && StoreOk(w) && CanHappen(w, Read(sub))
    requires w' == w.(got := w.got[sub := D.ReadFrom(w.mem, w.from[sub])], seen := w.seen[sub := w.appended])
    ensures SubsOk(w') && CountsOk(w')
  {
    ReadSubOk(w, w', sub);
    hide D.ReadFrom, Copies, Matches, SubOk;
    forall q <- w'.from | q in w'.b.regs
      ensures Counted(w', q)
    {
      assert Counted(w, q);
      SubHas(w, q);
      SameExpected(w, w', q);
    }
  }

  // ---- Steps of the broker -----------------------------------------------------------------

  lemma SubStays(w: World, w': World, sub: nat)
    requires sub in w.from && SubOk(w, sub) && sub in w'.from && w'.from[sub] == w.from[sub]
    requires w.b.queues.Keys <= w'.b.queues.Keys && w.fanned <= w'.fanned
    requires sub in w'.early && w'.early[sub] == w.early[sub]
    requires w'.got == w.got && w'.seen == w.seen && w'.mem == w.mem && w'.appended == w.appended
    requires sub in w'.b.regs && !w'.b.regs[sub].replaying ==> sub in w.got
    ensures SubOk(w', sub)
  {
    assert forall m :: InHistory(w', sub, m) == InHistory(w, sub, m);
  }

  lemma TermsSubs(w: World, w': World)
    requires SubsOk(w) && SameTerms(w.b, w'.b) && w.fanned <= w'.fanned
    requires w' == w.(b := w'.b, arrived := w'.arrived, fanned := w'.fanned)
    ensures SubsOk(w')
  {
    forall sub <- w'.from
      ensures SubOk(w', sub)
    {
      assert SubOk(w, sub);
      SubStays(w, w', sub);
    }
  }

  /** A step that fans nothing out and flushes nothing changes no count. */
  lemma StillCounted(c: Config, w: World, w': World, step: Step, sub: nat)
    requires Books(w.b, {}) && Linked(w.b) && Enabled(w.b, step) && !step.Fanout? && !step.FlushReplay?
    requires sub in w.b.regs && sub in w.from && sub in w.early && Counted(w, sub)
    requires sub in w'.b.regs && sub in w'.from && sub in w'.early
    requires w'.b == Apply(c, w.b, step) && w'.fanned == w.fanned && w'.from[sub] == w.from[sub]
    requires w'.early[sub] == w.early[sub] && w'.seen == w.seen && w'.mem == w.mem
    requires w'.b.regs[sub].tokens == w.b.regs[sub].tokens && w'.b.regs[sub].replaying == w.b.regs[sub].replaying
    ensures Counted(w', sub)
  {
    hide Books, Copies, Linked, Apply, Topic.Denotes;
    forall m
      ensures |Copies(w'.b, sub, m)| == Expected(w', sub, m)
    {
      StepCopies(c, w.b, step, sub, m);
      assert |Copies(w.b, sub, m)| == Expected(w, sub, m);
    }
  }

  /** A fanout counts its message for exactly the registrations that match. */
  lemma FanoutCounted(c: Config, w: World, w': World, p: nat, targets: seq<nat>, sub: nat)
    requires Books(w.b, {}) && Linked(w.b) && Enabled(w.b, Fanout(p, targets))
    requires sub in w.b.regs && sub in w.from && sub in w.early && Counted(w, sub)
    requires w.b.passed[p] !in w.fanned && w.early[sub] <= w.fanned
    requires w' == w.(b := Apply(c, w.b, Fanout(p, targets)), fanned := w.fanned + {w.b.passed[p]})
    requires sub in w'.b.regs
    requires w'.b.regs[sub].tokens == w.b.regs[sub].tokens && w'.b.regs[sub].replaying == w.b.regs[sub].replaying
    ensures Counted(w', sub)
  {
    hide Books, Copies, Linked, Apply, Topic.Denotes;
    forall m
      ensures |Copies(w'.b, sub, m)| == Expected(w', sub, m)
    {
      StepCopies(c, w.b, Fanout(p, targets), sub, m);
      assert |Copies(w.b, sub, m)| == Expected(w, sub, m);
      assert m == w.b.passed[p] ==> (sub in targets <==> Matches(w, sub, m));
    }
  }

  /** A flush counts the history that was read. */
  lemma FlushCounted(c: Config, w: World, w': World, sub: nat)
    requires Books(w.b, {}) && Linked(w.b) && sub in w.got && Enabled(w.b, FlushReplay(sub, w.got[sub]))
    requires sub in w.from && SubOk(w, sub) && Counted(w, sub)
    requires w' == w.(b := Apply(c, w.b, FlushReplay(sub, w.got[sub])))
    requires w'.b.regs == GoLive(w.b, sub).regs
    ensures Counted(w', sub)
  {
    hide Books, Copies, Linked, Apply, Topic.Denotes, Matching;
    var tokens := w.b.regs[sub].tokens;
    assert w'.b.regs[sub].tokens == tokens && !w'.b.regs[sub].replaying;
    forall m
      ensures |Copies(w'.b, sub, m)| == Expected(w', sub, m)
    {
      StepCopies(c, w.b, FlushReplay(sub, w.got[sub]), sub, m);
      MatchingCount(tokens, w.got[sub], m);
      assert |Copies(w.b, sub, m)| == Expected(w, sub, m);
      assert multiset(w.got[sub])[m] == One(InHistory(w, sub, m));
      assert InHistory(w', sub, m) == InHistory(w, sub, m);
    }
  }

  /** A flush of another subscription changes no count. */
  lemma OtherFlushCounted(c: Config, w: World, w': World, q: nat, sub: nat)
    requires Books(w.b, {}) && Linked(w.b) && q in w.got && Enabled(w.b, FlushReplay(q, w.got[q])) && q != sub
    requires sub in w.b.regs && sub in w.from && sub in w.early && Counted(w, sub)
    requires w' == w.(b := Apply(c, w.b, FlushReplay(q, w.got[q])))
    requires sub in w'.b.regs && w'.b.regs[sub] == w.b.regs[sub]
    ensures Counted(w', sub)
  {
    hide Books, Copies, Linked, Apply, Topic.Denotes, Matching;
    forall m
      ensures |Copies(w'.b, sub, m)| == Expected(w', sub, m)
    {
      StepCopies(c, w.b, FlushReplay(q, w.got[q]), sub, m);
      assert |Copies(w.b, sub, m)| == Expected(w, sub, m);
      assert InHistory(w', sub, m) == InHistory(w, sub, m);
    }
  }

  lemma FlushSubs(w: World, w': World, q: nat)
    requires SubsOk(w) && q in w.got && w' == w.(b := w'.b) && q in w.b.regs && w'.b.regs == GoLive(w.b, q).regs
    requires w.b.queues.Keys <= w'.b.queues.Keys
    ensures SubsOk(w') && forall sub <- w'.from :: sub in w'.early
  {
    hide SubOk;
    forall sub <- w'.from
      ensures SubOk(w', sub) && sub in w'.early
    {
      SubHas(w, sub);
      SubStays(w, w', sub);
    }
  }

  lemma FlushOne(c: Config, w: World, w': World, q: nat, sub: nat)
    requires Books(w.b, {}) && Linked(w.b) && q in w.got && Enabled(w.b, FlushReplay(q, w.got[q]))
    requires SubsOk(w) && sub in w.from && sub in w.b.regs && sub in w.early && Counted(w, sub)
    requires w' == w.(b := Apply(c, w.b, FlushReplay(q, w.got[q])))
    requires sub in w'.b.regs && sub in w'.from && sub in w'.early
    ensures Counted(w', sub)
  {
    hide Books, Counted, SubOk, SubsOk, Flush;
    FlushRegs(c, w.b, q, w.got[q]);
    SubHas(w, sub);
    hide Linked;
    if sub == q {
      FlushCounted(c, w, w', q);
    } else {
      OtherFlushCounted(c, w, w', q, sub);
    }
  }

  lemma FlushWorld(c: Config, w: World, w': World, q: nat)
    requires Books(w.b, {}) && Linked(w.b) && q in w.got && Enabled(w.b, FlushReplay(q, w.got[q]))
    requires SubsOk(w) && CountsOk(w) && w' == w.(b := Apply(c, w.b, FlushReplay(q, w.got[q])))
    ensures SubsOk(w') && CountsOk(w')
  {
    hide Books, Counted, SubOk, SubsOk, Flush;
    FlushRegs(c, w.b, q, w.got[q]);
    hide Linked;
    FlushSubs(w, w', q);
    forall sub <- w'.from | sub in w'.b.regs
      ensures Counted(w', sub)
    {
      SubHas(w, sub);
      FlushOne(c, w, w', q, sub);
    }
  }

  lemma SubHas(w: World, sub: nat)
    requires SubsOk(w) && sub in w.from
    ensures sub in w.b.queues && sub in w.early && w.early[sub] <= w.fanned && SubOk(w, sub)
    ensures sub in w.b.regs && !w.b.regs[sub].replaying ==> sub in w.got
  {
  }

  lemma TermsWorld(c: Config, w: World, w': World, step: Step)
    requires Books(w.b, {}) && Linked(w.b) && Enabled(w.b, step) && !step.FlushReplay? && SubsOk(w) && CountsOk(w)
    requires step.Fanout? ==> w.b.passed[step.p] !in w.fanned
    requires w' == Stepped(c, w, step)
    ensures SubsOk(w') && CountsOk(w')
  {
    StepTerms(c, w.b, step);
    TermsSubs(w, w');
    hide Books, Linked, Counted, SubOk, Apply, Enabled;
    forall sub <- w'.from | sub in w'.b.regs
      ensures Counted(w', sub)
    {
      SubHas(w, sub);
      if step.Fanout? {
        FanoutCounted(c, w, w', step.p, step.targets, sub);
      } else {
        StillCounted(c, w, w', step, sub);
      }
    }
  }

  lemma SteppedSlots(c: Config, w: World, step: Step)
    requires Books(w.b, {}) && Linked(w.b) && Enabled(w.b, step) && InTurn(w, step) && SlotsOk(w) && StoreOk(w)
    ensures SlotsOk(Stepped(c, w, step))
  {
    hide Books, Linked, SlotsOk, DeliverAll, Gate;
    match step
    case Arrive(p, m) => ArriveSlots(c, w, p, m);
    case Reconsider(p) => ReconsiderSlots(c, w, p);
    case Fanout(p, targets) => FanoutStepSlots(c, w, p, targets);
    case _ =>
      StepWakes(c, w.b, step);
      WakesSlots(c, w, Apply(c, w.b, step));
  }

  lemma FanoutStepSlots(c: Config, w: World, p: nat, targets: seq<nat>)
    requires Linked(w.b) && Enabled(w.b, Fanout(p, targets)) && SlotsOk(w)
    ensures SlotsOk(Stepped(c, w, Fanout(p, targets)))
  {
    hide SlotsOk, DeliverAll;
    DeliverAllShift(c, w.b, targets, w.b.passed[p]);
    FanoutSlots(w, Apply(c, w.b, Fanout(p, targets)), p);
  }

  lemma SteppedStore(c: Config, w: World, step: Step)
    requires Linked(w.b) && Enabled(w.b, step) && InTurn(w, step) && StoreOk(w)
    ensures StoreOk(Stepped(c, w, step))
  {
    hide Linked, Apply;
  }

  lemma FreshFanout(w: World, step: Step)
    requires SlotsOk(w) && Enabled(w.b, step) && step.Fanout?
    ensures w.b.passed[step.p] !in w.fanned
  {
    assert Publishing(w.b, step.p, w.b.passed[step.p]);
  }

  lemma OtherWorld(c: Config, w: World, step: Step)
    requires WorldOk(c, w) && Linked(w.b) && Enabled(w.b, step) && InTurn(w, step)
    ensures WorldOk(c, Stepped(c, w, step))
  {
    var w' := Stepped(c, w, step);
    hide Books, Honest, GateOk, SlotsOk, StoreOk, SubsOk, CountsOk, Linked, Apply;
    StepInv(c, w.b, step);
    SteppedSlots(c, w, step);
    SteppedStore(c, w, step);
    if step.FlushReplay? {
      FlushWorld(c, w, w', step.sub);
    } else {
      if step.Fanout? {
        FreshFanout(w, step);
      }
      TermsWorld(c, w, w', step);
    }
  }

  // ---- A replaying subscriber joins --------------------------------------------------------

  lemma JoinedRegs(c: Config, s: State, sub: nat, tokens: seq<string>)
    ensures
      var s' := Subscribe(c, s, sub, tokens, true);
      s'.regs == s.regs[sub := R.Registration(tokens, true, [])] && s'.queues == s.queues[sub := []]
  {
    hide Refresh;
    RefreshSame(c, s.(regs := s.regs[sub := R.Registration(tokens, true, [])], queues := s.queues[sub := []]));
  }

  lemma NobodyYet(s: State, sub: nat, m: Message)
    requires ChainsOk(s) && sub !in s.queues
    ensures Copies(s, sub, m) == {}
  {
    UnknownLimbo(s, sub);
  }

  lemma NewCounted(c: Config, w: World, w': World, sub: nat, tokens: seq<string>)
    requires Books(w.b, {}) && Linked(w.b) && Enabled(w.b, Join(sub, tokens, true))
    requires w'.b == Apply(c, w.b, Join(sub, tokens, true)) && sub in w'.b.regs && w'.b.regs[sub].replaying
    requires sub in w'.from && sub in w'.early && w'.fanned == w.fanned && w'.early[sub] == w.fanned
    ensures Counted(w', sub)
  {
    hide Books, Copies, Linked, Apply, Topic.Denotes, ChainsOk;
    BooksChains(w.b, {});
    forall m
      ensures |Copies(w'.b, sub, m)| == Expected(w', sub, m)
    {
      StepCopies(c, w.b, Join(sub, tokens, true), sub, m);
      NobodyYet(w.b, sub, m);
    }
  }

  lemma FromQueues(w: World)
    requires SubsOk(w)
    ensures w.from.Keys <= w.b.queues.Keys
  {
    forall sub <- w.from
      ensures sub in w.b.queues
    {
      assert SubOk(w, sub);
    }
  }

  lemma StartSubs(w: World, w': World, sub: nat, timestamp: real)
    requires SubsOk(w) && sub !in w.b.queues
    requires w' == w.(b := w'.b, from := w.from[sub := timestamp], early := w.early[sub := w.fanned])
    requires w'.b.queues == w.b.queues[sub := []] && StoreOk(w)
    requires sub in w'.b.regs && w'.b.regs == w.b.regs[sub := w'.b.regs[sub]] && w'.b.regs[sub].replaying
    ensures SubsOk(w')
  {
    FromQueues(w);
    assert SubOk(w', sub);
    forall q <- w'.from
      ensures SubOk(w', q)
    {
      if q != sub {
        assert SubOk(w, q);
        SubStays(w, w', q);
      }
    }
  }

  lemma StartWorld(c: Config, w: World, sub: nat, tokens: seq<string>, timestamp: real)
    requires WorldOk(c, w) && Linked(w.b) && Enabled(w.b, Join(sub, tokens, true))
    ensures WorldOk(c, After(c, w, Start(sub, tokens, timestamp)))
  {
    var w' := After(c, w, Start(sub, tokens, timestamp));
    var step := Join(sub, tokens, true);
    StepInv(c, w.b, step);
    StepWakes(c, w.b, step);
    WakesSlots(c, w, w'.b);
    JoinedRegs(c, w.b, sub, tokens);
    hide Books, Honest, GateOk, SlotsOk, StoreOk, Linked, Subscribe, SubOk, Counted;
    SlotsWorld(w.(b := w'.b), w');
    StoreWorld(w, w');
    StartSubs(w, w', sub, timestamp);
    forall q <- w'.from | q in w'.b.regs
      ensures Counted(w', q)
    {
      if q == sub {
        NewCounted(c, w, w', sub, tokens);
      } else {
        SubHas(w, q);
        StillCounted(c, w, w', step, q);
      }
    }
  }

  lemma SlotsWorld(w: World, w': World)
    requires SlotsOk(w) && w'.b == w.b && w'.arrived == w.arrived && w'.fanned == w.fanned
    ensures SlotsOk(w')
  {
  }

  lemma StoreWorld(w: World, w': World)
    requires StoreOk(w) && w'.mem.history == w.mem.history && w'.arrived == w.arrived && w'.fanned == w.fanned
    requires w'.appended == w.appended
    ensures StoreOk(w')
  {
  }

  lemma ConfigureWorld(c: Config, w: World, topic: string, replays: bool)
    requires WorldOk(c, w)
    ensures WorldOk(c, w.(mem := D.InMemory(w.mem, D.Register(topic, replays))))
  {
    var w' := w.(mem := D.InMemory(w.mem, D.Register(topic, replays)));
    hide Inv, Copies, Matches;
    SlotsWorld(w, w');
    StoreWorld(w, w');
    forall sub <- w'.from
      ensures SubOk(w', sub)
    {
      assert SubOk(w, sub);
      assert forall m :: InHistory(w', sub, m) == InHistory(w, sub, m);
    }
    forall sub <- w'.from | sub in w'.b.regs
      ensures Counted(w', sub)
    {
      assert Counted(w, sub);
      SameExpected(w, w', sub);
    }
  }

  // ---- Every event -------------------------------------------------------------------------

  /** Every event keeps the invariant. */
  lemma AfterWorld(c: Config, w: World, e: Event)
    requires WorldOk(c, w) && Linked(w.b) && CanHappen(w, e)
    ensures WorldOk(c, After(c, w, e))
  {
    hide Inv, SlotsOk, StoreOk, SubsOk, CountsOk, Linked, Stepped;
    match e
    case Configure(topic, replays) => ConfigureWorld(c, w, topic, replays);
    case Store(p) =>
      StoreStoreOk(w, After(c, w, e), p);
      StoreSubs(w, After(c, w, e), p);
      SlotsWorld(w, After(c, w, e));
    case Start(sub, tokens, timestamp) => StartWorld(c, w, sub, tokens, timestamp);
    case Read(sub) =>
      ReadSubs(w, After(c, w, e), sub);
      SlotsWorld(w, After(c, w, e));
      StoreWorld(w, After(c, w, e));
    case Other(step) => OtherWorld(c, w, step);
  }
}
