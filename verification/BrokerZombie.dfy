/** When the gate reopens. The documented promise that it always does, eventually, holds exactly as long as
    the backlog entries of removed subscriptions stay below the budget of all registrations. */
module BrokerZombie {
  import opened Common
  import opened Types
  import opened Retry
  import opened Router
  import opened BrokerState
  import opened BrokerInvariant
  import opened BrokerHistory
  import opened BrokerGate
  import opened BrokerRuns
  import opened BrokerTheorems
  import opened BrokerWaiters
  import opened BrokerFlights
  import Topic

  /** A wakeup for a removed subscription adds an entry to the backlog that counts no live work. */
  lemma LateWakeup(c: Config, s: State, root: nat)
    requires Reachable(c, s) && Enabled(s, WakeUp(root)) && Sub(s, root) !in s.regs
    requires Sub(s, root) in s.queues && HasRoom(s, Sub(s, root))
    ensures
      Linked(s) &&
      var s' := Apply(c, s, WakeUp(root));
      Backlog(s') == Backlog(s) + 1 && |LiveWork(s')| == |LiveWork(s)| && |Zombies(s')| == |Zombies(s)| + 1
  {
    hide Reachable, Honest, GateOk, Books, Wake, Linked, LiveWork, Zombies;
    Reaches(c, s, WakeUp(root));
    ReachableInv(c, s);
    BooksLinked(s);
    LateShift(c, s, root);
    BacklogIsExact(c, s);
    BacklogIsExact(c, Wake(c, s, root));
    LateWork(c, s, root);
  }

  lemma LateWork(c: Config, s: State, root: nat)
    requires Books(s, {}) && root in s.chains && s.chains[root].place.Sleeping? && Linked(s) && Sub(s, root) !in s.regs
    ensures LiveWork(Wake(c, s, root)) == LiveWork(s)
  {
    hide Books, Wake;
    WakeMoves(c, s, root);
  }

  lemma LateShift(c: Config, s: State, root: nat)
    requires Books(s, {}) && root in s.chains && s.chains[root].place.Sleeping? && Linked(s)
    requires Sub(s, root) !in s.regs && HasRoom(s, Sub(s, root))
    ensures Backlog(Wake(c, s, root)) == Backlog(s) + 1
  {
    hide Books, Wake;
    WakeShift(c, s, root);
  }

  // ---- When the gate is open ---------------------------------------------------------------

  /** Live work and zombies leave no room under the budget of all registrations. */
  ghost predicate Full(c: Config, s: State) {
    c.limit.Some? && |LiveWork(s)| + |Zombies(s)| >= c.limit.value * (if |s.regs| == 0 then 1 else |s.regs|)
  }

  /** The gate is open exactly while live work and zombies together are below the budget: once for each
      registration, and once when there is none. */
  lemma GateOpensExactly(c: Config, s: State)
    requires Reachable(c, s)
    ensures GateOpen(c, s) <==>
      c.limit.None?
      || |LiveWork(s)| + |Zombies(s)| < c.limit.value * (if |s.regs| == 0 then 1 else |s.regs|)
  {
    hide Reachable, Zombies, LiveWork, Watermark, Backlog;
    BacklogIsExact(c, s);
    if c.limit.Some? {
      WatermarkMeans(c.limit.value, s);
    }
  }

  /** Once all live work is settled the gate is open exactly if there are fewer zombies than that. */
  lemma DrainedGateOpens(c: Config, s: State)
    requires Reachable(c, s) && LiveWork(s) == {}
    ensures GateOpen(c, s) <==>
      c.limit.None? || |Zombies(s)| < c.limit.value * (if |s.regs| == 0 then 1 else |s.regs|)
  {
    hide Reachable, Zombies, LiveWork, GateOpen;
    GateOpensExactly(c, s);
  }

  /** A producer that looks at the gate passes exactly if live work and zombies are below the budget, and
      is parked with its message otherwise. */
  lemma ProducerPassesExactly(c: Config, s: State, step: Step)
    requires Reachable(c, s) && Linked(s) && Enabled(s, step) && (step.Arrive? || step.Reconsider?)
    ensures
      var s', m := Apply(c, s, step), if step.Arrive? then step.message else s.woken[step.p];
      var passes := c.limit.None?
                    || |LiveWork(s)| + |Zombies(s)| < c.limit.value * (if |s.regs| == 0 then 1 else |s.regs|);
      && step.p !in s'.woken
      && (passes ==> s'.passed == s.passed[step.p := m] && s'.parked == s.parked)
      && (!passes ==> s'.parked == s.parked[step.p := m] && s'.passed == s.passed)
  {
    var m := if step.Arrive? then step.message else s.woken[step.p];
    AppliesGate(c, s, step);
    hide Reachable, Linked, Enabled, Apply, Gate, Zombies, LiveWork, GateOpen;
    GateOpensExactly(c, s);
    GateMoves(c, s, step.p, m);
  }

  lemma AppliesGate(c: Config, s: State, step: Step)
    requires Linked(s) && Enabled(s, step) && (step.Arrive? || step.Reconsider?)
    ensures Apply(c, s, step) == Gate(c, s, step.p, if step.Arrive? then step.message else s.woken[step.p])
  {
    hide Linked, Gate;
  }

  lemma GateMoves(c: Config, s: State, p: nat, m: Message)
    ensures
      var s' := Gate(c, s, p, m);
      && p !in s'.woken
      && (GateOpen(c, s) ==> s'.passed == s.passed[p := m] && s'.parked == s.parked)
      && (!GateOpen(c, s) ==> s'.parked == s.parked[p := m] && s'.passed == s.passed)
  {
    hide GateOpen;
    if GateOpen(c, s) {
    } else {
    }
  }

  /** A subscription that joins raises the budget, and wakes every parked producer exactly if live work and
      zombies are below it now. */
  lemma JoinWakes(c: Config, s: State, sub: nat, tokens: seq<string>, replay: bool)
    requires Reachable(c, s) && Linked(s) && Enabled(s, Join(sub, tokens, replay)) && c.limit.Some?
    ensures
      var s', below := Apply(c, s, Join(sub, tokens, replay)),
                       |LiveWork(s)| + |Zombies(s)| < c.limit.value * (|s.regs| + 1);
      && (below ==> s'.parked == map[] && s'.woken == s.woken + s.parked && s'.admit)
      && (!below ==> s'.parked == s.parked && s'.woken == s.woken && s'.admit == s.admit)
  {
    hide Reachable, Zombies, LiveWork, Backlog, Subscribe;
    BacklogIsExact(c, s);
    JoinRefreshes(c, s, sub, tokens, replay);
  }

  lemma JoinRefreshes(c: Config, s: State, sub: nat, tokens: seq<string>, replay: bool)
    requires sub !in s.regs && c.limit.Some?
    ensures
      var s', below := Subscribe(c, s, sub, tokens, replay), Backlog(s) < c.limit.value * (|s.regs| + 1);
      && (below ==> s'.parked == map[] && s'.woken == s.woken + s.parked && s'.admit)
      && (!below ==> s'.parked == s.parked && s'.woken == s.woken && s'.admit == s.admit)
  {
    hide GateOpen, Backlog, Watermark;
    var joined := s.(regs := s.regs[sub := Registration(tokens, replay, [])], queues := s.queues[sub := []]);
    assert |joined.regs| == |s.regs| + 1 by {
      assert joined.regs.Keys == s.regs.Keys + {sub};
      assert |joined.regs| == |joined.regs.Keys| && |s.regs| == |s.regs.Keys|;
    }
    WatermarkMeans(c.limit.value, joined);
    OpenMeans(c, s, joined);
    if GateOpen(c, joined) {
    } else {
    }
  }

  lemma OpenMeans(c: Config, s: State, s': State)
    requires c.limit.Some? && s'.inflight == s.inflight && s'.pendingTotal == s.pendingTotal
    ensures GateOpen(c, s') <==> Backlog(s) < Watermark(c.limit.value, s')
  {
  }

  lemma GateParked(c: Config, s: State)
    requires GateOk(c, s) && GateOpen(c, s)
    ensures s.parked == map[]
  {
  }

  /** A parked producer is woken by a step exactly if the gate is open after it. */
  lemma WokenExactlyWhenOpen(c: Config, s: State, step: Step, p: nat)
    requires Inv(c, s) && Apart(s) && Linked(s) && Enabled(s, step) && p in s.parked
    ensures p in Apply(c, s, step).parked <==> !GateOpen(c, Apply(c, s, step))
    ensures p in Apply(c, s, step).parked ==> Apply(c, s, step).parked[p] == s.parked[p]
  {
    hide Apply, Linked, Enabled, Books, Honest, GateOk, GateOpen, Apart;
    StepInv(c, s, step);
    if GateOpen(c, Apply(c, s, step)) {
      GateParked(c, Apply(c, s, step));
    } else {
      ParkedStays(c, s, step, p);
    }
  }

  // ---- Over runs ---------------------------------------------------------------------------

  lemma InRunReachable(c: Config, r: Run, i: nat)
    requires IsRun(c, r) && i < |r.states|
    ensures Reachable(c, r.states[i])
  {
    var r' := Run(r.states[..i + 1], r.steps[..i]);
    hide Takes;
    forall k | 0 <= k < i
      ensures Takes(c, r', k)
    {
      TakesSame(c, r, r', k);
    }
    assert Last(r') == r.states[i];
  }

  lemma ParkedIsFull(c: Config, s: State)
    requires Reachable(c, s) && s.parked != map[]
    ensures Full(c, s)
  {
    hide Reachable, Honest, Books, GateOpen;
    ReachableInv(c, s);
    GateOpensExactly(c, s);
  }

  /** One step of the wait: the producer is still parked exactly if there is still no room. */
  lemma TakenParked(c: Config, r: Run, i: nat, p: nat)
    requires IsRun(c, r) && i < |r.steps| && p in r.states[i].parked
    ensures p in r.states[i + 1].parked <==> Full(c, r.states[i + 1])
    ensures p in r.states[i + 1].parked ==> r.states[i + 1].parked[p] == r.states[i].parked[p]
  {
    hide Inv, Apart, Apply, Linked, Enabled, Reachable, GateOpen, Zombies, LiveWork;
    RunInv(c, r, i);
    RunApart(c, r, i);
    assert Takes(c, r, i);
    WokenExactlyWhenOpen(c, r.states[i], r.steps[i], p);
    InRunReachable(c, r, i + 1);
    GateOpensExactly(c, r.states[i + 1]);
  }

  /** A parked producer waits on, with its message, exactly as long as live work and zombies fill the
      budget. */
  lemma {:induction false} ParkedExactlyWhileFull(c: Config, r: Run, i: nat, j: nat, p: nat)
    requires IsRun(c, r) && i <= j < |r.states| && p in r.states[i].parked
    ensures (forall k | i <= k <= j :: p in r.states[k].parked) <==> (forall k | i <= k <= j :: Full(c, r.states[k]))
    ensures (forall k | i <= k <= j :: p in r.states[k].parked) ==> r.states[j].parked[p] == r.states[i].parked[p]
  {
    hide IsRun, Full;
    if i == j {
      InRunReachable(c, r, i);
      ParkedIsFull(c, r.states[i]);
    } else {
      ParkedExactlyWhileFull(c, r, i, j - 1, p);
      if p in r.states[j - 1].parked {
        RunSize(c, r);
        TakenParked(c, r, j - 1, p);
      }
    }
  }

  lemma RunSize(c: Config, r: Run)
    requires IsRun(c, r)
    ensures |r.states| == |r.steps| + 1
  {
  }

  /** No subscription joins and no zombie of `state` is settled or dropped. */
  ghost predicate LeavesAlone(state: State, s: State, step: Step) {
    !step.Join? && forall root <- Zombies(state) :: !Clears(s, step, root)
  }

  ghost predicate LeftAlone(r: Run, i: nat, j: nat)
    requires i <= j < |r.states| && |r.states| == |r.steps| + 1
  {
    forall k | i <= k < j :: LeavesAlone(r.states[i], r.states[k], r.steps[k])
  }

  /** `s'` has the zombies of `s` and no registration that `s` has not. */
  ghost predicate Haunted(s: State, s': State) {
    Zombies(s) <= Zombies(s') && s'.regs.Keys <= s.regs.Keys
  }

  lemma StepHaunts(c: Config, start: State, s: State, step: Step)
    requires Inv(c, s) && Linked(s) && Enabled(s, step) && Haunted(start, s) && LeavesAlone(start, s, step)
    ensures Haunted(start, Apply(c, s, step))
  {
    hide Apply, Linked, Enabled, Books, Honest, GateOk, Zombies, Clears;
    RegsShrink(c, s, step);
    forall root | root in Zombies(start)
      ensures root in Zombies(Apply(c, s, step))
    {
      ZombiesChange(c, s, step, root);
    }
  }

  lemma TakenHaunts(c: Config, r: Run, start: State, i: nat)
    requires IsRun(c, r) && i < |r.steps| && Haunted(start, r.states[i])
    requires LeavesAlone(start, r.states[i], r.steps[i])
    ensures Haunted(start, r.states[i + 1])
  {
    hide Inv, Apply, Linked, Enabled, Haunted, LeavesAlone;
    RunInv(c, r, i);
    assert Takes(c, r, i);
    StepHaunts(c, start, r.states[i], r.steps[i]);
  }

  lemma {:induction false} RunHaunts(c: Config, r: Run, i: nat, j: nat)
    requires IsRun(c, r) && i <= j < |r.states| && LeftAlone(r, i, j)
    ensures Haunted(r.states[i], r.states[j])
  {
    hide Takes, LeavesAlone, Zombies;
    if i < j {
      hide Haunted;
      assert LeftAlone(r, i, j - 1);
      RunHaunts(c, r, i, j - 1);
      TakenHaunts(c, r, r.states[i], j - 1);
    }
  }

  /** The zombies of `s` alone fill the budget. */
  ghost predicate Shut(c: Config, s: State) {
    c.limit.Some? && |Zombies(s)| >= c.limit.value * (if |s.regs| == 0 then 1 else |s.regs|)
  }

  lemma SubsetSize<T>(xs: set<T>, ys: set<T>)
    requires xs <= ys
    ensures |xs| <= |ys|
  {
    assert ys == xs + (ys - xs);
  }

  /** Fewer registrations lower the budget, but not below zombies that filled it. */
  lemma HauntedIsShut(c: Config, s: State, s': State)
    requires Shut(c, s) && Haunted(s, s')
    ensures Shut(c, s') && Full(c, s')
  {
    hide Zombies, LiveWork;
    SubsetSize(Zombies(s), Zombies(s'));
    SubsetSize(s'.regs.Keys, s.regs.Keys);
    assert |s.regs| == |s.regs.Keys| && |s'.regs| == |s'.regs.Keys|;
    var m, n := if |s'.regs| > 1 then |s'.regs| else 1, if |s.regs| > 1 then |s.regs| else 1;
    FewerRegistrations(c.limit.value, m, n, |Zombies(s)|);
  }

  lemma ShutAlong(c: Config, r: Run, i: nat, j: nat)
    requires IsRun(c, r) && i <= j < |r.states| && LeftAlone(r, i, j) && Shut(c, r.states[i])
    ensures forall k | i <= k <= j :: Full(c, r.states[k])
  {
    hide IsRun, LeavesAlone, Shut, Full, Haunted;
    forall k | i <= k <= j
      ensures Full(c, r.states[k])
    {
      RunSize(c, r);
      assert LeftAlone(r, i, k);
      RunHaunts(c, r, i, k);
      HauntedIsShut(c, r.states[i], r.states[k]);
    }
  }

  /** Once zombies alone fill the budget, every parked producer stays parked through every run in which
      nobody joins and none of those zombies is settled or dropped. */
  lemma ShutForGood(c: Config, r: Run, i: nat, j: nat, p: nat)
    requires IsRun(c, r) && i <= j < |r.states| && LeftAlone(r, i, j) && Shut(c, r.states[i])
    requires p in r.states[i].parked
    ensures p in r.states[j].parked && r.states[j].parked[p] == r.states[i].parked[p]
  {
    hide IsRun, LeftAlone, Shut, Full;
    RunSize(c, r);
    ShutAlong(c, r, i, j);
    ParkedExactlyWhileFull(c, r, i, j, p);
  }

  // ---- A run that shuts the gate for good --------------------------------------------------

  const LIMITED: Config := Config(Some(1), Policy(3, 1.0, 10))
  const ANY: seq<string> := [Topic.TAIL_WILDCARD]
  const M0: Message := Message(0, "a", 0, 0.0)
  const M1: Message := Message(1, "a", 0, 0.0)
  const D0: Delivery := Delivery(0, 0, M0, 1, 0)
  const D1: Delivery := Delivery(1, 0, M0, 2, 0)

  const JOINED: State := INIT.(regs := map[0 := Registration(ANY, false, [])], queues := map[0 := []])
  const ADMITTED: State := JOINED.(passed := map[0 := M0])
  const DELIVERED: State :=
    JOINED.(queues := map[0 := [D0]], inflight := map[0 := D0], nextId := 1, owner := map[0 := 0],
            chains := map[0 := Chain(D0, Queued, [D0])])
  const TAKEN: State := DELIVERED.(queues := map[0 := []], chains := map[0 := Chain(D0, Held, [D0])])
  const REFUSED: State :=
    TAKEN.(inflight := map[], pending := map[0 := 1], pendingTotal := 1, chains := map[0 := Chain(D0, Sleeping, [D0])])
  const LEFT: State := REFUSED.(regs := map[], pending := map[], pendingTotal := 0)
  const WOKEN: State :=
    LEFT.(queues := map[0 := [D1]], inflight := map[1 := D1], nextId := 2, owner := map[0 := 0, 1 := 0],
          chains := map[0 := Chain(D1, Queued, [D0, D1])])
  const SHUT: State := WOKEN.(admit := false, parked := map[1 := M1])

  lemma ToDelivered()
    requires Reachable(LIMITED, INIT)
    ensures Reachable(LIMITED, DELIVERED)
  {
    hide Reachable;
    Reaches(LIMITED, INIT, Join(0, ANY, false));
    assert Subscribe(LIMITED, INIT, 0, ANY, false) == JOINED;
    Reaches(LIMITED, JOINED, Arrive(0, M0));
    assert Gate(LIMITED, JOINED, 0, M0) == ADMITTED;
    ToFanout();
  }

  lemma FirstDelivery()
    ensures Deliver(LIMITED, ADMITTED, 0, M0) == DELIVERED.(passed := map[0 := M0])
  {
    assert ADMITTED.queues[0] + [D0] == [D0];
  }

  lemma FirstTargets()
    ensures Targets(ADMITTED, M0, [0])
  {
    assert Topic.Denotes(ANY, Topic.Split("a"));
  }

  lemma ToFanout()
    requires Reachable(LIMITED, ADMITTED)
    ensures Reachable(LIMITED, DELIVERED)
  {
    FirstTargets();
    FirstDelivery();
    hide Reachable, Targets, Deliver;
    Reaches(LIMITED, ADMITTED, Fanout(0, [0]));
    assert DeliverAll(LIMITED, ADMITTED, [0], M0) == DELIVERED.(passed := map[0 := M0]) by {
      assert [0][1..] == [];
    }
  }

  lemma ToRefused()
    requires Reachable(LIMITED, DELIVERED)
    ensures Reachable(LIMITED, REFUSED)
  {
    hide Reachable;
    Reaches(LIMITED, DELIVERED, Consume(0));
    assert Take(DELIVERED, 0) == TAKEN;
    Reaches(LIMITED, TAKEN, Refuse(0));
    assert Nack(LIMITED, TAKEN, 0) == REFUSED;
  }

  lemma ToLeft()
    requires Reachable(LIMITED, DELIVERED)
    ensures Reachable(LIMITED, LEFT)
  {
    hide Reachable;
    ToRefused();
    Reaches(LIMITED, REFUSED, Leave(0));
    assert Dropped(REFUSED, 0) == LEFT;
    assert Remove(LIMITED, REFUSED, 0) == LEFT;
  }

  lemma LeftWakes()
    ensures Linked(LEFT) && Enabled(LEFT, WakeUp(0)) ==> Apply(LIMITED, LEFT, WakeUp(0)) == WOKEN
  {
    assert LEFT.queues[0] + [D1] == [D1] && [D0] + [D1] == [D0, D1];
    assert Wake(LIMITED, LEFT, 0) == WOKEN;
  }

  lemma ToWoken()
    requires Reachable(LIMITED, LEFT)
    ensures Reachable(LIMITED, WOKEN)
  {
    assert Enabled(LEFT, WakeUp(0));
    hide Reachable, Apply, Linked, Enabled;
    LeftWakes();
    Reaches(LIMITED, LEFT, WakeUp(0));
  }

  lemma ToShut()
    requires Reachable(LIMITED, WOKEN)
    ensures Reachable(LIMITED, SHUT)
  {
    hide Reachable;
    Reaches(LIMITED, WOKEN, Arrive(1, M1));
    assert Gate(LIMITED, WOKEN, 1, M1) == SHUT;
  }

  ghost predicate Abandoned(s: State) {
    && s.parked != map[] && !s.admit && s.woken == map[] && s.regs == map[]
    && forall root <- s.chains :: s.chains[root].place.Queued?
  }

  lemma ShutIsAbandoned()
    ensures Abandoned(SHUT) && Shut(LIMITED, SHUT) && LiveWork(SHUT) == {}
  {
    assert SHUT.parked[1] == M1;
    assert Zombies(SHUT) == {0};
  }

  /** The gate can be shut with a producer parked on it although there is no subscription, no retry under
      way, no live work and no delivery with a consumer: only a zombie in a queue that nobody need read. */
  lemma GateCanStayShut()
    ensures exists s :: Reachable(LIMITED, s) && Abandoned(s) && Shut(LIMITED, s) && LiveWork(s) == {}
  {
    InitReachable(LIMITED);
    ToDelivered();
    ToLeft();
    ToWoken();
    ToShut();
    hide Reachable, Shut, LiveWork, Abandoned;
    ShutIsAbandoned();
  }
}
