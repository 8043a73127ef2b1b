/** Tasks contending for the lock of module `RwLock`: what holds in every reachable state. */
module RwLockRuns {
  import opened RwLock

  /** A waiter is asleep until a `notify` reaches it, then woken until it looks at its guard again. */
  datatype Phase = Away | AsleepR | WokenR | Reading | AsleepW | WokenW | Writing

  /** Any number of tasks, by index. */
  datatype Sys = Sys(lock: Lock, phases: seq<Phase>)

  /** `Cancel` aborts the wait of `t`. `asyncio.Condition.wait` then passes the wakeup on to one
      other sleeping task, `next`, if there is one. */
  datatype Step =
    | StartRead(t: nat) | WakeRead(t: nat) | EndRead(t: nat)
    | StartWrite(t: nat) | WakeWrite(t: nat) | EndWrite(t: nat)
    | Cancel(t: nat, next: nat)

  predicate Asleep(p: Phase) { p.AsleepR? || p.AsleepW? }

  predicate Waits(p: Phase) { Asleep(p) || p.WokenR? || p.WokenW? }

  predicate In(s: Sys, t: nat, p: Phase) {
    t < |s.phases| && s.phases[t] == p
  }

  function AllAway(tasks: nat): (phases: seq<Phase>)
    ensures |phases| == tasks && forall t | 0 <= t < tasks :: phases[t] == Away
  {
    if tasks == 0 then [] else AllAway(tasks - 1) + [Away]
  }

  function Init(tasks: nat): Sys {
    Sys(FREE, AllAway(tasks))
  }

  predicate Enabled(s: Sys, step: Step) {
    match step
    case StartRead(t) => In(s, t, Away)
    case StartWrite(t) => In(s, t, Away)
    case WakeRead(t) => In(s, t, WokenR)
    case WakeWrite(t) => In(s, t, WokenW)
    case EndRead(t) => In(s, t, Reading)
    case EndWrite(t) => In(s, t, Writing)
    case Cancel(t, next) =>
      && t < |s.phases| && Waits(s.phases[t])
      && ((next != t && next < |s.phases| && Asleep(s.phases[next]))
          || (forall u | 0 <= u < |s.phases| && u != t :: !Asleep(s.phases[u])))
  }

  function Wake(p: Phase): Phase {
    match p
    case AsleepR => WokenR
    case AsleepW => WokenW
    case _ => p
  }

  /** `notify_all`. */
  function WakeAll(phases: seq<Phase>): seq<Phase> {
    seq(|phases|, i requires 0 <= i < |phases| => Wake(phases[i]))
  }

  /** `_notify(1)`, reaching `t`. */
  function WakeOne(phases: seq<Phase>, t: nat): seq<Phase> {
    if t < |phases| then phases[t := Wake(phases[t])] else phases
  }

  function Abandon(l: Lock, p: Phase): Lock {
    if p.AsleepR? || p.WokenR? then l.(waitingReaders := l.waitingReaders - 1)
    else l.(waitingWriters := l.waitingWriters - 1)
  }

  function Apply(s: Sys, step: Step): Sys
    requires Enabled(s, step)
  {
    var l, ph := s.lock, s.phases;
    match step
    case StartRead(t) => Sys(TryRead(QueueReader(l)), ph[t := if ReadBlocked(QueueReader(l)) then AsleepR else Reading])
    case WakeRead(t) => Sys(TryRead(l), ph[t := if ReadBlocked(l) then AsleepR else Reading])
    case StartWrite(t) => Sys(TryWrite(QueueWriter(l)),
        ph[t := if WriteBlocked(QueueWriter(l)) then AsleepW else Writing])
    case WakeWrite(t) => Sys(TryWrite(l), ph[t := if WriteBlocked(l) then AsleepW else Writing])
    case EndRead(t) =>
      var l' := ReaderReleased(l);
      Sys(l', if l'.readers == 0 then WakeAll(ph[t := Away]) else ph[t := Away])
    case EndWrite(t) => Sys(WriterReleased(l), WakeAll(ph[t := Away]))
    case Cancel(t, next) => Sys(Abandon(l, ph[t]), WakeOne(ph[t := Away], next))
  }

  predicate Run(s: Sys, steps: seq<Step>)
    decreases |steps|
  {
    steps == [] || (Enabled(s, steps[0]) && Run(Apply(s, steps[0]), steps[1..]))
  }

  function Final(s: Sys, steps: seq<Step>): Sys
    requires Run(s, steps)
    decreases |steps|
  {
    if steps == [] then s else Final(Apply(s, steps[0]), steps[1..])
  }

  // ---- Counting tasks ----------------------------------------------------------------------

  /** How many tasks wait or hold, by phase. */
  datatype Census = Census(asleepR: nat, wokenR: nat, reading: nat, asleepW: nat, wokenW: nat, writing: nat)

  function Counted(phases: seq<Phase>): Census {
    var m := multiset(phases);
    Census(m[AsleepR], m[WokenR], m[Reading], m[AsleepW], m[WokenW], m[Writing])
  }

  /** The census after one task moved from phase `p` to phase `q`. */
  predicate Moved(c: Census, p: Phase, q: Phase, c': Census) {
    && c'.asleepR + (if p.AsleepR? then 1 else 0) == c.asleepR + (if q.AsleepR? then 1 else 0)
    && c'.wokenR + (if p.WokenR? then 1 else 0) == c.wokenR + (if q.WokenR? then 1 else 0)
    && c'.reading + (if p.Reading? then 1 else 0) == c.reading + (if q.Reading? then 1 else 0)
    && c'.asleepW + (if p.AsleepW? then 1 else 0) == c.asleepW + (if q.AsleepW? then 1 else 0)
    && c'.wokenW + (if p.WokenW? then 1 else 0) == c.wokenW + (if q.WokenW? then 1 else 0)
    && c'.writing + (if p.Writing? then 1 else 0) == c.writing + (if q.Writing? then 1 else 0)
  }

  function AllWoken(c: Census): Census {
    Census(0, c.wokenR + c.asleepR, c.reading, 0, c.wokenW + c.asleepW, c.writing)
  }

  lemma CountMove(phases: seq<Phase>, t: nat, q: Phase)
    requires t < |phases|
    ensures Moved(Counted(phases), phases[t], q, Counted(phases[t := q]))
  {
    assert phases[t] in multiset(phases);
    assert multiset(phases[t := q]) == multiset(phases) - multiset{phases[t]} + multiset{q};
  }

  /** Waking sleepers keeps these sums. */
  predicate SameTasks(c: Census, d: Census) {
    && c.asleepR + c.wokenR == d.asleepR + d.wokenR && c.reading == d.reading
    && c.asleepW + c.wokenW == d.asleepW + d.wokenW && c.writing == d.writing
  }

  lemma CountWakeAll(phases: seq<Phase>)
    ensures Counted(WakeAll(phases)) == AllWoken(Counted(phases))
  {
    var cur := phases;
    for i := 0 to |phases|
      invariant |cur| == |phases|
      invariant forall k :: 0 <= k < |cur| ==> cur[k] == if k < i then Wake(phases[k]) else phases[k]
      invariant SameTasks(Counted(phases), Counted(cur))
    {
      CountMove(cur, i, Wake(cur[i]));
      cur := cur[i := Wake(cur[i])];
    }
    assert cur == WakeAll(phases);
    assert AsleepR !in cur && AsleepW !in cur;
  }

  lemma CountAway(tasks: nat)
    ensures Counted(AllAway(tasks)) == Census(0, 0, 0, 0, 0, 0)
  {
    var ph := AllAway(tasks);
    assert AsleepR !in ph && WokenR !in ph && Reading !in ph && AsleepW !in ph && WokenW !in ph && Writing !in ph;
  }

  // ---- Every reachable state ---------------------------------------------------------------

  /** The fields count the tasks, and holders exclude each other. */
  predicate Faithful(l: Lock, c: Census) {
    && l.readers == c.reading
    && c.writing == (if l.writerActive then 1 else 0)
    && l.waitingReaders == c.asleepR + c.wokenR
    && l.waitingWriters == c.asleepW + c.wokenW
    && (l.writerActive ==> l.readers == 0)
  }

  /** No task sleeps whose guard would now let it in. */
  predicate NoLostWakeup(l: Lock, c: Census) {
    && (c.asleepR > 0 ==> ReadBlocked(l))
    && (c.asleepW > 0 ==> WriteBlocked(l))
  }

  /** A granted reader turn still has a reader and ends before a writer holds the lock. */
  predicate TurnHasReader(l: Lock) {
    l.readerTurn ==> !l.writerActive && (l.waitingReaders > 0 || l.readers > 0)
  }

  predicate Idle(l: Lock) {
    l.readers == 0 && !l.writerActive
  }

  predicate HasWaiters(l: Lock) {
    l.waitingReaders > 0 || l.waitingWriters > 0
  }

  /** A woken task whose guard is false. */
  predicate SomeoneCanEnter(l: Lock, c: Census) {
    (c.wokenR > 0 && !ReadBlocked(l)) || (c.wokenW > 0 && !WriteBlocked(l))
  }

  /** Under cancellation a sleeper can miss its wakeup while the lock is held. This survives. */
  predicate IdleProgress(l: Lock, c: Census) {
    Idle(l) ==>
      && (if l.readerTurn then c.asleepR == 0 else c.asleepW == 0)
      && (HasWaiters(l) ==> SomeoneCanEnter(l, c))
  }

  predicate Watchful(s: Sys) {
    Faithful(s.lock, Counted(s.phases)) && NoLostWakeup(s.lock, Counted(s.phases))
  }

  predicate Inv(s: Sys) {
    Watchful(s) && TurnHasReader(s.lock)
  }

  /** What holds even when waits are cancelled. */
  predicate CancelInv(s: Sys) {
    Faithful(s.lock, Counted(s.phases)) && IdleProgress(s.lock, Counted(s.phases))
  }

  lemma InitInv(tasks: nat)
    ensures Inv(Init(tasks)) && CancelInv(Init(tasks))
  {
    CountAway(tasks);
  }

  /** A step's effect on the counts alone. */
  lemma Effect(s: Sys, step: Step)
    requires Enabled(s, step) && !step.Cancel?
    ensures
      var s' := Apply(s, step);
      var q := s'.phases[step.t];
      && (q != Away ==> Moved(Counted(s.phases), s.phases[step.t], q, Counted(s'.phases)))
      && (q == Away ==>
            var c := Counted(s.phases[step.t := Away]);
            && Moved(Counted(s.phases), s.phases[step.t], Away, c)
            && Counted(s'.phases) == (if step.EndWrite? || s'.lock.readers == 0 then AllWoken(c) else c))
  {
    if step.EndRead? || step.EndWrite? {
      CountMove(s.phases, step.t, Away);
      CountWakeAll(s.phases[step.t := Away]);
    } else {
      CountMove(s.phases, step.t, Apply(s, step).phases[step.t]);
    }
  }

  /** A task in phase `p` looks at its guard and moves to phase `q`. */
  predicate Looks(l: Lock, p: Phase, q: Phase, l': Lock) {
    || (p.Away? && l' == TryRead(QueueReader(l)) && q == if ReadBlocked(QueueReader(l)) then AsleepR else Reading)
    || (p.WokenR? && l' == TryRead(l) && q == if ReadBlocked(l) then AsleepR else Reading)
    || (p.Away? && l' == TryWrite(QueueWriter(l)) && q == if WriteBlocked(QueueWriter(l)) then AsleepW else Writing)
    || (p.WokenW? && l' == TryWrite(l) && q == if WriteBlocked(l) then AsleepW else Writing)
  }

  /** A task in phase `p` releases the lock; `d` counts the others. */
  predicate Releases(l: Lock, p: Phase, d: Census, l': Lock, c': Census) {
    || (p.Reading? && l' == ReaderReleased(l) && c' == if l'.readers == 0 then AllWoken(d) else d)
    || (p.Writing? && l' == WriterReleased(l) && c' == AllWoken(d))
  }

  lemma LooksKeepsWakeups(l: Lock, c: Census, p: Phase, q: Phase, l': Lock, c': Census)
    requires Faithful(l, c) && NoLostWakeup(l, c) && Moved(c, p, q, c') && Looks(l, p, q, l')
    ensures Faithful(l', c') && NoLostWakeup(l', c') && (TurnHasReader(l) ==> TurnHasReader(l'))
  {
  }

  lemma ReleasesKeepsWakeups(l: Lock, c: Census, d: Census, p: Phase, l': Lock, c': Census)
    requires Faithful(l, c) && NoLostWakeup(l, c) && Moved(c, p, Away, d) && Releases(l, p, d, l', c')
    ensures Faithful(l', c') && NoLostWakeup(l', c') && (TurnHasReader(l) ==> TurnHasReader(l'))
  {
  }

  lemma StepWakeups(s: Sys, step: Step)
    requires Watchful(s) && Enabled(s, step) && !step.Cancel?
    ensures Watchful(Apply(s, step)) && (TurnHasReader(s.lock) ==> TurnHasReader(Apply(s, step).lock))
  {
    hide Faithful, NoLostWakeup, Moved, Counted, TurnHasReader;
    Effect(s, step);
    var s' := Apply(s, step);
    var l, c, l', c' := s.lock, Counted(s.phases), s'.lock, Counted(s'.phases);
    var p, q := s.phases[step.t], s'.phases[step.t];
    if q != Away {
      LooksKeepsWakeups(l, c, p, q, l', c');
    } else {
      ReleasesKeepsWakeups(l, c, Counted(s.phases[step.t := Away]), p, l', c');
    }
  }

  lemma StepInv(s: Sys, step: Step)
    requires Inv(s) && Enabled(s, step) && !step.Cancel?
    ensures Inv(Apply(s, step))
  {
    StepWakeups(s, step);
  }

  lemma StepCancelInv(s: Sys, step: Step)
    requires CancelInv(s) && Enabled(s, step)
    ensures CancelInv(Apply(s, step))
  {
    if step.Cancel? {
      CancelKeeps(s, step.t, step.next);
    } else {
      Effect(s, step);
      StepKeepsProgress(s, step);
    }
  }

  lemma StepKeepsProgress(s: Sys, step: Step)
    requires CancelInv(s) && Enabled(s, step) && !step.Cancel?
    ensures CancelInv(Apply(s, step))
  {
    hide Faithful, IdleProgress, Moved, Counted;
    Effect(s, step);
    var s' := Apply(s, step);
    var l, c, l', c' := s.lock, Counted(s.phases), s'.lock, Counted(s'.phases);
    var p, q := s.phases[step.t], s'.phases[step.t];
    if q != Away {
      LooksKeepsProgress(l, c, p, q, l', c');
    } else {
      ReleasesKeepsProgress(l, c, Counted(s.phases[step.t := Away]), p, l', c');
    }
  }

  lemma LooksKeepsProgress(l: Lock, c: Census, p: Phase, q: Phase, l': Lock, c': Census)
    requires Faithful(l, c) && IdleProgress(l, c) && Moved(c, p, q, c') && Looks(l, p, q, l')
    ensures Faithful(l', c') && IdleProgress(l', c')
  {
  }

  lemma ReleasesKeepsProgress(l: Lock, c: Census, d: Census, p: Phase, l': Lock, c': Census)
    requires Faithful(l, c) && IdleProgress(l, c) && Moved(c, p, Away, d) && Releases(l, p, d, l', c')
    ensures Faithful(l', c') && IdleProgress(l', c')
  {
  }

  /** `c` counts the tasks without the cancelled one, `c'` after the wakeup was passed on. */
  lemma CancelKeepsCounts(l: Lock, p: Phase, c0: Census, c: Census, c': Census)
    requires Waits(p) && Faithful(l, c0) && IdleProgress(l, c0) && Moved(c0, p, Away, c)
    requires
      || Moved(c, AsleepR, WokenR, c')
      || Moved(c, AsleepW, WokenW, c')
      || (c.asleepR == 0 && c.asleepW == 0 && c' == c)
    ensures Faithful(Abandon(l, p), c') && IdleProgress(Abandon(l, p), c')
  {
  }

  lemma WakeOneCounts(phases: seq<Phase>, next: nat)
    requires
      || (next < |phases| && Asleep(phases[next]))
      || (forall u | 0 <= u < |phases| :: !Asleep(phases[u]))
    ensures
      var c, c' := Counted(phases), Counted(WakeOne(phases, next));
      || Moved(c, AsleepR, WokenR, c')
      || Moved(c, AsleepW, WokenW, c')
      || (c.asleepR == 0 && c.asleepW == 0 && c' == c)
  {
    hide Counted, Moved;
    if next < |phases| && Asleep(phases[next]) {
      CountMove(phases, next, Wake(phases[next]));
    } else {
      assert WakeOne(phases, next) == phases;
      NobodyAsleep(phases);
    }
  }

  lemma CancelCounts(s: Sys, t: nat, next: nat)
    requires Enabled(s, Cancel(t, next))
    ensures
      var c, c' := Counted(s.phases[t := Away]), Counted(WakeOne(s.phases[t := Away], next));
      && Moved(Counted(s.phases), s.phases[t], Away, c)
      && (|| Moved(c, AsleepR, WokenR, c')
          || Moved(c, AsleepW, WokenW, c')
          || (c.asleepR == 0 && c.asleepW == 0 && c' == c))
  {
    hide Counted, Moved, WakeOne;
    CountMove(s.phases, t, Away);
    WakeOneCounts(s.phases[t := Away], next);
  }

  lemma NobodyAsleep(phases: seq<Phase>)
    requires forall u | 0 <= u < |phases| :: !Asleep(phases[u])
    ensures Counted(phases).asleepR == 0 && Counted(phases).asleepW == 0
  {
    assert AsleepR !in phases && AsleepW !in phases;
  }

  lemma CancelKeeps(s: Sys, t: nat, next: nat)
    requires CancelInv(s) && Enabled(s, Cancel(t, next))
    ensures CancelInv(Apply(s, Cancel(t, next)))
  {
    var p, ph := s.phases[t], s.phases[t := Away];
    var c, c' := Counted(ph), Counted(WakeOne(ph, next));
    CancelCounts(s, t, next);
    CancelKeepsCounts(s.lock, p, Counted(s.phases), c, c');
  }

  // ---- Theorems over runs ------------------------------------------------------------------

  predicate NoCancel(steps: seq<Step>) {
    forall i | 0 <= i < |steps| :: !steps[i].Cancel?
  }

  lemma {:induction false} RunInv(s: Sys, steps: seq<Step>)
    requires Inv(s) && Run(s, steps) && NoCancel(steps)
    ensures Inv(Final(s, steps))
    decreases |steps|
  {
    if steps != [] {
      StepInv(s, steps[0]);
      RunInv(Apply(s, steps[0]), steps[1..]);
    }
  }

  lemma {:induction false} RunCancelInv(s: Sys, steps: seq<Step>)
    requires CancelInv(s) && Run(s, steps)
    ensures CancelInv(Final(s, steps))
    decreases |steps|
  {
    if steps != [] {
      StepCancelInv(s, steps[0]);
      RunCancelInv(Apply(s, steps[0]), steps[1..]);
    }
  }

  lemma HoldersExclude(s: Sys, t: nat, u: nat)
    requires Faithful(s.lock, Counted(s.phases)) && t != u && In(s, t, Writing)
    ensures s.lock.writerActive && !In(s, u, Writing) && !In(s, u, Reading)
  {
    var ph := s.phases;
    CountMove(ph, t, Away);
    var ph' := ph[t := Away];
    assert u < |ph| ==> ph'[u] == ph[u] && ph'[u] in multiset(ph');
    assert ph[t] in multiset(ph);
  }

  ghost predicate Reachable(s: Sys) {
    exists tasks: nat, steps: seq<Step> :: Run(Init(tasks), steps) && s == Final(Init(tasks), steps)
  }

  ghost predicate ReachableUncancelled(s: Sys) {
    exists tasks: nat, steps: seq<Step> ::
      Run(Init(tasks), steps) && NoCancel(steps) && s == Final(Init(tasks), steps)
  }

  lemma ReachableCancelInv(s: Sys)
    requires Reachable(s)
    ensures CancelInv(s)
  {
    var tasks: nat, steps: seq<Step> :| Run(Init(tasks), steps) && s == Final(Init(tasks), steps);
    InitInv(tasks);
    RunCancelInv(Init(tasks), steps);
  }

  lemma ReachableInv(s: Sys)
    requires ReachableUncancelled(s)
    ensures Inv(s)
  {
    var tasks: nat, steps: seq<Step> :|
      Run(Init(tasks), steps) && NoCancel(steps) && s == Final(Init(tasks), steps);
    InitInv(tasks);
    RunInv(Init(tasks), steps);
  }

  /** A writer holds the lock alone, whatever was cancelled on the way. */
  lemma MutualExclusion(s: Sys, t: nat, u: nat)
    requires Reachable(s) && t != u && In(s, t, Writing)
    ensures !In(s, u, Writing) && !In(s, u, Reading)
  {
    ReachableCancelInv(s);
    HoldersExclude(s, t, u);
  }

  /** Without cancellation, every task that sleeps would go on waiting if it looked. */
  lemma SleepersAreBlocked(s: Sys, t: nat)
    requires ReachableUncancelled(s)
    ensures In(s, t, AsleepR) ==> ReadBlocked(s.lock)
    ensures In(s, t, AsleepW) ==> WriteBlocked(s.lock)
  {
    ReachableInv(s);
    assert t < |s.phases| ==> s.phases[t] in multiset(s.phases);
  }

  predicate Enters(s: Sys, step: Step)
    requires Enabled(s, step)
  {
    match step
    case StartRead(_) => !ReadBlocked(QueueReader(s.lock))
    case WakeRead(_) => !ReadBlocked(s.lock)
    case StartWrite(_) => !WriteBlocked(QueueWriter(s.lock))
    case WakeWrite(_) => !WriteBlocked(s.lock)
    case _ => false
  }

  /** A woken task whose next look at its guard lets it in. */
  ghost predicate Entering(s: Sys, step: Step) {
    (step.WakeRead? || step.WakeWrite?) && Enabled(s, step) && Enters(s, step)
  }

  /** Cancelled or not, an idle lock with waiters has a woken task that the next look lets in. */
  lemma IdleLockHasEntrant(s: Sys)
    requires Reachable(s) && Idle(s.lock) && HasWaiters(s.lock)
    ensures exists step :: Entering(s, step)
  {
    ReachableCancelInv(s);
    var step := Entrant(s);
    assert Entering(s, step);
  }

  lemma Entrant(s: Sys) returns (step: Step)
    requires SomeoneCanEnter(s.lock, Counted(s.phases))
    ensures (step.WakeRead? || step.WakeWrite?) && Enabled(s, step) && Enters(s, step)
  {
    var p := if Counted(s.phases).wokenR > 0 && !ReadBlocked(s.lock) then WokenR else WokenW;
    assert p in multiset(s.phases);
    var t: nat :| t < |s.phases| && s.phases[t] == p;
    step := if p == WokenR then WakeRead(t) else WakeWrite(t);
  }

  function Wakes(steps: seq<Step>): nat {
    if steps == [] then 0
    else (if steps[0].WakeRead? || steps[0].WakeWrite? then 1 else 0) + Wakes(steps[1..])
  }

  predicate NobodyEnters(s: Sys, steps: seq<Step>)
    requires Run(s, steps)
    decreases |steps|
  {
    steps != [] ==> !Enters(s, steps[0]) && NobodyEnters(Apply(s, steps[0]), steps[1..])
  }

  /** From an idle lock with waiters, fewer than all woken tasks look in vain: however arrivals are
      mixed in, a waiter or an arrival has entered before the last woken task looked. */
  lemma {:induction false} EntryWithinWokenTasks(s: Sys, steps: seq<Step>)
    requires CancelInv(s) && Idle(s.lock) && HasWaiters(s.lock)
    requires Run(s, steps) && NoCancel(steps) && NobodyEnters(s, steps)
    ensures Wakes(steps) < Counted(s.phases).wokenR + Counted(s.phases).wokenW
    decreases |steps|
  {
    if steps != [] {
      var s' := Apply(s, steps[0]);
      StepCancelInv(s, steps[0]);
      VainStep(s, steps[0]);
      EntryWithinWokenTasks(s', steps[1..]);
    }
  }

  lemma VainStep(s: Sys, step: Step)
    requires CancelInv(s) && Idle(s.lock) && HasWaiters(s.lock)
    requires Enabled(s, step) && !step.Cancel? && !Enters(s, step)
    ensures
      var s' := Apply(s, step);
      var c, c' := Counted(s.phases), Counted(s'.phases);
      && Idle(s'.lock) && HasWaiters(s'.lock)
      && c'.wokenR + c'.wokenW + Wakes([step]) == c.wokenR + c.wokenW
  {
    assert s.phases[step.t] in multiset(s.phases);
    assert !step.EndRead? && !step.EndWrite?;
    CountMove(s.phases, step.t, Apply(s, step).phases[step.t]);
    assert [step][1..] == [];
  }

  // ---- Bounded bypass of readers -----------------------------------------------------------

  predicate ReaderWaits(s: Sys, r: nat) {
    In(s, r, AsleepR) || In(s, r, WokenR)
  }

  /** Nothing is cancelled, and reader `r` waits from start to end. */
  predicate Waiting(s: Sys, steps: seq<Step>, r: nat)
    requires Run(s, steps)
    decreases |steps|
  {
    ReaderWaits(s, r) && (steps != [] ==> !steps[0].Cancel? && Waiting(Apply(s, steps[0]), steps[1..], r))
  }

  function WriterEntries(s: Sys, steps: seq<Step>): nat
    requires Run(s, steps)
    decreases |steps|
  {
    if steps == [] then 0
    else
      (if (steps[0].StartWrite? || steps[0].WakeWrite?) && Enters(s, steps[0]) then 1 else 0)
      + WriterEntries(Apply(s, steps[0]), steps[1..])
  }

  /** How many more writers can overtake a reader that waits now. */
  function Budget(l: Lock): nat {
    if l.writerActive || l.readerTurn then 0 else 1
  }

  /** `release_read` ends the readers' turn although a reader that was promised it still waits. */
  predicate LosesTurn(l: Lock, step: Step) {
    step.EndRead? && l.readers == 1 && l.readerTurn && l.waitingReaders > 0
  }

  function TurnsLost(s: Sys, steps: seq<Step>): nat
    requires Run(s, steps)
    decreases |steps|
  {
    if steps == [] then 0
    else (if LosesTurn(s.lock, steps[0]) then 1 else 0) + TurnsLost(Apply(s, steps[0]), steps[1..])
  }

  lemma WaiterCounted(s: Sys, r: nat)
    requires Faithful(s.lock, Counted(s.phases)) && ReaderWaits(s, r)
    ensures s.lock.waitingReaders > 0
    ensures Counted(s.phases).asleepR == 0 ==> WokenR in s.phases
  {
    assert s.phases[r] in multiset(s.phases);
  }

  lemma HolderCounted(s: Sys, t: nat)
    requires Faithful(s.lock, Counted(s.phases)) && t < |s.phases|
    ensures s.phases[t] == Writing ==> s.lock.writerActive
    ensures s.phases[t] == Reading ==> s.lock.readers > 0 && !s.lock.writerActive
  {
    assert s.phases[t] in multiset(s.phases);
  }

  lemma BudgetPays(s: Sys, step: Step, r: nat)
    requires Inv(s) && Enabled(s, step) && !step.Cancel?
    requires ReaderWaits(s, r) && ReaderWaits(Apply(s, step), r)
    ensures WriterEntries(s, [step]) + Budget(Apply(s, step).lock) ==
            Budget(s.lock) + (if LosesTurn(s.lock, step) then 1 else 0)
  {
    assert [step][1..] == [];
    WaiterCounted(s, r);
    HolderCounted(s, step.t);
    hide Counted, Faithful, NoLostWakeup;
  }

  /** The exact account. Writers that pass a waiting reader, and those that still may, are the one that
      was due at the start and one for each lost turn. */
  lemma {:induction false} BypassIsExact(s: Sys, steps: seq<Step>, r: nat)
    requires Inv(s) && Run(s, steps) && Waiting(s, steps, r)
    ensures WriterEntries(s, steps) + Budget(Final(s, steps).lock) == Budget(s.lock) + TurnsLost(s, steps)
    decreases |steps|
  {
    if steps != [] {
      hide Inv, Apply, Enabled, Budget, LosesTurn, Enters, ReaderWaits;
      StepInv(s, steps[0]);
      BudgetPays(s, steps[0], r);
      FirstEntry(s, steps);
      BypassIsExact(Apply(s, steps[0]), steps[1..], r);
    }
  }

  lemma FirstEntry(s: Sys, steps: seq<Step>)
    requires Run(s, steps) && steps != []
    ensures WriterEntries(s, steps) == WriterEntries(s, [steps[0]]) + WriterEntries(Apply(s, steps[0]), steps[1..])
  {
    assert [steps[0]][1..] == [];
  }

  /** While a reader waits and no turn is lost, at most one writer becomes active, and none once a writer
      was active or the readers were granted their turn. */
  lemma BoundedBypass(s: Sys, steps: seq<Step>, r: nat)
    requires Inv(s) && Run(s, steps) && Waiting(s, steps, r) && TurnsLost(s, steps) == 0
    ensures WriterEntries(s, steps) <= Budget(s.lock) <= 1
  {
    BypassIsExact(s, steps, r);
  }

  /** `steps` lets more writers pass the waiting reader `r` than were due. */
  ghost predicate Overtakes(s: Sys, steps: seq<Step>, r: nat) {
    Run(s, steps) && Waiting(s, steps, r) && WriterEntries(s, steps) > Budget(s.lock)
  }

  /** `steps` up to its `k`-th step, and then a writer arrives. */
  function ThenWriter(steps: seq<Step>, k: nat, t: nat): seq<Step>
    requires k <= |steps|
  {
    steps[..k] + [StartWrite(t)]
  }

  ghost predicate OvertakenAt(s: Sys, steps: seq<Step>, r: nat, k: nat, t: nat) {
    k <= |steps| && Overtakes(s, ThenWriter(steps, k, t), r)
  }

  /** If and only if: no arriving writer can pass a waiting reader out of turn at any time of a run exactly
      when no reader turn is lost in it. */
  lemma OvertakenExactlyWhenTurnLost(s: Sys, steps: seq<Step>, r: nat)
    requires Inv(s) && Run(s, steps) && Waiting(s, steps, r)
    ensures (exists k: nat, t: nat :: OvertakenAt(s, steps, r, k, t)) <==> TurnsLost(s, steps) > 0
  {
    if TurnsLost(s, steps) > 0 {
      var k, t := LostAt(s, steps, r);
      assert OvertakenAt(s, steps, r, k, t);
    }
    forall k: nat, t: nat | TurnsLost(s, steps) == 0 && k <= |steps| && Overtakes(s, ThenWriter(steps, k, t), r)
      ensures false
    {
      PrefixKeepsTurns(s, steps, k, t);
      BypassIsExact(s, ThenWriter(steps, k, t), r);
      assert false;
    }
  }

  lemma {:induction false} PrefixKeepsTurns(s: Sys, steps: seq<Step>, k: nat, t: nat)
    requires k <= |steps| && Run(s, steps) && Run(s, ThenWriter(steps, k, t)) && TurnsLost(s, steps) == 0
    ensures TurnsLost(s, ThenWriter(steps, k, t)) == 0
    decreases k
  {
    if k > 0 {
      assert ThenWriter(steps, k, t)[1..] == ThenWriter(steps[1..], k - 1, t);
      PrefixKeepsTurns(Apply(s, steps[0]), steps[1..], k - 1, t);
    } else {
      assert ThenWriter(steps, 0, t) == [StartWrite(t)];
      assert [StartWrite(t)][1..] == [];
    }
  }

  /** The reader that ended the turn may come back as a writer at once. */
  lemma LostTurnOvertakes(s: Sys, step: Step, r: nat)
    requires Inv(s) && Enabled(s, step) && LosesTurn(s.lock, step) && ReaderWaits(s, r)
    ensures
      var s' := Apply(s, step);
      && ReaderWaits(s', r) && Enabled(s', StartWrite(step.t)) && Enters(s', StartWrite(step.t))
      && ReaderWaits(Apply(s', StartWrite(step.t)), r)
  {
    HolderCounted(s, step.t);
    hide Counted, Faithful, NoLostWakeup;
  }

  lemma {:induction false} LostAt(s: Sys, steps: seq<Step>, r: nat) returns (k: nat, t: nat)
    requires Inv(s) && Run(s, steps) && Waiting(s, steps, r) && TurnsLost(s, steps) > 0
    ensures k <= |steps| && Run(s, ThenWriter(steps, k, t)) && Waiting(s, ThenWriter(steps, k, t), r)
    ensures WriterEntries(s, ThenWriter(steps, k, t)) > Budget(s.lock)
    decreases |steps|
  {
    var s' := Apply(s, steps[0]);
    if LosesTurn(s.lock, steps[0]) {
      k, t := 1, steps[0].t;
      LostTurnOvertakes(s, steps[0], r);
      TwoSteps(s, steps[0], StartWrite(t), r);
      assert ThenWriter(steps, 1, t) == [steps[0], StartWrite(t)];
    } else {
      StepInv(s, steps[0]);
      k, t := LostAt(s', steps[1..], r);
      BudgetPays(s, steps[0], r);
      assert ThenWriter(steps, k + 1, t)[1..] == ThenWriter(steps[1..], k, t);
      FirstEntry(s, ThenWriter(steps, k + 1, t));
      k := k + 1;
    }
  }

  lemma TwoSteps(s: Sys, a: Step, b: Step, r: nat)
    requires Enabled(s, a) && Enabled(Apply(s, a), b) && !a.Cancel? && b.StartWrite? && Enters(Apply(s, a), b)
    requires ReaderWaits(s, r) && ReaderWaits(Apply(s, a), r) && ReaderWaits(Apply(Apply(s, a), b), r)
    ensures Run(s, [a, b]) && Waiting(s, [a, b], r) && WriterEntries(s, [a, b]) >= 1
  {
    hide Apply, Enabled, Enters, ReaderWaits;
    var s' := Apply(s, a);
    assert [a, b][1..] == [b];
    assert [b][1..] == [];
    assert Run(Apply(s', b), []) && Waiting(Apply(s', b), [], r);
    assert Run(s', [b]) && Waiting(s', [b], r) && WriterEntries(s', [b]) == 1;
  }

  /** A reader that waits while a writer releases enters before any other writer does, if and only if no
      turn is lost meanwhile: then no writer passes it, and otherwise one that arrives can. */
  lemma WaitersEnterBeforeNextWriter(s: Sys, t: nat, steps: seq<Step>, r: nat)
    requires ReachableUncancelled(s) && Enabled(s, EndWrite(t))
    requires Run(Apply(s, EndWrite(t)), steps) && Waiting(Apply(s, EndWrite(t)), steps, r)
    ensures
      var s' := Apply(s, EndWrite(t));
      && Budget(s'.lock) == 0
      && (TurnsLost(s', steps) == 0 ==> WriterEntries(s', steps) == 0)
      && (TurnsLost(s', steps) > 0 <==> exists k: nat, u: nat :: OvertakenAt(s', steps, r, k, u))
  {
    ReachableInv(s);
    var s' := Apply(s, EndWrite(t));
    StepInv(s, EndWrite(t));
    WaiterCounted(s', r);
    TurnGranted(s, t);
    hide Inv, Apply;
    BypassIsExact(s', steps, r);
    OvertakenExactlyWhenTurnLost(s', steps, r);
  }

  lemma TurnGranted(s: Sys, t: nat)
    requires Enabled(s, EndWrite(t)) && Apply(s, EndWrite(t)).lock.waitingReaders > 0
    ensures Budget(Apply(s, EndWrite(t)).lock) == 0
  {
  }

  /** A reader that waits from the moment it arrived is overtaken by at most one writer more than turns
      are lost, and by at most one when none is. */
  lemma ReaderOvertakenAtMostOnce(s: Sys, steps: seq<Step>, r: nat)
    requires ReachableUncancelled(s) && Run(s, steps) && Waiting(s, steps, r)
    ensures WriterEntries(s, steps) <= 1 + TurnsLost(s, steps)
  {
    ReachableInv(s);
    BypassIsExact(s, steps, r);
  }

  // ---- The scheduling assumption -----------------------------------------------------------

  /** No holder releases before every notified waiter has looked: the bodies that run under the lock
      suspend, so the event loop gets round to the waiters first. */
  predicate Disciplined(s: Sys, step: Step) {
    step.EndRead? || step.EndWrite? ==> WokenR !in s.phases && WokenW !in s.phases
  }

  predicate DisciplinedRun(s: Sys, steps: seq<Step>)
    requires Run(s, steps)
    decreases |steps|
  {
    steps != [] ==> Disciplined(s, steps[0]) && DisciplinedRun(Apply(s, steps[0]), steps[1..])
  }

  lemma DisciplineKeepsTurn(s: Sys, step: Step, r: nat)
    requires Inv(s) && Disciplined(s, step) && ReaderWaits(s, r)
    ensures !LosesTurn(s.lock, step)
  {
    WaiterCounted(s, r);
  }

  /** Under the scheduling assumption no turn is lost. */
  lemma {:induction false} DisciplineKeepsTurns(s: Sys, steps: seq<Step>, r: nat)
    requires Inv(s) && Run(s, steps) && Waiting(s, steps, r) && DisciplinedRun(s, steps)
    ensures TurnsLost(s, steps) == 0
    decreases |steps|
  {
    if steps != [] {
      hide Inv, Apply, Enabled, LosesTurn, Disciplined, ReaderWaits;
      StepInv(s, steps[0]);
      DisciplineKeepsTurn(s, steps[0], r);
      DisciplineKeepsTurns(Apply(s, steps[0]), steps[1..], r);
    }
  }

  // ---- With cancelled waiters ---------------------------------------------------------------

  /** A task in phase `p` other than the cancelled one and the one that its wakeup is passed on to. */
  predicate OtherSleeps(s: Sys, t: nat, next: nat, p: Phase) {
    exists u | 0 <= u < |s.phases| :: u != t && u != next && s.phases[u] == p
  }

  /** The cancelled task was all that held others up, and more than one of them sleeps: the last waiting
      writer that readers made way for, or the last waiting reader of a turn that writers stand down for. */
  predicate Strands(s: Sys, t: nat, next: nat)
    requires t < |s.phases|
  {
    var l, p := s.lock, s.phases[t];
    || (&& (p.AsleepW? || p.WokenW?) && !l.writerActive && !l.readerTurn && l.waitingWriters == 1
        && OtherSleeps(s, t, next, AsleepR))
    || (&& (p.AsleepR? || p.WokenR?) && !l.writerActive && l.readerTurn && l.readers == 0 && l.waitingReaders == 1
        && OtherSleeps(s, t, next, AsleepW))
  }

  lemma OthersCounted(s: Sys, t: nat, next: nat, p: Phase)
    requires Enabled(s, Cancel(t, next)) && Asleep(p)
    ensures OtherSleeps(s, t, next, p) <==> multiset(WakeOne(s.phases[t := Away], next))[p] > 0
  {
    var ph := WakeOne(s.phases[t := Away], next);
    assert p in multiset(ph) <==> p in ph;
    assert forall u | 0 <= u < |ph| :: ph[u] == p <==> u != t && u != next && s.phases[u] == p;
    if p in ph {
      var u :| 0 <= u < |ph| && ph[u] == p;
      assert s.phases[u] == p;
    }
    if OtherSleeps(s, t, next, p) {
      var u :| 0 <= u < |s.phases| && u != t && u != next && s.phases[u] == p;
      assert ph[u] == p;
    }
  }

  /** `left` counts the tasks after the wakeup was passed on. */
  lemma CancelWakeups(l: Lock, p: Phase, c0: Census, c: Census, left: Census)
    requires Waits(p) && Faithful(l, c0) && NoLostWakeup(l, c0) && Moved(c0, p, Away, c)
    requires
      || Moved(c, AsleepR, WokenR, left)
      || Moved(c, AsleepW, WokenW, left)
      || (c.asleepR == 0 && c.asleepW == 0 && left == c)
    ensures Faithful(Abandon(l, p), left)
    ensures NoLostWakeup(Abandon(l, p), left) <==>
      !(|| ((p.AsleepW? || p.WokenW?) && !l.writerActive && !l.readerTurn && l.waitingWriters == 1 && left.asleepR > 0)
        || ((p.AsleepR? || p.WokenR?) && !l.writerActive && l.readerTurn && l.readers == 0 && l.waitingReaders == 1
            && left.asleepW > 0))
  {
  }

  /** Exactly which cancellations lose a wakeup. */
  lemma CancelLosesWakeupExactlyWhenStranding(s: Sys, t: nat, next: nat)
    requires Watchful(s) && Enabled(s, Cancel(t, next))
    ensures Watchful(Apply(s, Cancel(t, next))) <==> !Strands(s, t, next)
  {
    CancelCounts(s, t, next);
    OthersCounted(s, t, next, AsleepR);
    OthersCounted(s, t, next, AsleepW);
    var left := Counted(WakeOne(s.phases[t := Away], next));
    hide OtherSleeps, Moved, Faithful, NoLostWakeup, WakeOne;
    CancelWakeups(s.lock, s.phases[t], Counted(s.phases), Counted(s.phases[t := Away]), left);
  }

  predicate NeverStrands(s: Sys, steps: seq<Step>)
    requires Run(s, steps)
    decreases |steps|
  {
    steps != [] ==>
      && (steps[0].Cancel? ==> !Strands(s, steps[0].t, steps[0].next))
      && NeverStrands(Apply(s, steps[0]), steps[1..])
  }

  predicate AlwaysWatchful(s: Sys, steps: seq<Step>)
    requires Run(s, steps)
    decreases |steps|
  {
    Watchful(s) && (steps != [] ==> AlwaysWatchful(Apply(s, steps[0]), steps[1..]))
  }

  lemma {:induction false} WatchfulExactlyWhenNothingStrands(s: Sys, steps: seq<Step>)
    requires Watchful(s) && Run(s, steps)
    ensures AlwaysWatchful(s, steps) <==> NeverStrands(s, steps)
    decreases |steps|
  {
    if steps != [] {
      hide Watchful, Apply, Enabled, Strands;
      var step, s' := steps[0], Apply(s, steps[0]);
      if step.Cancel? {
        CancelLosesWakeupExactlyWhenStranding(s, step.t, step.next);
      } else {
        StepWakeups(s, step);
      }
      if Watchful(s') {
        WatchfulExactlyWhenNothingStrands(s', steps[1..]);
      } else {
        assert !AlwaysWatchful(s', steps[1..]);
      }
    }
  }

  /** In a faithful state no wakeup is lost exactly when every sleeping task's guard is true. */
  lemma WatchfulMeans(s: Sys)
    requires Faithful(s.lock, Counted(s.phases))
    ensures Watchful(s) <==>
      forall t | 0 <= t < |s.phases| ::
        (s.phases[t].AsleepR? ==> ReadBlocked(s.lock)) && (s.phases[t].AsleepW? ==> WriteBlocked(s.lock))
  {
    var m := multiset(s.phases);
    assert AsleepR in m <==> AsleepR in s.phases;
    assert AsleepW in m <==> AsleepW in s.phases;
    hide ReadBlocked, WriteBlocked, Faithful;
  }

  /** With cancellations, in every run: at all times every sleeping task's guard is true, if and only if no
      cancellation of the run strands. */
  lemma NoLostWakeupExactlyWhenNothingStrands(tasks: nat, steps: seq<Step>)
    requires Run(Init(tasks), steps)
    ensures AlwaysWatchful(Init(tasks), steps) <==> NeverStrands(Init(tasks), steps)
  {
    InitInv(tasks);
    WatchfulExactlyWhenNothingStrands(Init(tasks), steps);
  }

  /** Task 0 reads; task 3 sleeps behind a writer that has given up. */
  const LEFT_ASLEEP: Sys := Sys(Lock(1, false, 0, 2, false), [Reading, Away, WokenR, AsleepR])

  ghost predicate SleepsUnblocked(s: Sys, t: nat) {
    Reachable(s) && In(s, t, AsleepR) && !ReadBlocked(s.lock)
  }

  const WRITER_WAITS: Sys := Sys(Lock(1, false, 1, 0, false), [Reading, AsleepW, Away, Away])

  lemma WriterComes()
    ensures Run(Init(4), [StartRead(0), StartWrite(1)]) && Final(Init(4), [StartRead(0), StartWrite(1)]) == WRITER_WAITS
  {
    hide Run, Final;
    assert AllAway(4) == [Away, Away, Away, Away];
    var s1 := Apply(Init(4), StartRead(0));
    assert s1 == Sys(Lock(1, false, 0, 0, false), [Reading, Away, Away, Away]);
    assert Apply(s1, StartWrite(1)) == WRITER_WAITS;
    RunTwo(Init(4), StartRead(0), StartWrite(1));
  }

  lemma RunTwo(s: Sys, a: Step, b: Step)
    requires Enabled(s, a) && Enabled(Apply(s, a), b)
    ensures Run(s, [a, b]) && Final(s, [a, b]) == Apply(Apply(s, a), b)
  {
    hide Apply, Enabled;
    var s' := Apply(s, a);
    assert [a, b][1..] == [b];
    assert [b][1..] == [];
    assert Run(Apply(s', b), []);
    assert Run(s', [b]) && Final(s', [b]) == Apply(s', b);
  }

  lemma WriterGivesUp()
    ensures Run(WRITER_WAITS, [StartRead(2), StartRead(3), Cancel(1, 2)])
    ensures Final(WRITER_WAITS, [StartRead(2), StartRead(3), Cancel(1, 2)]) == LEFT_ASLEEP
  {
    var steps := [StartRead(2), StartRead(3), Cancel(1, 2)];
    var s1 := Apply(WRITER_WAITS, StartRead(2));
    assert s1 == Sys(Lock(1, false, 1, 1, false), [Reading, AsleepW, AsleepR, Away]);
    var s2 := Apply(s1, StartRead(3));
    assert s2 == Sys(Lock(1, false, 1, 2, false), [Reading, AsleepW, AsleepR, AsleepR]);
    assert Apply(s2, Cancel(1, 2)) == LEFT_ASLEEP;
    assert steps[1..] == [StartRead(3), Cancel(1, 2)];
    assert steps[1..][1..] == [Cancel(1, 2)];
    assert steps[1..][1..][1..] == [];
  }

  /** `SleepersAreBlocked` needs that nothing is cancelled: the wakeup that a cancelled writer passes on
      reaches one of the readers it held up, and the others sleep on although nothing blocks them. */
  lemma CancelLeavesSleepersUnblocked()
    ensures exists s, t :: SleepsUnblocked(s, t)
  {
    var a, b := [StartRead(0), StartWrite(1)], [StartRead(2), StartRead(3), Cancel(1, 2)];
    WriterComes();
    WriterGivesUp();
    hide Run, Final;
    RunAppend(Init(4), a, b);
    assert Reachable(LEFT_ASLEEP);
    assert SleepsUnblocked(LEFT_ASLEEP, 3);
  }

  // ---- Without the scheduling assumption ---------------------------------------------------

  /** Reader 0 has been notified but not scheduled; tasks 1 and 2 are away. */
  const PASSED_OVER: Sys := Sys(Lock(0, false, 0, 1, false), [WokenR, Away, Away])

  const ROUND: seq<Step> := [StartWrite(1), EndWrite(1), StartRead(2), EndRead(2)]

  function Repeat(loop: seq<Step>, n: nat): seq<Step> {
    if n == 0 then [] else loop + Repeat(loop, n - 1)
  }

  lemma OneRound()
    ensures Run(PASSED_OVER, ROUND) && Final(PASSED_OVER, ROUND) == PASSED_OVER
    ensures WriterEntries(PASSED_OVER, ROUND) == 1
  {
    var s1 := Apply(PASSED_OVER, StartWrite(1));
    assert s1 == Sys(Lock(0, true, 0, 1, false), [WokenR, Writing, Away]);
    var s2 := Apply(s1, EndWrite(1));
    assert s2 == Sys(Lock(0, false, 0, 1, true), [WokenR, Away, Away]);
    var s3 := Apply(s2, StartRead(2));
    assert s3 == Sys(Lock(1, false, 0, 1, true), [WokenR, Away, Reading]);
    assert Apply(s3, EndRead(2)) == PASSED_OVER;
    assert ROUND[1..] == [EndWrite(1), StartRead(2), EndRead(2)];
    assert ROUND[1..][1..] == [StartRead(2), EndRead(2)];
    assert ROUND[1..][1..][1..] == [EndRead(2)];
    assert ROUND[1..][1..][1..][1..] == [];
  }

  lemma {:induction false} RunAppend(s: Sys, a: seq<Step>, b: seq<Step>)
    requires Run(s, a) && Run(Final(s, a), b)
    ensures Run(s, a + b) && Final(s, a + b) == Final(Final(s, a), b)
    ensures WriterEntries(s, a + b) == WriterEntries(s, a) + WriterEntries(Final(s, a), b)
    decreases |a|
  {
    if a == [] {
      assert a + b == b;
    } else {
      assert (a + b)[1..] == a[1..] + b;
      RunAppend(Apply(s, a[0]), a[1..], b);
    }
  }

  lemma {:induction false} RunRepeat(s: Sys, loop: seq<Step>, n: nat)
    requires Run(s, loop) && Final(s, loop) == s && WriterEntries(s, loop) == 1
    ensures Run(s, Repeat(loop, n)) && Final(s, Repeat(loop, n)) == s
    ensures WriterEntries(s, Repeat(loop, n)) == n
    ensures forall step | step in Repeat(loop, n) :: step in loop
  {
    if n > 0 {
      RunRepeat(s, loop, n - 1);
      RunAppend(s, loop, Repeat(loop, n - 1));
    }
  }

  /** A run from `s` in which nothing is cancelled and task `t` is not scheduled. */
  ghost predicate PassesOver(s: Sys, steps: seq<Step>, t: nat) {
    Run(s, steps) && NoCancel(steps) && forall step <- steps :: step.t != t
  }

  /** If holders may release before notified readers are scheduled, there is no bound: for every `n`
      a run lets `n` writers pass reader 0, which stays notified and is never scheduled. */
  lemma UnboundedBypassWithoutDiscipline(n: nat)
    ensures exists steps ::
      PassesOver(PASSED_OVER, steps, 0) && WriterEntries(PASSED_OVER, steps) == n
          && Final(PASSED_OVER, steps) == PASSED_OVER
  {
    OneRound();
    RunRepeat(PASSED_OVER, ROUND, n);
    var steps := Repeat(ROUND, n);
    assert forall i | 0 <= i < |steps| :: steps[i] in steps;
    assert PassesOver(PASSED_OVER, steps, 0);
  }

  lemma PassedOverIsReachable()
    ensures ReachableUncancelled(PASSED_OVER)
  {
    var a, b := [StartWrite(1), StartRead(0), EndWrite(1)], [StartRead(2), EndRead(2)];
    ReaderLetDown();
    OvertakenByReader();
    RunAppend(Init(3), a, b);
    assert NoCancel(a + b);
  }

  const LET_DOWN: Sys := Sys(Lock(0, false, 0, 1, true), [WokenR, Away, Away])

  lemma ReaderLetDown()
    ensures Run(Init(3), [StartWrite(1), StartRead(0), EndWrite(1)])
    ensures Final(Init(3), [StartWrite(1), StartRead(0), EndWrite(1)]) == LET_DOWN
  {
    var steps := [StartWrite(1), StartRead(0), EndWrite(1)];
    assert AllAway(3) == [Away, Away, Away];
    var s1 := Apply(Init(3), StartWrite(1));
    assert s1 == Sys(Lock(0, true, 0, 0, false), [Away, Writing, Away]);
    var s2 := Apply(s1, StartRead(0));
    assert s2 == Sys(Lock(0, true, 0, 1, false), [AsleepR, Writing, Away]);
    assert Apply(s2, EndWrite(1)) == LET_DOWN;
    assert steps[1..] == [StartRead(0), EndWrite(1)];
    assert steps[1..][1..] == [EndWrite(1)];
    assert steps[1..][1..][1..] == [];
  }

  lemma OvertakenByReader()
    ensures Run(LET_DOWN, [StartRead(2), EndRead(2)])
    ensures Final(LET_DOWN, [StartRead(2), EndRead(2)]) == PASSED_OVER
  {
    var steps := [StartRead(2), EndRead(2)];
    var s1 := Apply(LET_DOWN, StartRead(2));
    assert s1 == Sys(Lock(1, false, 0, 1, true), [WokenR, Away, Reading]);
    assert Apply(s1, EndRead(2)) == PASSED_OVER;
    assert steps[1..] == [EndRead(2)];
    assert steps[1..][1..] == [];
  }
}
