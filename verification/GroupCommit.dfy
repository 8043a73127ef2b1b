/** Group commit in `SQLiteDurability`: appends queue, one drain task commits everything queued so far
    in one transaction, and a waiter is released only after its row's commit. Rows are numbered in
    the order `append` queued them. */
module GroupCommit {

  datatype Outcome = Pending | Succeeded | Failed | Cancelled

  /** A run of `_drain_appends`: at its loop guard, inside a transaction with the first `inserted` rows
      executed, past the commit or the rollback with the futures still to settle, or returned. */
  datatype Drain =
    | AtGuard
    | InTransaction(batch: seq<nat>, inserted: nat)
    | Committed(batch: seq<nat>)
    | RolledBack(batch: seq<nat>)
    | Returned

  datatype State = State(
    queue: seq<nat>,          // _append_queue
    futures: seq<Outcome>,    // future of each row ever queued
    tasks: seq<Drain>,        // every drain task created; _drain_task is the last one
    committed: seq<nat>,      // rows in the database, in commit order
    dropped: set<nat>)        // rows of rolled back batches

  /** A batch fails at its BEGIN, an insert or its COMMIT. Whether the database then rolls back or keeps the
      transaction open, its rows are never committed. */
  datatype Step =
    | Append
    | Cancel(row: nat)
    | Guard(k: nat) | Insert(k: nat) | Fail(k: nat) | Commit(k: nat) | Settle(k: nat)

  const INIT: State := State([], [], [], [], {})

  predicate Enabled(s: State, step: Step) {
    match step
    case Append => true
    case Cancel(row) => row < |s.futures| && s.futures[row] == Pending
    case Guard(k) => k < |s.tasks| && s.tasks[k].AtGuard?
    case Insert(k) => k < |s.tasks| && s.tasks[k].InTransaction? && s.tasks[k].inserted < |s.tasks[k].batch|
    case Fail(k) => k < |s.tasks| && s.tasks[k].InTransaction?
    case Commit(k) => k < |s.tasks| && s.tasks[k].InTransaction? && s.tasks[k].inserted == |s.tasks[k].batch|
    case Settle(k) => k < |s.tasks| && (s.tasks[k].Committed? || s.tasks[k].RolledBack?)
  }

  /** `append`: queue the row with its future, and start a drain task unless one is running. */
  function Appended(s: State): State {
    var s' := s.(queue := s.queue + [|s.futures|], futures := s.futures + [Pending]);
    if s.tasks == [] || s.tasks[|s.tasks| - 1].Returned? then s'.(tasks := s.tasks + [AtGuard]) else s'
  }

  /** The loop over a batch that sets every future that is not done yet. */
  function Settled(futures: seq<Outcome>, batch: seq<nat>, outcome: Outcome): (settled: seq<Outcome>)
    requires forall row <- batch :: row < |futures|
    ensures |settled| == |futures|
  {
    seq(|futures|, row requires 0 <= row < |futures| =>
      if row in batch && futures[row] == Pending then outcome else futures[row])
  }

  predicate RowsExist(s: State) {
    forall k | 0 <= k < |s.tasks| :: forall row <- Batch(s.tasks[k]) :: row < |s.futures|
  }

  function Batch(t: Drain): seq<nat> {
    if t.AtGuard? || t.Returned? then [] else t.batch
  }

  function Apply(s: State, step: Step): State
    requires Enabled(s, step) && RowsExist(s)
  {
    match step
    case Append => Appended(s)
    case Cancel(row) => s.(futures := s.futures[row := Cancelled])
    case Guard(k) =>
      if s.queue == [] then s.(tasks := s.tasks[k := Returned])
      else s.(tasks := s.tasks[k := InTransaction(s.queue, 0)], queue := [])
    case Insert(k) => s.(tasks := s.tasks[k := InTransaction(s.tasks[k].batch, s.tasks[k].inserted + 1)])
    case Fail(k) =>
      s.(tasks := s.tasks[k := RolledBack(s.tasks[k].batch)], dropped := s.dropped + set row | row in s.tasks[k].batch)
    case Commit(k) => s.(tasks := s.tasks[k := Committed(s.tasks[k].batch)],
        committed := s.committed + s.tasks[k].batch)
    case Settle(k) =>
      var outcome := if s.tasks[k].Committed? then Succeeded else Failed;
      s.(tasks := s.tasks[k := AtGuard], futures := Settled(s.futures, Batch(s.tasks[k]), outcome))
  }

  /** `SQLiteDurability`, as far as appends go. `tasks` stands for the coroutine frames of the drain
      tasks; the database behind them is ghost. */
  class Appends {
    var queue: seq<nat>
    var futures: seq<Outcome>
    var tasks: seq<Drain>
    ghost var committed: seq<nat>
    ghost var dropped: set<nat>

    ghost function Contents(): State
      reads this
    {
      State(queue, futures, tasks, committed, dropped)
    }

    constructor ()
      ensures Contents() == INIT
    {
      queue, futures, tasks, committed, dropped := [], [], [], [], {};
    }

    /** `append` up to `await fut`. */
    method Append() returns (row: nat)
      modifies this
      ensures row == |old(futures)| && Contents() == Appended(old(Contents()))
      ensures queue == old(queue) + [row] && futures == old(futures) + [Pending]
    {
      row := |futures|;
      futures := futures + [Pending];
      queue := queue + [row];
      if tasks == [] || tasks[|tasks| - 1].Returned? {
        tasks := tasks + [AtGuard];
      }
    }

    /** The loop guard of drain task `k` and, when rows are queued, the swap that takes them. */
    method TakeBatch(k: nat)
      requires Enabled(Contents(), Guard(k)) && RowsExist(Contents())
      modifies this
      ensures Contents() == Apply(old(Contents()), Guard(k))
      ensures queue == []
      ensures tasks == old(tasks)[k := if old(queue) == [] then Returned else InTransaction(old(queue), 0)]
    {
      if queue == [] {
        tasks := tasks[k := Returned];
      } else {
        var batch := queue;
        queue := [];
        tasks := tasks[k := InTransaction(batch, 0)];
      }
    }

    /** The loop that relays the result of a batch to every waiter that is not done. */
    method SettleBatch(k: nat)
      requires Enabled(Contents(), Settle(k)) && RowsExist(Contents())
      modifies this
      ensures Contents() == Apply(old(Contents()), Settle(k)) && |futures| == |old(futures)|
      ensures forall row | 0 <= row < |futures| ::
        futures[row] ==
          if row !in old(tasks)[k].batch || old(futures)[row] != Pending then old(futures)[row]
          else if old(tasks)[k].Committed? then Succeeded
          else Failed
    {
      var batch := tasks[k].batch;
      var outcome := if tasks[k].Committed? then Succeeded else Failed;
      assert forall row <- Batch(tasks[k]) :: row < |futures|;
      for i := 0 to |batch|
        invariant |futures| == |old(futures)| && unchanged(`queue) && unchanged(`tasks)
        invariant unchanged(`committed) && unchanged(`dropped)
        invariant forall row | 0 <= row < |futures| ::
          futures[row] == (if row in batch[..i] && old(futures)[row] == Pending then outcome else old(futures)[row])
      {
        assert batch[..i + 1] == batch[..i] + [batch[i]];
        assert batch[i] in batch;
        if futures[batch[i]] == Pending {
          futures := futures[batch[i] := outcome];
        }
      }
      assert batch[..|batch|] == batch;
      tasks := tasks[k := AtGuard];
      assert futures == Settled(old(futures), batch, outcome);
    }
  }

  // ---- Every reachable state ---------------------------------------------------------------

  predicate Increasing(rows: seq<nat>) {
    forall i, j | 0 <= i < j < |rows| :: rows[i] < rows[j]
  }

  /** The one task that may be running. */
  function Live(s: State): Drain {
    if s.tasks == [] then Returned else s.tasks[|s.tasks| - 1]
  }

  /** Rows of the live task's transaction that are not in the database. */
  function Uncommitted(s: State): seq<nat> {
    if Live(s).InTransaction? then Live(s).batch else []
  }

  predicate OneDrainer(s: State) {
    && (forall k | 0 <= k < |s.tasks| - 1 :: s.tasks[k].Returned?)
    && (s.queue != [] ==> !Live(s).Returned?)
    && (Live(s).InTransaction? ==> Live(s).inserted <= |Live(s).batch|)
  }

  /** Database, transaction and queue hold disjoint rows in the order they were appended. */
  predicate InOrder(s: State) {
    && Increasing(s.committed + Uncommitted(s) + s.queue)
    && (forall row <- s.committed + Uncommitted(s) + s.queue :: row < |s.futures| && row !in s.dropped)
    && (forall row <- s.dropped :: row < |s.futures|)
    && (Live(s).Committed? ==> forall row <- Live(s).batch :: row in s.committed)
    && (Live(s).RolledBack? ==> forall row <- Live(s).batch :: row in s.dropped)
  }

  /** What each waiter was told, or will be. */
  predicate Honest(s: State) {
    forall row | 0 <= row < |s.futures| ::
      && (s.futures[row] == Succeeded ==> row in s.committed)
      && (s.futures[row] == Failed ==> row in s.dropped)
      && (s.futures[row] == Pending ==> row in s.queue || row in Batch(Live(s)))
  }

  predicate Inv(s: State) {
    OneDrainer(s) && InOrder(s) && Honest(s)
  }

  lemma InvRows(s: State)
    requires Inv(s)
    ensures RowsExist(s)
  {
    forall k | 0 <= k < |s.tasks|
      ensures forall row <- Batch(s.tasks[k]) :: row < |s.futures|
    {
      if k == |s.tasks| - 1 {
        assert forall row <- Uncommitted(s) :: row in s.committed + Uncommitted(s) + s.queue;
        assert forall row <- s.committed :: row in s.committed + Uncommitted(s) + s.queue;
      }
    }
  }

  lemma StepInv(s: State, step: Step)
    requires Inv(s) && Enabled(s, step)
    ensures RowsExist(s) && Inv(Apply(s, step))
  {
    InvRows(s);
    match step
    case Append => AppendInv(s);
    case Cancel(row) =>
    case Guard(k) => GuardInv(s, k);
    case Insert(k) =>
    case Fail(k) => FailInv(s, k);
    case Commit(k) => CommitInv(s, k);
    case Settle(k) => SettleInv(s, k);
  }

  lemma AppendInv(s: State)
    requires Inv(s) && RowsExist(s)
    ensures Inv(Appended(s))
  {
    var s' := Appended(s);
    var line := s.committed + Uncommitted(s) + s.queue;
    assert Uncommitted(s') == Uncommitted(s);
    assert s'.committed + Uncommitted(s') + s'.queue == line + [|s.futures|];
    assert forall i | 0 <= i < |line| :: line[i] in line;
  }

  lemma GuardInv(s: State, k: nat)
    requires Inv(s) && RowsExist(s) && Enabled(s, Guard(k))
    ensures Inv(Apply(s, Guard(k)))
  {
    var s' := Apply(s, Guard(k));
    assert k == |s.tasks| - 1;
    assert s.committed + [] + s.queue == s.committed + s.queue + [] == s.committed + s.queue;
    assert s'.committed + Uncommitted(s') + s'.queue == s.committed + s.queue;
  }

  lemma FailInv(s: State, k: nat)
    requires Inv(s) && RowsExist(s) && Enabled(s, Fail(k))
    ensures Inv(Apply(s, Fail(k)))
  {
    var s' := Apply(s, Fail(k));
    var batch := s.tasks[k].batch;
    assert k == |s.tasks| - 1 && Uncommitted(s) == batch;
    WithoutMiddle(s.committed, batch, s.queue);
    assert s'.committed + Uncommitted(s') + s'.queue == s.committed + s.queue;
  }

  /** Dropping the middle of an increasing line keeps the order, and what is left avoids the middle. */
  lemma WithoutMiddle(a: seq<nat>, b: seq<nat>, c: seq<nat>)
    requires Increasing(a + b + c)
    ensures Increasing(a + c)
    ensures forall row <- b :: row !in a && row !in c && row in a + b + c
    ensures forall row <- a + c :: row in a + b + c
  {
    var line := a + b + c;
    assert forall i | 0 <= i < |a| :: a[i] == line[i];
    assert forall i | 0 <= i < |b| :: b[i] == line[|a| + i];
    assert forall i | 0 <= i < |c| :: c[i] == line[|a| + |b| + i];
  }

  lemma CommitInv(s: State, k: nat)
    requires Inv(s) && RowsExist(s) && Enabled(s, Commit(k))
    ensures Inv(Apply(s, Commit(k)))
  {
    var s' := Apply(s, Commit(k));
    assert k == |s.tasks| - 1 && Uncommitted(s) == s.tasks[k].batch;
    assert s'.committed + Uncommitted(s') + s'.queue == s.committed + Uncommitted(s) + s.queue;
  }

  lemma SettleInv(s: State, k: nat)
    requires Inv(s) && RowsExist(s) && Enabled(s, Settle(k))
    ensures Inv(Apply(s, Settle(k)))
  {
    var s' := Apply(s, Settle(k));
    assert k == |s.tasks| - 1;
    assert s'.committed + Uncommitted(s') + s'.queue == s.committed + Uncommitted(s) + s.queue;
  }

  // ---- Theorems over runs ------------------------------------------------------------------

  predicate Run(s: State, steps: seq<Step>)
    decreases |steps|
  {
    steps == [] || (Enabled(s, steps[0]) && RowsExist(s) && Run(Apply(s, steps[0]), steps[1..]))
  }

  function Final(s: State, steps: seq<Step>): State
    requires Run(s, steps)
    decreases |steps|
  {
    if steps == [] then s else Final(Apply(s, steps[0]), steps[1..])
  }

  lemma {:induction false} RunInv(s: State, steps: seq<Step>)
    requires Inv(s) && Run(s, steps)
    ensures Inv(Final(s, steps)) && s.dropped <= Final(s, steps).dropped && s.committed <= Final(s, steps).committed
    decreases |steps|
  {
    if steps != [] {
      StepInv(s, steps[0]);
      RunInv(Apply(s, steps[0]), steps[1..]);
    }
  }

  ghost predicate Reachable(s: State) {
    exists steps: seq<Step> :: Run(INIT, steps) && s == Final(INIT, steps)
  }

  lemma ReachableInv(s: State)
    requires Reachable(s)
    ensures Inv(s)
  {
    var steps: seq<Step> :| Run(INIT, steps) && s == Final(INIT, steps);
    RunInv(INIT, steps);
  }

  /** `RowsExist` is no restriction: every enabled step of a reachable state can be taken. */
  lemma RunsNeverGetStuck(s: State, step: Step)
    requires Reachable(s) && Enabled(s, step)
    ensures Run(s, [step])
  {
    ReachableInv(s);
    InvRows(s);
    assert [step][1..] == [];
  }

  /** Success is reported only for committed rows and failure only for rows that never will be. */
  lemma WaitersAreToldTheTruth(s: State, row: nat, later: seq<Step>)
    requires Reachable(s) && row < |s.futures| && Run(s, later)
    ensures s.futures[row] == Succeeded ==> row in s.committed
    ensures s.futures[row] == Failed ==> row !in Final(s, later).committed
  {
    ReachableInv(s);
    RunInv(s, later);
    var s' := Final(s, later);
    assert forall r <- s'.committed :: r in s'.committed + Uncommitted(s') + s'.queue;
  }

  /** No row is committed twice, and rows are committed in the order they were appended. */
  lemma CommittedOnceInOrder(s: State)
    requires Reachable(s)
    ensures Increasing(s.committed)
  {
    ReachableInv(s);
    assert forall i | 0 <= i < |s.committed| ::
      s.committed[i] == (s.committed + Uncommitted(s) + s.queue)[i];
  }

  // ---- What every waiter is told -----------------------------------------------------------

  /** Its row is queued, or in a batch that is not settled. */
  predicate Unsettled(s: State, row: nat) {
    row in s.queue || row in Batch(Live(s))
  }

  /** `given` are the rows whose waiters have given up. */
  function Told(s: State, given: set<nat>, row: nat): Outcome {
    if row in given then Cancelled
    else if Unsettled(s, row) then Pending
    else if row in s.committed then Succeeded
    else Failed
  }

  ghost predicate Exact(s: State, given: set<nat>) {
    && (forall row <- given :: row < |s.futures|)
    && (forall row | 0 <= row < |s.futures| :: s.futures[row] == Told(s, given, row))
  }

  function GivenUp(step: Step): set<nat> {
    if step.Cancel? then {step.row} else {}
  }

  lemma StepExact(s: State, given: set<nat>, step: Step)
    requires Inv(s) && Exact(s, given) && Enabled(s, step) && RowsExist(s)
    ensures Exact(Apply(s, step), given + GivenUp(step))
  {
    match step
    case Append => AppendExact(s, given);
    case Cancel(row) =>
    case Guard(k) => GuardExact(s, given, k);
    case Insert(k) => SameExact(s, Apply(s, step), given, k);
    case Fail(k) => SameExact(s, Apply(s, step), given, k);
    case Commit(k) => CommitExact(s, given, k);
    case Settle(k) => SettleExact(s, given, k);
  }

  lemma AppendExact(s: State, given: set<nat>)
    requires Inv(s) && Exact(s, given)
    ensures Exact(Appended(s), given + {})
  {
    var s' := Appended(s);
    var line := s.committed + Uncommitted(s) + s.queue;
    assert forall row <- s.committed :: row in line;
    assert s'.queue[|s.queue|] == |s.futures|;
    assert Batch(Live(s')) == Batch(Live(s));
    assert forall row | 0 <= row < |s.futures| :: Unsettled(s', row) <==> Unsettled(s, row);
  }

  lemma GuardExact(s: State, given: set<nat>, k: nat)
    requires Inv(s) && Exact(s, given) && RowsExist(s) && Enabled(s, Guard(k))
    ensures Exact(Apply(s, Guard(k)), given + {})
  {
    assert k == |s.tasks| - 1;
    assert forall row: nat :: Unsettled(Apply(s, Guard(k)), row) <==> Unsettled(s, row);
  }

  lemma SameExact(s: State, s': State, given: set<nat>, k: nat)
    requires Inv(s) && Exact(s, given) && k == |s.tasks| - 1 && s' == s.(tasks := s'.tasks, dropped := s'.dropped)
    requires Batch(Live(s')) == Batch(Live(s))
    ensures Exact(s', given + {})
  {
  }

  lemma CommitExact(s: State, given: set<nat>, k: nat)
    requires Inv(s) && Exact(s, given) && RowsExist(s) && Enabled(s, Commit(k))
    ensures Exact(Apply(s, Commit(k)), given + {})
  {
    assert k == |s.tasks| - 1 && Batch(Live(Apply(s, Commit(k)))) == Batch(Live(s));
  }

  lemma SettleExact(s: State, given: set<nat>, k: nat)
    requires Inv(s) && Exact(s, given) && RowsExist(s) && Enabled(s, Settle(k))
    ensures Exact(Apply(s, Settle(k)), given + {})
  {
    var s', batch, line := Apply(s, Settle(k)), Batch(s.tasks[k]), s.committed + Uncommitted(s) + s.queue;
    assert k == |s.tasks| - 1 && Batch(Live(s')) == [] && Batch(Live(s)) == batch;
    assert forall row <- s.committed :: row in line;
    BatchApart(s);
  }

  lemma LineApart(a: seq<nat>, b: seq<nat>, c: seq<nat>)
    requires Increasing(a + b + c)
    ensures forall row <- b :: row !in a && row !in c
    ensures forall row <- a :: row !in c
  {
    var line := a + b + c;
    assert forall i | 0 <= i < |a| :: a[i] == line[i];
    assert forall i | 0 <= i < |b| :: b[i] == line[|a| + i];
    assert forall i | 0 <= i < |c| :: c[i] == line[|a| + |b| + i];
  }

  /** A batch that is over is either in the database or dropped, and not in the queue. */
  lemma BatchApart(s: State)
    requires Inv(s) && (Live(s).Committed? || Live(s).RolledBack?)
    ensures forall row <- Batch(Live(s)) :: row !in s.queue && (row in s.committed <==> Live(s).Committed?)
  {
    var line := s.committed + Uncommitted(s) + s.queue;
    LineApart(s.committed, Uncommitted(s), s.queue);
    assert forall row <- s.committed :: row in line;
    assert forall row <- s.queue :: row in line;
  }

  function AllGivenUp(steps: seq<Step>): set<nat> {
    set step | step in steps && step.Cancel? :: step.row
  }

  lemma {:induction false} RunExact(s: State, given: set<nat>, steps: seq<Step>)
    requires Inv(s) && Exact(s, given) && Run(s, steps)
    ensures Exact(Final(s, steps), given + AllGivenUp(steps))
    decreases |steps|
  {
    if steps == [] {
      assert given + AllGivenUp(steps) == given;
    } else {
      hide Inv, Exact, Apply, Enabled;
      StepInv(s, steps[0]);
      StepExact(s, given, steps[0]);
      RunExact(Apply(s, steps[0]), given + GivenUp(steps[0]), steps[1..]);
      assert steps == [steps[0]] + steps[1..];
      assert given + AllGivenUp(steps) == given + GivenUp(steps[0]) + AllGivenUp(steps[1..]);
    }
  }

  /** What every future holds after any run: a waiter is cancelled exactly if it gave up by itself, pending
      exactly while its batch is not settled, and otherwise succeeded or failed as its row is committed or
      not. */
  lemma FuturesAreExact(steps: seq<Step>, row: nat)
    requires Run(INIT, steps) && row < |Final(INIT, steps).futures|
    ensures
      var s := Final(INIT, steps);
      s.futures[row] ==
        if Cancel(row) in steps then Cancelled
        else if row in s.queue || row in Batch(Live(s)) then Pending
        else if row in s.committed then Succeeded
        else Failed
  {
    hide Inv;
    InitInv();
    RunExact(INIT, {}, steps);
    assert row in AllGivenUp(steps) <==> Cancel(row) in steps;
  }

  lemma InitInv()
    ensures Inv(INIT) && Exact(INIT, {})
  {
  }

  /** Settling a batch tells each of its waiters that still waits, and nobody else: success after the
      commit, failure after the rollback. */
  lemma SettleTells(s: State, k: nat, row: nat)
    requires Reachable(s) && Enabled(s, Settle(k)) && row < |s.futures|
    ensures
      && RowsExist(s) && |Apply(s, Settle(k)).futures| == |s.futures|
      && Apply(s, Settle(k)).futures[row] ==
           if row !in s.tasks[k].batch || s.futures[row] != Pending then s.futures[row]
           else if s.tasks[k].Committed? then Succeeded
           else Failed
  {
    ReachableInv(s);
    InvRows(s);
  }

  // ---- Every row is somewhere --------------------------------------------------------------

  /** Where a row is: committed, in the transaction, queued or dropped. */
  function Places(s: State, row: nat): nat {
    (if row in s.committed then 1 else 0) + (if row in Uncommitted(s) then 1 else 0)
    + (if row in s.queue then 1 else 0) + (if row in s.dropped then 1 else 0)
  }

  ghost predicate Accounted(s: State) {
    forall row | 0 <= row < |s.futures| ::
      row in s.committed || row in Uncommitted(s) || row in s.queue || row in s.dropped
  }

  lemma StepAccounted(s: State, step: Step)
    requires Inv(s) && Accounted(s) && Enabled(s, step) && RowsExist(s)
    ensures Accounted(Apply(s, step))
  {
    var s' := Apply(s, step);
    if step.Append? {
      assert s'.queue[|s.queue|] == |s.futures| && Uncommitted(s') == Uncommitted(s);
    } else if !step.Cancel? {
      assert step.k == |s.tasks| - 1;
    }
  }

  lemma {:induction false} RunAccounted(s: State, steps: seq<Step>)
    requires Inv(s) && Accounted(s) && Run(s, steps)
    ensures Accounted(Final(s, steps))
    decreases |steps|
  {
    if steps != [] {
      hide Inv, Accounted, Apply, Enabled;
      StepInv(s, steps[0]);
      StepAccounted(s, steps[0]);
      RunAccounted(Apply(s, steps[0]), steps[1..]);
    }
  }

  /** No row is lost and none is in two places. */
  lemma RowsAreConserved(s: State, row: nat)
    requires Reachable(s) && row < |s.futures|
    ensures Places(s, row) == 1
  {
    ReachableInv(s);
    var steps: seq<Step> :| Run(INIT, steps) && s == Final(INIT, steps);
    RunAccounted(INIT, steps);
    LineApart(s.committed, Uncommitted(s), s.queue);
    var line := s.committed + Uncommitted(s) + s.queue;
    assert row in s.committed || row in Uncommitted(s) || row in s.queue ==> row in line;
  }

  /** A rolled back batch leaves nothing behind: none of its rows is ever committed, and settling it fails
      each waiter that has not given up. */
  lemma FailedBatchLeavesNothing(s: State, k: nat, later: seq<Step>)
    requires Reachable(s) && k < |s.tasks| && s.tasks[k].RolledBack?
    requires RowsExist(s) && Run(Apply(s, Settle(k)), later)
    ensures forall row <- s.tasks[k].batch ::
      && row < |s.futures|
      && row !in Final(Apply(s, Settle(k)), later).committed
      && s.futures[row] in {Pending, Cancelled}
      && Apply(s, Settle(k)).futures[row] == if s.futures[row] == Pending then Failed else Cancelled
  {
    ReachableInv(s);
    var steps: seq<Step> :| Run(INIT, steps) && s == Final(INIT, steps);
    StepInv(s, Settle(k));
    RunInv(Apply(s, Settle(k)), later);
    var s' := Final(Apply(s, Settle(k)), later);
    assert k == |s.tasks| - 1;
    forall row | row in s.tasks[k].batch
      ensures row < |s.futures| && row !in s'.committed && s.futures[row] in {Pending, Cancelled}
      ensures Apply(s, Settle(k)).futures[row] == if s.futures[row] == Pending then Failed else Cancelled
    {
      assert row in s'.committed ==> row in s'.committed + Uncommitted(s') + s'.queue;
      FuturesAreExact(steps, row);
      SettleTells(s, k, row);
    }
  }

  /** At most one drain task runs, and one runs whenever a row is queued or a waiter waits. */
  lemma SingleDrainer(s: State, k: nat, l: nat)
    requires Reachable(s) && k < |s.tasks| && l < |s.tasks|
    ensures !s.tasks[k].Returned? && !s.tasks[l].Returned? ==> k == l
    ensures s.queue != [] || Pending in s.futures ==> !Live(s).Returned?
  {
    ReachableInv(s);
    if Pending in s.futures {
      var row :| 0 <= row < |s.futures| && s.futures[row] == Pending;
      assert row in s.queue || row in Batch(Live(s));
    }
  }

  predicate IsDrain(step: Step) {
    !step.Append? && !step.Cancel?
  }

  /** Steps the drain task still has to take if nothing more is appended. */
  function Work(s: State): nat
    requires OneDrainer(s)
  {
    var queued := if s.queue == [] then 0 else |s.queue| + 5;
    match Live(s)
    case Returned => 0
    case AtGuard => 1 + queued
    case InTransaction(batch, inserted) => |batch| - inserted + 4 + queued
    case Committed(_) => 2 + queued
    case RolledBack(_) => 2 + queued
  }

  lemma DrainIsLive(s: State, step: Step)
    requires OneDrainer(s) && Enabled(s, step) && IsDrain(step)
    ensures step.k == |s.tasks| - 1
  {
  }

  lemma DrainWorks(s: State, step: Step)
    requires Inv(s) && Enabled(s, step) && IsDrain(step)
    ensures RowsExist(s) && Inv(Apply(s, step)) && Work(Apply(s, step)) < Work(s)
  {
    StepInv(s, step);
    DrainIsLive(s, step);
  }

  /** No waiter is stranded: the drain task alone takes at most `Work(s)` steps, and in a state where
      it can take none every waiter has been told. */
  lemma {:induction false} NobodyIsStranded(s: State, steps: seq<Step>)
    requires Inv(s) && Run(s, steps) && (forall step <- steps :: IsDrain(step))
    ensures |steps| <= Work(s)
    ensures (forall step | IsDrain(step) :: !Enabled(Final(s, steps), step)) ==> Pending !in Final(s, steps).futures
    decreases |steps|
  {
    if steps == [] {
      if Pending in s.futures {
        var row :| 0 <= row < |s.futures| && s.futures[row] == Pending;
        var k := |s.tasks| - 1;
        assert row in s.queue || row in Batch(Live(s));
        assert Enabled(s, Guard(k)) || Enabled(s, Fail(k)) || Enabled(s, Settle(k));
      }
    } else {
      DrainWorks(s, steps[0]);
      NobodyIsStranded(Apply(s, steps[0]), steps[1..]);
    }
  }
}
