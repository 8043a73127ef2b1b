/** Which rows the database holds, read off the steps of a run alone, and that no connection is lost. */
module TransactionLog {
  import opened Common
  import opened AsyncSqlite
  import L = RwLockRuns

  // ---- The log of a run --------------------------------------------------------------------

  /** The step begins or ends a transaction of task `t`, or fails to. */
  predicate Bounds(step: Step, t: nat) {
    step == Begin(t) || step == Commit(t) || step == Rollback(t) || (step.EndFails? && step.t == t)
  }

  /** The latest of these is the Begin. */
  predicate InTx(steps: seq<Step>, t: nat) {
    steps != [] &&
    var last := steps[|steps| - 1];
    if Bounds(last, t) then last == Begin(t) else InTx(steps[..|steps| - 1], t)
  }

  /** The rows that task `t` has executed since the latest of these. */
  function RowsSince(steps: seq<Step>, t: nat): seq<Row> {
    if steps == [] || Bounds(steps[|steps| - 1], t) then []
    else
      var last := steps[|steps| - 1];
      RowsSince(steps[..|steps| - 1], t) + if last.Execute? && last.t == t then [last.row] else []
  }

  function MoreRows(rows: seq<Row>, step: Step, t: nat): seq<Row> {
    if Bounds(step, t) then [] else rows + if step.Execute? && step.t == t then [step.row] else []
  }

  /** What the step commits after `steps`: a statement outside transactions its row, a COMMIT the rows of
      its transaction, and everything else nothing. After a transaction was left open, nothing at all. */
  function Committed(steps: seq<Step>, step: Step): seq<seq<Row>> {
    if LeftOpen(steps) then []
    else
      match step
      case Execute(t, row) => if InTx(steps, t) then [] else [[row]]
      case Commit(t) => [RowsSince(steps, t)]
      case _ => []
  }

  function Log(steps: seq<Step>): seq<seq<Row>> {
    if steps == [] then []
    else Log(steps[..|steps| - 1]) + Committed(steps[..|steps| - 1], steps[|steps| - 1])
  }

  // ---- The database is that log ------------------------------------------------------------

  /** Transactions of the run and of the database agree, as long as none was left open. */
  ghost predicate Traced(d: Db, steps: seq<Step>) {
    && d.batches == Log(steps)
    && (LeftOpen(steps) <==> Stuck(d))
    && (!LeftOpen(steps) ==>
          && (forall t | 0 <= t < |d.jobs| :: InTx(steps, t) <==> d.jobs[t] == Transaction(Open))
          && (InTransaction(d) ==> d.tx == Some(RowsSince(steps, d.owner.value))))
  }

  lemma InitTraced(tasks: nat, readers: nat)
    ensures Traced(Init(tasks, readers), [])
  {
  }

  lemma LogLast(steps: seq<Step>, step: Step)
    ensures Log(steps + [step]) == Log(steps) + Committed(steps, step)
    ensures forall t: nat :: InTx(steps + [step], t) <==> if Bounds(step, t) then step == Begin(t) else InTx(steps, t)
    ensures forall t: nat :: RowsSince(steps + [step], t) == MoreRows(RowsSince(steps, t), step, t)
    ensures LeftOpen(steps + [step]) <==> LeftOpen(steps) || LeavesOpen(step)
  {
    var longer := steps + [step];
    assert longer[..|longer| - 1] == steps && longer[|longer| - 1] == step;
    hide LeavesOpen;
    if LeftOpen(longer) {
      var s :| s in longer && LeavesOpen(s);
      assert s in steps || s == step;
    }
    assert step in longer && forall s <- steps :: s in longer;
  }

  lemma StepTraced(d: Db, steps: seq<Step>, step: Step)
    requires Inv(d) && Traced(d, steps) && Enabled(d, step)
    ensures Traced(Apply(d, step), steps + [step])
  {
    LogLast(steps, step);
    StepStuck(d, step);
    hide Log, InTx, RowsSince, LeftOpen;
    if Stuck(d) {
      assert Log(steps + [step]) == Log(steps) + [];
    } else {
      hide Inv;
      match step
      case Contend(s, transaction) => ContendTraced(d, steps, s, transaction);
      case Execute(t, row) => ExecuteTraced(d, steps, t, row);
      case Begin(t) => BeginTraced(d, steps, t);
      case Commit(t) => EndTraced(d, steps, step);
      case Rollback(t) => EndTraced(d, steps, step);
      case EndFails(t, _) => EndTraced(d, steps, step);
      case _ => IdleTraced(d, steps, step);
    }
  }

  /** Traced, for a step after which `steps + [step]` is known to add nothing. */
  lemma SameTraced(d: Db, d': Db, steps: seq<Step>, step: Step)
    requires Traced(d, steps) && !LeftOpen(steps) && !LeftOpen(steps + [step])
    requires Log(steps + [step]) == Log(steps) + []
    requires forall t: nat :: InTx(steps + [step], t) <==> InTx(steps, t)
    requires forall t: nat :: RowsSince(steps + [step], t) == RowsSince(steps, t)
    requires d'.batches == d.batches && d'.tx == d.tx && |d'.jobs| == |d.jobs| && !Stuck(d')
    requires forall t | 0 <= t < |d.jobs| :: d'.jobs[t] == Transaction(Open) <==> d.jobs[t] == Transaction(Open)
    requires InTransaction(d') ==> d'.owner == d.owner
    ensures Traced(d', steps + [step])
  {
    hide Log, InTx, RowsSince, LeftOpen;
  }

  lemma ContendTraced(d: Db, steps: seq<Step>, s: L.Step, transaction: bool)
    requires Inv(d) && Traced(d, steps) && !Stuck(d) && Enabled(d, Contend(s, transaction))
    ensures Traced(Apply(d, Contend(s, transaction)), steps + [Contend(s, transaction)])
  {
    hide Inv, Log, InTx, RowsSince, LeftOpen, L.Apply, L.Enabled, L.CancelInv;
    LogLast(steps, Contend(s, transaction));
    StepStuck(d, Contend(s, transaction));
    InvLock(d);
    LockStep(d.lock, s);
    ContendStep(d.lock, s);
    EnteredOwner(d, L.Apply(d.lock, s), s.t, transaction);
    SameTraced(d, Apply(d, Contend(s, transaction)), steps, Contend(s, transaction));
  }

  lemma EnteredOwner(d: Db, lock: L.Sys, t: nat, transaction: bool)
    requires Inv(d) && HasJob(d, t) && |lock.phases| == |d.lock.phases| && !Holds(d.lock.phases[t])
    ensures d.jobs[t] == NoJob && InTransaction(Entered(d, lock, t, transaction)) ==>
      Entered(d, lock, t, transaction).owner == d.owner
    ensures d.jobs[t] == NoJob
  {
  }

  lemma IdleTraced(d: Db, steps: seq<Step>, step: Step)
    requires Inv(d) && Traced(d, steps) && !Stuck(d) && Enabled(d, step)
    requires step.CheckOut? || step.FetchRows? || step.Return? || step.EndRead? || step.EndWrite?
    ensures Traced(Apply(d, step), steps + [step])
  {
    hide Log, InTx, RowsSince, LeftOpen, L.Apply, L.Enabled;
    LogLast(steps, step);
    StepStuck(d, step);
    SameTraced(d, Apply(d, step), steps, step);
  }

  lemma ExecuteTraced(d: Db, steps: seq<Step>, t: nat, row: Row)
    requires Inv(d) && Traced(d, steps) && !Stuck(d) && Enabled(d, Execute(t, row))
    ensures Traced(Apply(d, Execute(t, row)), steps + [Execute(t, row)])
  {
    hide Log, InTx, RowsSince, LeftOpen;
    LogLast(steps, Execute(t, row));
    StepStuck(d, Execute(t, row));
    WriterAlone(d, t);
  }

  lemma BeginTraced(d: Db, steps: seq<Step>, t: nat)
    requires Inv(d) && Traced(d, steps) && !Stuck(d) && Enabled(d, Begin(t))
    ensures Traced(Apply(d, Begin(t)), steps + [Begin(t)])
  {
    hide Log, InTx, RowsSince, LeftOpen;
    LogLast(steps, Begin(t));
    StepStuck(d, Begin(t));
  }

  lemma EndTraced(d: Db, steps: seq<Step>, step: Step)
    requires Inv(d) && Traced(d, steps) && !Stuck(d) && Enabled(d, step)
    requires step.Commit? || step.Rollback? || step.EndFails?
    ensures Traced(Apply(d, step), steps + [step])
  {
    hide Log, InTx, RowsSince, LeftOpen;
    LogLast(steps, step);
    StepStuck(d, step);
  }

  // ---- Over runs ---------------------------------------------------------------------------

  lemma {:induction false} RunLast(d: Db, steps: seq<Step>)
    requires Run(d, steps) && steps != []
    ensures
      var rest, last := steps[..|steps| - 1], steps[|steps| - 1];
      Run(d, rest) && Enabled(Final(d, rest), last) && Final(d, steps) == Apply(Final(d, rest), last)
    decreases |steps|
  {
    hide Enabled, Apply;
    if |steps| == 1 {
      assert steps[..0] == [] && steps[1..] == [];
    } else {
      RunLast(Apply(d, steps[0]), steps[1..]);
      assert steps[..|steps| - 1][1..] == steps[1..][..|steps| - 2];
    }
  }

  lemma {:induction false} RunTraced(tasks: nat, readers: nat, steps: seq<Step>)
    requires Run(Init(tasks, readers), steps)
    ensures Inv(Final(Init(tasks, readers), steps)) && Traced(Final(Init(tasks, readers), steps), steps)
    decreases |steps|
  {
    hide Inv, Traced, Enabled, Apply, Init;
    var d := Init(tasks, readers);
    if steps == [] {
      InitInv(tasks, readers);
      InitTraced(tasks, readers);
    } else {
      var rest, last := steps[..|steps| - 1], steps[|steps| - 1];
      RunLast(d, steps);
      RunTraced(tasks, readers, rest);
      StepInv(Final(d, rest), last);
      StepTraced(Final(d, rest), rest, last);
      assert rest + [last] == steps;
    }
  }

  /** In every run the database holds exactly the log: a statement outside transactions is a batch of its
      own, a COMMIT adds exactly what its task has executed since its BEGIN, and nothing else adds anything. */
  lemma BatchesAreExact(tasks: nat, readers: nat, steps: seq<Step>)
    requires Run(Init(tasks, readers), steps)
    ensures Final(Init(tasks, readers), steps).batches == Log(steps)
  {
    RunTraced(tasks, readers, steps);
  }

  // ---- Which rows last ---------------------------------------------------------------------

  /** Task `t` neither begins nor ends a transaction between the steps `k` and `i`. */
  predicate SameTransaction(steps: seq<Step>, t: nat, k: nat, i: nat) {
    forall j | k < j < i && j < |steps| :: !Bounds(steps[j], t)
  }

  /** The transaction around step `k` is committed at step `i`. */
  predicate CommittedAt(steps: seq<Step>, t: nat, k: nat, i: nat) {
    k < i < |steps| && steps[i] == Commit(t) && !LeftOpen(steps[..i]) && SameTransaction(steps, t, k, i)
  }

  /** The row that step `k` executes lasts: it is outside transactions, or in one that is committed. */
  ghost predicate Lasts(steps: seq<Step>, k: nat, row: Row) {
    && k < |steps| && steps[k].Execute? && steps[k].row == row
    && ((!InTx(steps[..k], steps[k].t) && !LeftOpen(steps[..k]))
        || exists i: nat :: CommittedAt(steps, steps[k].t, k, i))
  }

  lemma {:induction false} SinceMembers(steps: seq<Step>, t: nat, row: Row)
    ensures row in RowsSince(steps, t) <==>
      exists k | 0 <= k < |steps| :: steps[k] == Execute(t, row) && SameTransaction(steps, t, k, |steps|)
  {
    if steps != [] {
      var n := |steps| - 1;
      var rest, last := steps[..n], steps[n];
      SinceMembers(rest, t, row);
      if row in RowsSince(steps, t) {
        if row in RowsSince(rest, t) {
          var k :| 0 <= k < |rest| && rest[k] == Execute(t, row) && SameTransaction(rest, t, k, |rest|);
          assert steps[k] == Execute(t, row) && SameTransaction(steps, t, k, |steps|);
        } else {
          assert steps[n] == Execute(t, row) && SameTransaction(steps, t, n, |steps|);
        }
      }
      forall k | 0 <= k < |steps| && steps[k] == Execute(t, row) && SameTransaction(steps, t, k, |steps|)
        ensures row in RowsSince(steps, t)
      {
        assert k < n ==> rest[k] == Execute(t, row) && SameTransaction(rest, t, k, |rest|);
      }
    }
  }

  lemma FlattenAppend(a: seq<seq<Row>>, b: seq<Row>)
    ensures Flatten(a + [b]) == Flatten(a) + b
  {
    assert (a + [b])[..|a|] == a;
  }

  lemma FlattenAdded(a: seq<seq<Row>>, b: seq<seq<Row>>, row: Row)
    requires |b| <= 1
    ensures row in Flatten(a + b) <==> row in Flatten(a) || (b != [] && row in b[0])
  {
    if b == [] {
      assert a + b == a;
    } else {
      assert b == [b[0]];
      FlattenAppend(a, b[0]);
    }
  }

  /** What lasts without the last step lasts with it. */
  lemma LastsLonger(steps: seq<Step>, k: nat, row: Row)
    requires steps != [] && Lasts(steps[..|steps| - 1], k, row)
    ensures Lasts(steps, k, row)
  {
    hide InTx, LeftOpen, Bounds;
    var rest := steps[..|steps| - 1];
    assert rest[..k] == steps[..k] && steps[k] == rest[k];
    if exists i: nat :: CommittedAt(rest, rest[k].t, k, i) {
      var i: nat :| CommittedAt(rest, rest[k].t, k, i);
      assert rest[..i] == steps[..i];
      assert CommittedAt(steps, steps[k].t, k, i);
    }
  }

  /** What lasts with the last step only is committed by it. */
  lemma LastsNow(steps: seq<Step>, k: nat, row: Row)
    requires steps != [] && Lasts(steps, k, row) && !Lasts(steps[..|steps| - 1], k, row)
    ensures
      var rest, last := steps[..|steps| - 1], steps[|steps| - 1];
      Committed(rest, last) != [] && row in Committed(rest, last)[0]
  {
    hide InTx, LeftOpen, Bounds, RowsSince;
    var n := |steps| - 1;
    var rest := steps[..n];
    assert k < n ==> rest[k] == steps[k] && rest[..k] == steps[..k];
    if !(!InTx(steps[..k], steps[k].t) && !LeftOpen(steps[..k])) {
      var t := steps[k].t;
      var i: nat :| CommittedAt(steps, t, k, i);
      assert i < n ==> rest[..i] == steps[..i] && CommittedAt(rest, t, k, i);
      assert rest[k] == Execute(t, row) && SameTransaction(rest, t, k, |rest|);
      SinceMembers(rest, t, row);
    }
  }

  /** What the last step commits lasts. */
  lemma CommittedLasts(steps: seq<Step>, row: Row) returns (k: nat)
    requires steps != []
    requires
      var rest, last := steps[..|steps| - 1], steps[|steps| - 1];
      Committed(rest, last) != [] && row in Committed(rest, last)[0]
    ensures Lasts(steps, k, row)
  {
    hide InTx, LeftOpen, Bounds, RowsSince;
    var n := |steps| - 1;
    var rest, last := steps[..n], steps[n];
    if last.Execute? {
      k := n;
    } else {
      SinceMembers(rest, last.t, row);
      k :| 0 <= k < |rest| && rest[k] == Execute(last.t, row) && SameTransaction(rest, last.t, k, |rest|);
      assert CommittedAt(steps, last.t, k, n);
    }
  }

  ghost predicate SomeLasts(steps: seq<Step>, row: Row) {
    exists k: nat :: Lasts(steps, k, row)
  }

  lemma {:induction false} LogRows(steps: seq<Step>, row: Row)
    ensures row in Flatten(Log(steps)) <==> SomeLasts(steps, row)
  {
    if steps != [] {
      hide Lasts, Flatten;
      var rest, last := steps[..|steps| - 1], steps[|steps| - 1];
      LogRows(rest, row);
      FlattenAdded(Log(rest), Committed(rest, last), row);
      if SomeLasts(rest, row) {
        var k: nat :| Lasts(rest, k, row);
        LastsLonger(steps, k, row);
      } else if SomeLasts(steps, row) {
        var k: nat :| Lasts(steps, k, row);
        LastsNow(steps, k, row);
      }
      if Committed(rest, last) != [] && row in Committed(rest, last)[0] {
        var k := CommittedLasts(steps, row);
      }
    }
  }

  /** In every run a row is in the database if and only if some statement wrote it outside transactions or
      in a transaction that was committed, before any was left open. */
  lemma RowsAreThoseThatLast(tasks: nat, readers: nat, steps: seq<Step>, row: Row)
    requires Run(Init(tasks, readers), steps)
    ensures row in Flatten(Final(Init(tasks, readers), steps).batches) <==> SomeLasts(steps, row)
  {
    BatchesAreExact(tasks, readers, steps);
    LogRows(steps, row);
  }

  lemma {:induction false} FlattenPrefix(batches: seq<seq<Row>>, n: nat, row: Row)
    requires n <= |batches| && row in Flatten(batches[..n])
    ensures row in Flatten(batches)
    decreases |batches|
  {
    if n < |batches| {
      assert batches[..|batches| - 1][..n] == batches[..n];
      FlattenPrefix(batches[..|batches| - 1], n, row);
    } else {
      assert batches[..n] == batches;
    }
  }

  /** A row that was only ever written in transactions that were not committed is in no fetch result, except
      in single-connection mode while the transaction that wrote it is left open. */
  lemma RolledBackIsInvisible(tasks: nat, readers: nat, steps: seq<Step>, row: Row, t: nat)
    requires Run(Init(tasks, readers), steps) && !SomeLasts(steps, row)
    requires
      var d := Final(Init(tasks, readers), steps);
      HasJob(d, t) && d.jobs[t].Fetch? && d.jobs[t].result.Some?
    ensures
      var d := Final(Init(tasks, readers), steps);
      row in d.jobs[t].result.value ==> row in Leftover(d)
  {
    var d := Final(Init(tasks, readers), steps);
    hide Run, Final, Init, Flatten, SomeLasts, HasJob;
    assert Reachable(d);
    FetchesAreSnapshots(d, t);
    RowsAreThoseThatLast(tasks, readers, steps, row);
    if row in Flatten(d.batches[..d.jobs[t].released]) {
      FlattenPrefix(d.batches, d.jobs[t].released, row);
    }
  }

  // ---- The pool ----------------------------------------------------------------------------

  function InUse(d: Db): set<Conn> {
    set t | 0 <= t < |d.jobs| && d.jobs[t].Fetch? && d.jobs[t].conn.Some? :: d.jobs[t].conn.value
  }

  ghost predicate PoolWhole(d: Db) {
    d.pool + InUse(d) == Connections(d.readers)
  }

  lemma StepPool(d: Db, step: Step)
    requires Inv(d) && PoolWhole(d) && Enabled(d, step)
    ensures PoolWhole(Apply(d, step))
  {
    hide Inv, PoolWhole, Enabled, Apply;
    if step.CheckOut? {
      CheckedOut(d, step.t, step.conn);
    } else if step.Return? {
      Returned(d, step.t);
    } else if step.Contend? {
      ContendUses(d, step.step, step.transaction);
      SameInUse(d, Apply(d, step));
    } else {
      OthersUse(d, step);
      SameInUse(d, Apply(d, step));
    }
  }

  lemma ContendUses(d: Db, s: L.Step, transaction: bool)
    requires Inv(d) && Enabled(d, Contend(s, transaction))
    ensures KeepsUse(d, Apply(d, Contend(s, transaction)))
  {
    hide Inv, L.Apply, L.Enabled, L.CancelInv;
    InvLock(d);
    ContendStep(d.lock, s);
    LockStep(d.lock, s);
    EnteredOwner(d, L.Apply(d.lock, s), s.t, transaction);
  }

  lemma InvLock(d: Db)
    requires Inv(d)
    ensures L.CancelInv(d.lock)
  {
  }

  lemma OthersUse(d: Db, step: Step)
    requires Enabled(d, step) && !step.CheckOut? && !step.Return? && !step.Contend?
    ensures KeepsUse(d, Apply(d, step))
  {
    hide L.Apply, L.Enabled;
  }

  predicate Uses(j: Job, c: Conn) {
    j.Fetch? && j.conn == Some(c)
  }

  predicate KeepsUse(d: Db, d': Db) {
    && |d'.jobs| == |d.jobs| && d'.pool == d.pool && d'.readers == d.readers
    && forall t | 0 <= t < |d.jobs| ::
         (d'.jobs[t].Fetch? && d'.jobs[t].conn.Some?) || (d.jobs[t].Fetch? && d.jobs[t].conn.Some?) ==>
           d'.jobs[t].Fetch? && d.jobs[t].Fetch? && d'.jobs[t].conn == d.jobs[t].conn
  }

  lemma SameInUse(d: Db, d': Db)
    requires KeepsUse(d, d') && PoolWhole(d)
    ensures PoolWhole(d')
  {
    assert InUse(d') == InUse(d);
  }

  lemma CheckedOut(d: Db, t: nat, c: Conn)
    requires PoolWhole(d) && Enabled(d, CheckOut(t, c))
    ensures PoolWhole(Apply(d, CheckOut(t, c)))
  {
    hide Connections;
    var d' := Apply(d, CheckOut(t, c));
    assert d'.jobs[t].conn.value == c;
    forall x | x in InUse(d)
      ensures x in InUse(d')
    {
      var u :| 0 <= u < |d.jobs| && d.jobs[u].Fetch? && d.jobs[u].conn.Some? && d.jobs[u].conn.value == x;
      assert d'.jobs[u] == d.jobs[u];
    }
    assert InUse(d') == InUse(d) + {c};
  }

  lemma Returned(d: Db, t: nat)
    requires Inv(d) && PoolWhole(d) && Enabled(d, Return(t))
    ensures PoolWhole(Apply(d, Return(t)))
  {
    hide Connections, Shape, HoldersWork, OwnerWrites, ReleasedPrefix, Snapshots;
    var c, d' := d.jobs[t].conn.value, Apply(d, Return(t));
    forall x | x in InUse(d) && x != c
      ensures x in InUse(d')
    {
      var u :| 0 <= u < |d.jobs| && d.jobs[u].Fetch? && d.jobs[u].conn.Some? && d.jobs[u].conn.value == x;
      assert d'.jobs[u] == d.jobs[u];
    }
    assert c in InUse(d) && InUse(d') <= InUse(d);
  }

  lemma {:induction false} RunPool(d: Db, steps: seq<Step>)
    requires Inv(d) && PoolWhole(d) && Run(d, steps)
    ensures PoolWhole(Final(d, steps))
    decreases |steps|
  {
    if steps != [] {
      hide Inv, PoolWhole, Enabled, Apply;
      StepPool(d, steps[0]);
      StepInv(d, steps[0]);
      RunPool(Apply(d, steps[0]), steps[1..]);
    }
  }

  lemma InitPool(tasks: nat, readers: nat)
    ensures PoolWhole(Init(tasks, readers))
  {
    assert InUse(Init(tasks, readers)) == {};
  }

  /** No read connection is ever lost: each is in the pool or with a fetch. */
  lemma ConnectionsAreConserved(d: Db, c: Conn)
    requires Reachable(d)
    ensures c < d.readers <==> c in d.pool || exists t | 0 <= t < |d.jobs| :: Uses(d.jobs[t], c)
    ensures forall t | 0 <= t < |d.jobs| && Uses(d.jobs[t], c) :: c !in d.pool
  {
    var tasks: nat, readers: nat, steps: seq<Step> :|
      Run(Init(tasks, readers), steps) && d == Final(Init(tasks, readers), steps);
    ReachableInv(d);
    hide Run, Final, Init, Inv, Connections;
    InitInv(tasks, readers);
    InitPool(tasks, readers);
    RunPool(Init(tasks, readers), steps);
    if c in InUse(d) {
      var t :| 0 <= t < |d.jobs| && d.jobs[t].Fetch? && d.jobs[t].conn.Some? && d.jobs[t].conn.value == c;
      assert Uses(d.jobs[t], c);
    }
    forall t | 0 <= t < |d.jobs| && Uses(d.jobs[t], c)
      ensures c in InUse(d) && c !in d.pool
    {
      UsedIsNotFree(d, t);
    }
  }
}
