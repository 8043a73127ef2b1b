/** `AsyncSQLite` and its transactions over the lock: one writer connection, a pool of reader
    connections, and a database that is a log of committed batches plus at most one open
    transaction, visible only on the writer connection. Statements, BEGIN, COMMIT and ROLLBACK can fail. */
module AsyncSqlite {
  import opened Common
  import opened RwLock
  import L = RwLockRuns

  /** A written row, and a pooled read connection. */
  type Row = nat
  type Conn = nat

  datatype Stage = Entering | Open | Over

  /** What a task that holds the lock is doing. `released` is the number of batches whose writers had
      released the lock when the fetch acquired it. */
  datatype Job =
    | NoJob
    | Fetch(released: nat, conn: Option<Conn>, result: Option<seq<Row>>)
    | Statement(done: bool)
    | Transaction(stage: Stage)

  datatype Db = Db(
    lock: L.Sys,
    jobs: seq<Job>,
    owner: Option<nat>,          // _write_owner
    readers: nat,                // pooled read connections; 0 is single-connection mode
    pool: set<Conn>,             // _read_pool
    batches: seq<seq<Row>>,      // committed, one batch for each commit
    tx: Option<seq<Row>>,        // rows of the transaction open on the writer connection
    released: nat)               // batches whose writers have released the lock

  datatype Step =
    | Contend(step: L.Step, transaction: bool)
    | CheckOut(t: nat, conn: Conn) | FetchRows(t: nat) | Return(t: nat) | EndRead(t: nat)
    | Execute(t: nat, row: Row) | Begin(t: nat) | Commit(t: nat) | Rollback(t: nat)
    | EndFails(t: nat, left: bool) | EndWrite(t: nat)

  function Flatten(batches: seq<seq<Row>>): seq<Row> {
    if batches == [] then [] else Flatten(batches[..|batches| - 1]) + batches[|batches| - 1]
  }

  function Connections(readers: nat): (pool: set<Conn>)
    ensures |pool| == readers && forall c: nat :: c in pool <==> c < readers
  {
    if readers == 0 then {} else Connections(readers - 1) + {readers - 1}
  }

  function NoJobs(tasks: nat): (jobs: seq<Job>)
    ensures |jobs| == tasks && forall t | 0 <= t < tasks :: jobs[t] == NoJob
  {
    if tasks == 0 then [] else NoJobs(tasks - 1) + [NoJob]
  }

  function Init(tasks: nat, readers: nat): Db {
    Db(L.Init(tasks), NoJobs(tasks), None, readers, Connections(readers), [], None, 0)
  }

  predicate HasJob(d: Db, t: nat) {
    t < |d.jobs| && t < |d.lock.phases|
  }

  /** `_owns_write` for task `t`. */
  predicate OwnsWrite(d: Db, t: nat) {
    d.owner == Some(t)
  }

  predicate Enabled(d: Db, step: Step) {
    match step
    case Contend(s, _) => !s.EndRead? && !s.EndWrite? && L.Enabled(d.lock, s) && |d.jobs| == |d.lock.phases|
    case CheckOut(t, c) => HasJob(d, t) && d.readers > 0 && d.jobs[t].Fetch? && d.jobs[t].conn == None
        && d.jobs[t].result == None && c in d.pool
    case FetchRows(t) => HasJob(d, t) && d.jobs[t].Fetch? && d.jobs[t].result == None
        && (d.readers == 0 || d.jobs[t].conn.Some?)
    case Return(t) => HasJob(d, t) && d.jobs[t].Fetch? && d.jobs[t].conn.Some?
    case EndRead(t) => HasJob(d, t) && d.jobs[t].Fetch? && d.jobs[t].conn == None && d.lock.phases[t] == L.Reading
    // Inside its own transaction a task's statement skips the lock; otherwise it runs once, holding it.
    case Execute(t, _) => HasJob(d, t) && (if OwnsWrite(d, t) then d.jobs[t] == Transaction(Open)
        else d.jobs[t] == Statement(false))
    case Begin(t) => HasJob(d, t) && d.jobs[t] == Transaction(Entering)
    case Commit(t) => HasJob(d, t) && d.jobs[t] == Transaction(Open)
    case Rollback(t) => HasJob(d, t) && d.jobs[t] == Transaction(Open)
    case EndFails(t, _) => HasJob(d, t) && d.jobs[t] == Transaction(Open)
    case EndWrite(t) =>
      HasJob(d, t) && d.lock.phases[t] == L.Writing && (d.jobs[t].Statement? || (d.jobs[t].Transaction?
          && d.jobs[t].stage != Open))
  }

  /** Rows a query on the writer connection returns: it sees its own open transaction. */
  function WriterView(d: Db): seq<Row> {
    Flatten(d.batches) + (if d.tx.Some? then d.tx.value else [])
  }

  function ReaderView(d: Db): seq<Row> {
    Flatten(d.batches)
  }

  /** What a fetch returns, pooled or in single-connection mode. */
  function FetchView(d: Db): seq<Row> {
    if d.readers == 0 then WriterView(d) else ReaderView(d)
  }

  /** The job of task `t` after its lock step: entering starts one. */
  function Entered(d: Db, lock: L.Sys, t: nat, transaction: bool): Db
    requires HasJob(d, t) && |lock.phases| == |d.lock.phases|
  {
    var d' := d.(lock := lock);
    if lock.phases[t] == L.Reading then d'.(jobs := d.jobs[t := Fetch(d.released, None, None)])
    else if lock.phases[t] != L.Writing then d'
    else if transaction then d'.(jobs := d.jobs[t := Transaction(Entering)], owner := Some(t))
    else d'.(jobs := d.jobs[t := Statement(false)])
  }

  /** One statement on the writer connection: part of the open transaction, or its own commit. */
  function Executed(d: Db, row: Row): Db {
    if d.tx.Some? then d.(tx := Some(d.tx.value + [row])) else d.(batches := d.batches + [[row]])
  }

  function Apply(d: Db, step: Step): Db
    requires Enabled(d, step)
  {
    match step
    case Contend(s, transaction) => Entered(d, L.Apply(d.lock, s), s.t, transaction)
    case CheckOut(t, c) => d.(jobs := d.jobs[t := d.jobs[t].(conn := Some(c))], pool := d.pool - {c})
    case FetchRows(t) =>
      d.(jobs := d.jobs[t := d.jobs[t].(result := Some(FetchView(d)))])
    case Return(t) => d.(jobs := d.jobs[t := d.jobs[t].(conn := None)], pool := d.pool + {d.jobs[t].conn.value})
    case EndRead(t) => d.(jobs := d.jobs[t := NoJob], lock := L.Apply(d.lock, L.EndRead(t)))
    case Execute(t, row) =>
      if OwnsWrite(d, t) then Executed(d, row) else Executed(d, row).(jobs := d.jobs[t := Statement(true)])
    // A BEGIN that meets an open transaction fails, and the task releases the lock.
    case Begin(t) =>
      if d.tx.Some? then d.(jobs := d.jobs[t := Transaction(Over)])
      else d.(tx := Some([]), jobs := d.jobs[t := Transaction(Open)])
    case Commit(t) =>
      d.(batches := if d.tx.Some? then d.batches + [d.tx.value] else d.batches, tx := None,
          jobs := d.jobs[t := Transaction(Over)])
    case Rollback(t) => d.(tx := None, jobs := d.jobs[t := Transaction(Over)])
    // A COMMIT or ROLLBACK that raises; the database has rolled back by itself or has left the
    // transaction open, and nobody tries again.
    case EndFails(t, left) => d.(tx := if left then d.tx else None, jobs := d.jobs[t := Transaction(Over)])
    case EndWrite(t) =>
      d.(owner := if d.jobs[t].Transaction? then None else d.owner, released := |d.batches|,
         jobs := d.jobs[t := NoJob], lock := L.Apply(d.lock, L.EndWrite(t)))
  }

  predicate Run(d: Db, steps: seq<Step>)
    decreases |steps|
  {
    steps == [] || (Enabled(d, steps[0]) && Run(Apply(d, steps[0]), steps[1..]))
  }

  function Final(d: Db, steps: seq<Step>): Db
    requires Run(d, steps)
    decreases |steps|
  {
    if steps == [] then d else Final(Apply(d, steps[0]), steps[1..])
  }

  // ---- Every reachable state ---------------------------------------------------------------

  predicate Shape(d: Db) {
    |d.jobs| == |d.lock.phases| && L.CancelInv(d.lock)
  }

  /** Exactly the lock's holders have jobs, of the matching kind. */
  predicate HoldersWork(d: Db)
    requires Shape(d)
  {
    forall t | 0 <= t < |d.jobs| ::
      && (d.jobs[t].Fetch? <==> d.lock.phases[t] == L.Reading)
      && (d.jobs[t].Statement? || d.jobs[t].Transaction? <==> d.lock.phases[t] == L.Writing)
  }

  /** A task is between its BEGIN and its COMMIT or ROLLBACK. */
  predicate InTransaction(d: Db) {
    d.owner.Some? && d.owner.value < |d.jobs| && d.jobs[d.owner.value] == Transaction(Open)
  }

  /** The writer connection holds an open transaction that no task is in. */
  predicate Stuck(d: Db) {
    d.tx.Some? && !InTransaction(d)
  }

  /** `_write_owner` is the one task in a transaction, which is open on the connection. */
  predicate OwnerWrites(d: Db) {
    && (forall t | 0 <= t < |d.jobs| :: d.jobs[t].Transaction? <==> d.owner == Some(t))
    && (d.owner.Some? ==> d.owner.value < |d.jobs|)
    && (InTransaction(d) ==> d.tx.Some?)
  }

  predicate Unpublished(j: Job) {
    j == Statement(false) || j == Transaction(Entering) || j == Transaction(Open)
  }

  /** Nothing is committed but unreleased unless the writer that holds the lock has just done it. */
  predicate ReleasedPrefix(d: Db)
    requires Shape(d)
  {
    && d.released <= |d.batches|
    && (!d.lock.lock.writerActive ==> d.released == |d.batches|)
    && (forall t | 0 <= t < |d.jobs| :: Unpublished(d.jobs[t]) ==> d.released == |d.batches|)
  }

  predicate Snapshots(d: Db) {
    forall t | 0 <= t < |d.jobs| && d.jobs[t].Fetch? ::
      && d.jobs[t].released == |d.batches|
      && (d.jobs[t].result.Some? ==> d.jobs[t].result.value == FetchView(d))
  }

  /** Each pooled connection is free or with one fetch. */
  predicate PoolExact(d: Db) {
    && (forall t | 0 <= t < |d.jobs| && d.jobs[t].Fetch? && d.jobs[t].conn.Some? :: d.jobs[t].conn.value !in d.pool)
    && (forall t, u | 0 <= t < u < |d.jobs| && d.jobs[t].Fetch? && d.jobs[u].Fetch? ::
          d.jobs[t].conn.Some? ==> d.jobs[t].conn != d.jobs[u].conn)
  }

  predicate Inv(d: Db) {
    Shape(d) && HoldersWork(d) && OwnerWrites(d) && ReleasedPrefix(d) && Snapshots(d) && PoolExact(d)
  }

  lemma InitInv(tasks: nat, readers: nat)
    ensures Inv(Init(tasks, readers))
  {
    L.InitInv(tasks);
    NobodyWorks(Init(tasks, readers));
  }

  lemma NobodyWorks(d: Db)
    requires Shape(d) && d.owner == None && d.tx == None && d.released == |d.batches|
    requires forall t | 0 <= t < |d.jobs| :: d.jobs[t] == NoJob && d.lock.phases[t] == L.Away
    ensures Inv(d)
  {
  }

  predicate Holds(p: L.Phase) {
    p == L.Reading || p == L.Writing
  }

  predicate SameHold(p: L.Phase, q: L.Phase) {
    p == q || (!Holds(p) && !Holds(q))
  }

  lemma OthersKeepHold(s: L.Sys, step: L.Step)
    requires L.Enabled(s, step)
    ensures var s' := L.Apply(s, step);
      && |s'.phases| == |s.phases| && step.t < |s.phases|
      && (forall u | 0 <= u < |s.phases| && u != step.t :: SameHold(s.phases[u], s'.phases[u]))
  {
  }

  /** A lock step leaves every other task's hold alone. */
  lemma LockStep(s: L.Sys, step: L.Step)
    requires L.CancelInv(s) && L.Enabled(s, step)
    ensures var s' := L.Apply(s, step);
      && L.CancelInv(s') && |s'.phases| == |s.phases| && step.t < |s.phases|
      && (forall u | 0 <= u < |s.phases| && u != step.t :: SameHold(s.phases[u], s'.phases[u]))
  {
    L.StepCancelInv(s, step);
    OthersKeepHold(s, step);
  }

  lemma ContendStep(s: L.Sys, step: L.Step)
    requires L.CancelInv(s) && L.Enabled(s, step) && !step.EndRead? && !step.EndWrite?
    ensures !Holds(s.phases[step.t])
    ensures L.Apply(s, step).phases[step.t] != L.Writing ==>
      L.Apply(s, step).lock.writerActive == s.lock.writerActive
    ensures L.Apply(s, step).phases[step.t] == L.Writing ==> !s.lock.writerActive
    ensures L.Apply(s, step).phases[step.t] == L.Reading ==> !s.lock.writerActive
  {
  }

  lemma {:induction false} StepInv(d: Db, step: Step)
    requires Inv(d) && Enabled(d, step)
    ensures Inv(Apply(d, step))
  {
    hide Inv, Apply, Enabled;
    match step
    case Contend(s, transaction) => ContendInv(d, s, transaction);
    case CheckOut(t, c) => PoolInv(d, step);
    case FetchRows(t) => FetchInv(d, t);
    case Return(t) => PoolInv(d, step);
    case EndRead(t) => EndReadInv(d, t);
    case Execute(t, row) => ExecuteInv(d, t, row);
    case Begin(t) => ConnectionInv(d, step);
    case Commit(t) => ConnectionInv(d, step);
    case Rollback(t) => ConnectionInv(d, step);
    case EndFails(t, left) => ConnectionInv(d, step);
    case EndWrite(t) => EndWriteInv(d, t);
  }

  lemma PoolInv(d: Db, step: Step)
    requires Inv(d) && Enabled(d, step) && (step.CheckOut? || step.Return?)
    ensures Inv(Apply(d, step))
  {
    hide L.CancelInv;
  }

  lemma ContendInv(d: Db, s: L.Step, transaction: bool)
    requires Inv(d) && Enabled(d, Contend(s, transaction))
    ensures Inv(Apply(d, Contend(s, transaction)))
  {
    LockStep(d.lock, s);
    ContendStep(d.lock, s);
    EnteredInv(d, L.Apply(d.lock, s), s.t, transaction);
  }

  lemma EnteredInv(d: Db, lock: L.Sys, t: nat, transaction: bool)
    requires Inv(d) && L.CancelInv(lock) && |lock.phases| == |d.lock.phases| && HasJob(d, t)
    requires forall u | 0 <= u < |lock.phases| && u != t :: SameHold(d.lock.phases[u], lock.phases[u])
    requires !Holds(d.lock.phases[t])
    requires lock.phases[t] != L.Writing ==> lock.lock.writerActive == d.lock.lock.writerActive
    requires Holds(lock.phases[t]) ==> !d.lock.lock.writerActive
    ensures Inv(Entered(d, lock, t, transaction))
  {
    if lock.phases[t] == L.Writing {
      WriterEntered(d, lock, t, transaction);
    } else if lock.phases[t] == L.Reading {
      ReaderEntered(d, lock, t);
    } else {
      StillOutside(d, lock, t, transaction);
    }
  }

  lemma StillOutside(d: Db, lock: L.Sys, t: nat, transaction: bool)
    requires Inv(d) && L.CancelInv(lock) && |lock.phases| == |d.lock.phases| && HasJob(d, t)
    requires forall u | 0 <= u < |lock.phases| && u != t :: SameHold(d.lock.phases[u], lock.phases[u])
    requires !Holds(d.lock.phases[t]) && !Holds(lock.phases[t])
    requires lock.lock.writerActive == d.lock.lock.writerActive
    ensures Inv(Entered(d, lock, t, transaction))
  {
    hide L.CancelInv, OwnerWrites, Snapshots, PoolExact;
    Unmoved(d, lock);
  }

  lemma Unmoved(d: Db, lock: L.Sys)
    requires OwnerWrites(d) && Snapshots(d) && PoolExact(d)
    ensures OwnerWrites(d.(lock := lock)) && Snapshots(d.(lock := lock)) && PoolExact(d.(lock := lock))
  {
  }

  lemma ReaderEntered(d: Db, lock: L.Sys, t: nat)
    requires Inv(d) && L.CancelInv(lock) && |lock.phases| == |d.lock.phases| && HasJob(d, t)
    requires forall u | 0 <= u < |lock.phases| && u != t :: SameHold(d.lock.phases[u], lock.phases[u])
    requires !Holds(d.lock.phases[t])
    requires lock.phases[t] == L.Reading && lock.lock.writerActive == d.lock.lock.writerActive == false
    ensures Inv(Entered(d, lock, t, false)) && Inv(Entered(d, lock, t, true))
  {
  }

  lemma WriterEntered(d: Db, lock: L.Sys, t: nat, transaction: bool)
    requires Inv(d) && L.CancelInv(lock) && |lock.phases| == |d.lock.phases| && HasJob(d, t)
    requires forall u | 0 <= u < |lock.phases| && u != t :: SameHold(d.lock.phases[u], lock.phases[u])
    requires !Holds(d.lock.phases[t])
    requires lock.phases[t] == L.Writing && !d.lock.lock.writerActive
    ensures Inv(Entered(d, lock, t, transaction))
  {
    forall u | 0 <= u < |d.jobs| && u != t
      ensures d.jobs[u] == NoJob
    {
      L.HoldersExclude(lock, t, u);
    }
    L.HoldersExclude(lock, t, |lock.phases|);
    assert d.owner == None;
  }

  lemma FetchInv(d: Db, t: nat)
    requires Inv(d) && Enabled(d, FetchRows(t))
    ensures Inv(Apply(d, FetchRows(t)))
  {
    NoTransactionWhileReading(d, t);
  }

  lemma NoTransactionWhileReading(d: Db, t: nat)
    requires Inv(d) && HasJob(d, t) && d.jobs[t].Fetch?
    ensures d.owner == None && !d.lock.lock.writerActive
  {
    if d.owner.Some? {
      L.HoldersExclude(d.lock, d.owner.value, t);
    }
    assert d.lock.phases[t] in multiset(d.lock.phases);
  }

  lemma EndReadInv(d: Db, t: nat)
    requires Inv(d) && Enabled(d, EndRead(t))
    ensures Inv(Apply(d, EndRead(t)))
  {
    LockStep(d.lock, L.EndRead(t));
    var lock := L.Apply(d.lock, L.EndRead(t));
    assert lock.phases[t] == L.Away && lock.lock.writerActive == d.lock.lock.writerActive;
    LeftInv(d, lock, t);
  }

  lemma LeftInv(d: Db, lock: L.Sys, t: nat)
    requires Inv(d) && L.CancelInv(lock) && |lock.phases| == |d.lock.phases| && HasJob(d, t)
    requires forall u | 0 <= u < |lock.phases| && u != t :: SameHold(d.lock.phases[u], lock.phases[u])
    requires d.lock.phases[t] == L.Reading && lock.phases[t] == L.Away
    requires lock.lock.writerActive == d.lock.lock.writerActive
    ensures Inv(d.(jobs := d.jobs[t := NoJob], lock := lock))
  {
    hide L.CancelInv;
  }

  lemma ExecuteInv(d: Db, t: nat, row: Row)
    requires Inv(d) && Enabled(d, Execute(t, row))
    ensures Inv(Apply(d, Execute(t, row)))
  {
    WriterAlone(d, t);
  }

  lemma WriterAlone(d: Db, t: nat)
    requires Inv(d) && HasJob(d, t) && d.lock.phases[t] == L.Writing
    ensures d.lock.lock.writerActive
    ensures forall u | 0 <= u < |d.jobs| && u != t :: d.jobs[u] == NoJob
  {
    forall u | 0 <= u < |d.jobs| && u != t
      ensures d.jobs[u] == NoJob
    {
      L.HoldersExclude(d.lock, t, u);
    }
    assert d.lock.phases[t] in multiset(d.lock.phases);
  }

  lemma ConnectionInv(d: Db, step: Step)
    requires Inv(d) && Enabled(d, step) && (step.Begin? || step.Commit? || step.Rollback? || step.EndFails?)
    ensures Inv(Apply(d, step))
  {
    WriterAlone(d, step.t);
    var d' := Apply(d, step);
    hide Inv, Apply, Enabled, ReleasedPrefix, L.CancelInv, Flatten;
    ConnectionKeeps(d, step);
    ConnectionPublishes(d, step);
    AloneInv(d', step.t);
  }

  lemma ConnectionKeeps(d: Db, step: Step)
    requires Shape(d) && HoldersWork(d) && OwnerWrites(d) && Enabled(d, step)
    requires step.Begin? || step.Commit? || step.Rollback? || step.EndFails?
    requires forall u | 0 <= u < |d.jobs| && u != step.t :: d.jobs[u] == NoJob
    ensures
      var d' := Apply(d, step);
      && Shape(d') && d'.lock == d.lock && |d'.jobs| == |d.jobs| && d'.jobs[step.t].Transaction?
      && (forall u | 0 <= u < |d'.jobs| && u != step.t :: d'.jobs[u] == NoJob)
      && HoldersWork(d') && d'.owner == Some(step.t) && (InTransaction(d') ==> d'.tx.Some?)
  {
  }

  lemma ConnectionPublishes(d: Db, step: Step)
    requires Inv(d) && Enabled(d, step) && (step.Begin? || step.Commit? || step.Rollback? || step.EndFails?)
    requires forall u | 0 <= u < |d.jobs| && u != step.t :: d.jobs[u] == NoJob
    requires d.lock.lock.writerActive && Shape(Apply(d, step))
    ensures ReleasedPrefix(Apply(d, step))
  {
    hide Snapshots, PoolExact, HoldersWork, OwnerWrites;
  }

  lemma AloneInv(d: Db, t: nat)
    requires Shape(d) && HoldersWork(d) && ReleasedPrefix(d)
    requires d.owner == Some(t) && t < |d.jobs| && d.jobs[t].Transaction? && (InTransaction(d) ==> d.tx.Some?)
    requires forall u | 0 <= u < |d.jobs| && u != t :: d.jobs[u] == NoJob
    ensures Inv(d)
  {
    hide Shape, HoldersWork, ReleasedPrefix;
  }

  lemma EndWriteInv(d: Db, t: nat)
    requires Inv(d) && Enabled(d, EndWrite(t))
    ensures Inv(Apply(d, EndWrite(t)))
  {
    WriterAlone(d, t);
    LockStep(d.lock, L.EndWrite(t));
    var lock := L.Apply(d.lock, L.EndWrite(t));
    assert lock.phases[t] == L.Away && !lock.lock.writerActive;
    hide L.Apply, L.Enabled;
    WriterLeft(d, lock, t);
  }

  /** The only task with a job ends it and releases the lock. */
  lemma WriterLeft(d: Db, lock: L.Sys, t: nat)
    requires Inv(d) && L.CancelInv(lock) && |lock.phases| == |d.lock.phases| && HasJob(d, t)
    requires forall u | 0 <= u < |lock.phases| && u != t :: SameHold(d.lock.phases[u], lock.phases[u])
    requires forall u | 0 <= u < |d.jobs| && u != t :: d.jobs[u] == NoJob
    requires lock.phases[t] == L.Away && !lock.lock.writerActive && d.jobs[t] != Transaction(Open)
    ensures
      Inv(d.(owner := if d.jobs[t].Transaction? then None else d.owner, released := |d.batches|,
             jobs := d.jobs[t := NoJob], lock := lock))
  {
    hide L.CancelInv;
  }

  lemma {:induction false} RunInv(d: Db, steps: seq<Step>)
    requires Inv(d) && Run(d, steps)
    ensures Inv(Final(d, steps))
    decreases |steps|
  {
    if steps != [] {
      StepInv(d, steps[0]);
      RunInv(Apply(d, steps[0]), steps[1..]);
    }
  }

  // ---- Theorems over runs ------------------------------------------------------------------

  ghost predicate Reachable(d: Db) {
    exists tasks: nat, readers: nat, steps: seq<Step> ::
      Run(Init(tasks, readers), steps) && d == Final(Init(tasks, readers), steps)
  }

  lemma ReachableInv(d: Db)
    requires Reachable(d)
    ensures Inv(d)
  {
    var tasks: nat, readers: nat, steps: seq<Step> :|
      Run(Init(tasks, readers), steps) && d == Final(Init(tasks, readers), steps);
    InitInv(tasks, readers);
    RunInv(Init(tasks, readers), steps);
  }

  /** Rows of a transaction that was left open, which only single-connection mode shows to a fetch. */
  function Leftover(d: Db): seq<Row> {
    if d.readers == 0 && Stuck(d) then d.tx.value else []
  }

  /** Every fetch returned exactly the batches whose writers had released the lock when the fetch
      acquired it: no part of a transaction, nothing newer, nothing missing. Pooled or not, except that
      single-connection mode adds the rows of a transaction that a failing COMMIT has left open. */
  lemma FetchesAreSnapshots(d: Db, t: nat)
    requires Reachable(d) && HasJob(d, t) && d.jobs[t].Fetch? && d.jobs[t].result.Some?
    ensures d.jobs[t].released <= |d.batches|
    ensures d.jobs[t].result.value == Flatten(d.batches[..d.jobs[t].released]) + Leftover(d)
  {
    ReachableInv(d);
    NoTransactionWhileReading(d, t);
    assert d.batches[..|d.batches|] == d.batches;
  }

  /** While a task is in its transaction only that task runs statements, and nobody fetches. */
  lemma NoForeignStatement(d: Db, step: Step)
    requires Reachable(d) && InTransaction(d) && Enabled(d, step)
    ensures step.Execute? ==> OwnsWrite(d, step.t)
    ensures !step.FetchRows? && !step.CheckOut? && !step.Return?
  {
    ReachableInv(d);
    WriterAlone(d, d.owner.value);
  }

  /** COMMIT and ROLLBACK always meet their task's own transaction. */
  lemma TransactionsNest(d: Db, step: Step)
    requires Reachable(d) && Enabled(d, step) && (step.Commit? || step.Rollback? || step.EndFails?)
    ensures d.tx.Some? && InTransaction(d) && OwnsWrite(d, step.t)
  {
    ReachableInv(d);
  }

  /** The step is a COMMIT or ROLLBACK that fails and leaves its transaction open. */
  predicate LeavesOpen(step: Step) {
    step.EndFails? && step.left
  }

  predicate LeftOpen(steps: seq<Step>) {
    exists step <- steps :: LeavesOpen(step)
  }

  lemma LeftOpenFirst(steps: seq<Step>)
    requires steps != []
    ensures LeftOpen(steps) <==> LeavesOpen(steps[0]) || LeftOpen(steps[1..])
  {
    hide LeavesOpen;
    assert steps == [steps[0]] + steps[1..];
  }

  /** Only such a failure leaves a transaction that nobody is in, and nothing ever ends it. */
  lemma StepStuck(d: Db, step: Step)
    requires Inv(d) && Enabled(d, step)
    ensures Stuck(Apply(d, step)) <==> Stuck(d) || LeavesOpen(step)
    ensures Stuck(d) ==> Apply(d, step).batches == d.batches
  {
    if step.Contend? {
      ContendStep(d.lock, step.step);
      hide L.Enabled, L.Apply;
    }
  }

  /** Once a transaction is left open nothing is committed any more. */
  lemma {:induction false} StuckNeverCommits(d: Db, steps: seq<Step>)
    requires Reachable(d) && Stuck(d) && Run(d, steps)
    ensures Stuck(Final(d, steps)) && Final(d, steps).batches == d.batches
  {
    ReachableInv(d);
    StuckStays(d, steps);
  }

  lemma {:induction false} StuckStays(d: Db, steps: seq<Step>)
    requires Inv(d) && Stuck(d) && Run(d, steps)
    ensures Stuck(Final(d, steps)) && Final(d, steps).batches == d.batches
    decreases |steps|
  {
    if steps != [] {
      hide Inv, Stuck, Enabled, Apply;
      StepStuck(d, steps[0]);
      StepInv(d, steps[0]);
      StuckStays(Apply(d, steps[0]), steps[1..]);
    }
  }

  lemma {:induction false} StuckExactly(d: Db, steps: seq<Step>)
    requires Inv(d) && Run(d, steps)
    ensures Stuck(Final(d, steps)) <==> Stuck(d) || LeftOpen(steps)
    decreases |steps|
  {
    if steps != [] {
      hide Inv, Stuck, Enabled, Apply, LeavesOpen, LeftOpen;
      LeftOpenFirst(steps);
      StepStuck(d, steps[0]);
      StepInv(d, steps[0]);
      StuckExactly(Apply(d, steps[0]), steps[1..]);
    }
  }

  lemma NobodyInTransaction(d: Db, t: nat)
    requires Inv(d) && HasJob(d, t) && d.jobs[t] == Transaction(Entering)
    ensures !InTransaction(d)
  {
  }

  lemma InitNotStuck(tasks: nat, readers: nat)
    ensures !Stuck(Init(tasks, readers))
  {
  }

  /** BEGIN meets an open transaction, and fails, exactly if a COMMIT or ROLLBACK has failed before and
      left its transaction open. */
  lemma BeginFailsExactlyAfterLeftOpen(tasks: nat, readers: nat, steps: seq<Step>, t: nat)
    requires Run(Init(tasks, readers), steps) && Enabled(Final(Init(tasks, readers), steps), Begin(t))
    ensures Final(Init(tasks, readers), steps).tx.Some? <==> LeftOpen(steps)
  {
    hide LeftOpen, Run, Final, Inv, Init;
    var d := Init(tasks, readers);
    InitInv(tasks, readers);
    InitNotStuck(tasks, readers);
    RunInv(d, steps);
    StuckExactly(d, steps);
    NobodyInTransaction(Final(d, steps), t);
  }

  /** One task that meets its own leftover: its COMMIT fails, it releases the lock and tries again. */
  const RETRY: seq<Step> :=
    [Contend(L.StartWrite(0), true), Begin(0), EndFails(0, true), EndWrite(0), Contend(L.StartWrite(0), true)]

  const HELD: L.Sys := L.Sys(L.Init(1).lock.(writerActive := true), [L.Writing])
  const ENTERED: Db := Init(1, 0).(lock := HELD, jobs := [Transaction(Entering)], owner := Some(0))
  const BEGUN: Db := ENTERED.(jobs := [Transaction(Open)], tx := Some([]))
  const ENDED: Db := BEGUN.(jobs := [Transaction(Over)])
  const RELEASED: Db := Init(1, 0).(tx := Some([]))
  const AGAIN: Db := ENTERED.(tx := Some([]))

  /** Taking `steps` from `d` ends in `d'`. */
  predicate Leads(d: Db, steps: seq<Step>, d': Db) {
    Run(d, steps) && Final(d, steps) == d'
  }

  lemma LeadsOn(d: Db, step: Step, steps: seq<Step>, d': Db)
    requires Enabled(d, step) && Leads(Apply(d, step), steps, d')
    ensures Leads(d, [step] + steps, d')
  {
    assert ([step] + steps)[1..] == steps;
  }

  lemma LockTaken()
    ensures L.Enabled(L.Init(1), L.StartWrite(0)) && L.Apply(L.Init(1), L.StartWrite(0)) == HELD
    ensures L.Enabled(HELD, L.EndWrite(0)) && L.Apply(HELD, L.EndWrite(0)) == L.Init(1)
  {
    assert L.Init(1).phases == [L.Away];
    assert L.WakeAll([L.Writing]) == [L.Writing];
    assert L.WakeAll([L.Away]) == [L.Away];
  }

  lemma TaskEnters()
    ensures Enabled(Init(1, 0), RETRY[0]) && Apply(Init(1, 0), RETRY[0]) == ENTERED
    ensures Enabled(ENDED, RETRY[3]) && Apply(ENDED, RETRY[3]) == RELEASED
    ensures Enabled(RELEASED, RETRY[4]) && Apply(RELEASED, RETRY[4]) == AGAIN
  {
    LockTaken();
    assert L.Init(1).phases == [L.Away];
    hide L.Enabled, L.Apply, L.Init;
    assert NoJobs(1) == [NoJob];
  }

  lemma BeginCanFail()
    ensures Run(Init(1, 0), RETRY) && Enabled(Final(Init(1, 0), RETRY), Begin(0))
    ensures Final(Init(1, 0), RETRY).tx.Some?
  {
    TaskEnters();
    assert Enabled(ENTERED, RETRY[1]) && Apply(ENTERED, RETRY[1]) == BEGUN;
    assert Enabled(BEGUN, RETRY[2]) && Apply(BEGUN, RETRY[2]) == ENDED;
    assert Leads(AGAIN, [], AGAIN) && Enabled(AGAIN, Begin(0));
    hide Enabled, Apply;
    LeadsOn(RELEASED, RETRY[4], [], AGAIN);
    LeadsOn(ENDED, RETRY[3], [RETRY[4]], AGAIN);
    LeadsOn(BEGUN, RETRY[2], [RETRY[3]] + [RETRY[4]], AGAIN);
    LeadsOn(ENTERED, RETRY[1], [RETRY[2]] + ([RETRY[3]] + [RETRY[4]]), AGAIN);
    LeadsOn(Init(1, 0), RETRY[0], [RETRY[1]] + ([RETRY[2]] + ([RETRY[3]] + [RETRY[4]])), AGAIN);
  }

  /** Two fetches never share a pooled connection, and a connection in use is not in the pool. */
  lemma ConnectionsNotShared(d: Db, t: nat, u: nat)
    requires Reachable(d) && t != u && HasJob(d, t) && HasJob(d, u)
    requires d.jobs[t].Fetch? && d.jobs[u].Fetch? && d.jobs[t].conn.Some?
    ensures d.jobs[t].conn != d.jobs[u].conn && d.jobs[t].conn.value !in d.pool
  {
    ReachableInv(d);
    if u < t && d.jobs[u].conn.Some? {
      assert d.jobs[u].conn != d.jobs[t].conn;
    }
  }

  /** Later commits only add batches: what a fetch saw stays a prefix of the database. */
  lemma {:induction false} BatchesOnlyGrow(d: Db, steps: seq<Step>)
    requires Run(d, steps)
    ensures d.batches <= Final(d, steps).batches
    decreases |steps|
  {
    if steps != [] {
      assert d.batches <= Apply(d, steps[0]).batches;
      BatchesOnlyGrow(Apply(d, steps[0]), steps[1..]);
    }
  }

  function Pool(readers: nat): (pool: seq<Conn>)
    ensures |pool| == readers && forall i | 0 <= i < readers :: pool[i] == i
    ensures forall c: nat :: c in pool <==> c < readers
  {
    if readers == 0 then [] else Pool(readers - 1) + [readers - 1]
  }

  lemma UsedIsNotFree(d: Db, t: nat)
    requires Inv(d) && HasJob(d, t) && d.jobs[t].Fetch? && d.jobs[t].conn.Some?
    ensures d.jobs[t].conn.value !in d.pool
  {
  }

  lemma PoolSet(readers: nat)
    ensures (set c | c in Pool(readers)) == Connections(readers)
  {
    hide Pool, Connections;
  }

  // ---- The class ---------------------------------------------------------------------------

  /** `AsyncSQLite` and `_Transaction`: each method is one stretch of code between two suspension points.
      Coroutine frames and the database are ghost. */
  class AsyncSQLite {
    const rw: RWLock
    const readers: nat
    var writeOwner: Option<nat>
    /** The `asyncio.Queue` of free read connections. */
    var readPool: seq<Conn>
    ghost var phases: seq<L.Phase>
    ghost var jobs: seq<Job>
    ghost var batches: seq<seq<Row>>
    ghost var tx: Option<seq<Row>>
    ghost var released: nat

    ghost function Contents(): Db
      reads this, rw
    {
      Db(L.Sys(rw.State(), phases), jobs, writeOwner, readers, (set c | c in readPool), batches, tx, released)
    }

    ghost predicate Valid()
      reads this, rw
    {
      Inv(Contents()) && forall i, j | 0 <= i < j < |readPool| :: readPool[i] != readPool[j]
    }

    constructor (readers: nat, ghost tasks: nat)
      ensures this.readers == readers && fresh(rw) && Valid() && Contents() == Init(tasks, readers)
    {
      this.readers := readers;
      rw := new RWLock();
      writeOwner := None;
      readPool := Pool(readers);
      phases, jobs, batches, tx, released := L.AllAway(tasks), NoJobs(tasks), [], None, 0;
      new;
      hide Inv, L.Init, NoJobs, Connections, Pool;
      PoolSet(readers);
      assert Contents() == Init(tasks, readers);
      InitInv(tasks, readers);
    }

    /** `_owns_write`. */
    method OwnsWriteNow(t: nat) returns (owns: bool)
      ensures owns == OwnsWrite(Contents(), t)
    {
      owns := writeOwner.Some? && writeOwner.value == t;
    }

    /** `_read` takes a pooled connection. */
    method TakeConnection(t: nat) returns (conn: Conn)
      requires Valid() && HasJob(Contents(), t) && readPool != []
      requires readers > 0 && jobs[t].Fetch? && jobs[t].conn == None && jobs[t].result == None
      modifies this`readPool, this`jobs
      ensures Valid() && Enabled(old(Contents()), CheckOut(t, conn))
      ensures Contents() == Apply(old(Contents()), CheckOut(t, conn))
    {
      hide Inv;
      conn := readPool[0];
      assert Enabled(Contents(), CheckOut(t, conn));
      StepInv(Contents(), CheckOut(t, conn));
      ghost var pool := set c | c in readPool;
      assert (set c | c in readPool[1..]) == pool - {conn};
      readPool := readPool[1..];
      jobs := jobs[t := jobs[t].(conn := Some(conn))];
      assert Contents() == Apply(old(Contents()), CheckOut(t, conn));
    }

    /** The `finally` of `_read` that puts the connection back. */
    method PutBack(t: nat, conn: Conn)
      requires Valid() && HasJob(Contents(), t) && jobs[t].Fetch? && jobs[t].conn == Some(conn)
      modifies this`readPool, this`jobs
      ensures Valid() && Contents() == Apply(old(Contents()), Return(t))
    {
      hide Inv;
      UsedIsNotFree(Contents(), t);
      StepInv(Contents(), Return(t));
      ghost var pool := set c | c in readPool;
      assert (set c | c in readPool + [conn]) == pool + {conn};
      readPool := readPool + [conn];
      jobs := jobs[t := jobs[t].(conn := None)];
      assert Contents() == Apply(old(Contents()), Return(t));
    }

    /** `_acquire_write`, or the acquire of a single statement, once the lock lets the task in. */
    method EnterWrite(t: nat, transaction: bool) returns (entered: bool)
      requires Valid() && Enabled(Contents(), Contend(L.WakeWrite(t), transaction))
      modifies rw, this`writeOwner, this`phases, this`jobs
      ensures Valid() && Contents() == Apply(old(Contents()), Contend(L.WakeWrite(t), transaction))
    {
      hide Inv, L.WakeAll;
      StepInv(Contents(), Contend(L.WakeWrite(t), transaction));
      ghost var after := Apply(Contents(), Contend(L.WakeWrite(t), transaction));
      entered := rw.ResumeWrite();
      if entered && transaction {
        writeOwner := Some(t);
      }
      phases, jobs := after.lock.phases, after.jobs;
    }

    /** `_release_write` at the end of a transaction. */
    method ReleaseWrite(t: nat)
      requires Valid() && Enabled(Contents(), EndWrite(t)) && jobs[t].Transaction?
      modifies rw, this`writeOwner, this`phases, this`jobs, this`released
      ensures Valid() && Contents() == Apply(old(Contents()), EndWrite(t))
    {
      hide Inv, L.WakeAll;
      StepInv(Contents(), EndWrite(t));
      ghost var after := Apply(Contents(), EndWrite(t));
      writeOwner := None;
      rw.ReleaseWrite();
      phases, jobs, released := after.lock.phases, after.jobs, |batches|;
    }

    /** The release at the end of `_write`, which leaves the owner alone. */
    method EndStatement(t: nat)
      requires Valid() && Enabled(Contents(), EndWrite(t)) && jobs[t].Statement?
      modifies rw, this`phases, this`jobs, this`released
      ensures Valid() && Contents() == Apply(old(Contents()), EndWrite(t))
    {
      hide Inv, L.WakeAll;
      StepInv(Contents(), EndWrite(t));
      ghost var after := Apply(Contents(), EndWrite(t));
      rw.ReleaseWrite();
      phases, jobs, released := after.lock.phases, after.jobs, |batches|;
    }

    /** `release_read` at the end of `_read`. */
    method LeaveRead(t: nat)
      requires Valid() && Enabled(Contents(), EndRead(t))
      modifies rw, this`phases, this`jobs
      ensures Valid() && Contents() == Apply(old(Contents()), EndRead(t))
    {
      hide Inv, L.WakeAll;
      StepInv(Contents(), EndRead(t));
      ghost var after := Apply(Contents(), EndRead(t));
      var _ := rw.ReleaseRead();
      phases, jobs := after.lock.phases, after.jobs;
    }
  }
}
