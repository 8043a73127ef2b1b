# A verified model of the pubsub broker

This project models the stateful core of the broker in Dafny and proves what its documentation and tests
promise of it: the read/write lock and transactions of `pubsub/server/_asqlite.py`, group commit and the two
durability backends, routing and subject matching, the broker's delivery bookkeeping with retries, admission
and replay, the settlement of deliveries on a server connection, the resume of a client, and the framing of
the wire protocol.

`dafny verify dfyconfig.toml` checks everything.

## How it is built

Each component has a value that holds its fields, functions that say what one stretch of code between two
suspension points does to them, and a class with the same fields whose methods run that code and ensure that
the new state is the function of the old one. On top of the functions stand state machines: any number of
tasks, every interleaving of their steps. An invariant is proved for every reachable state, and the results
about runs follow by induction over steps. What only exists as a coroutine frame, as a row in the database or
with a consumer is ghost state in the classes, and the invariants relate the real fields to it.

| files | what they model |
|---|---|
| `RwLock`, `RwLockRuns`, `RwLockOrder` | the lock, its tasks, and who gets it |
| `AsyncSqlite`, `TransactionLog` | connections and transactions above it, and what they leave in the database |
| `GroupCommit`, `Durability` | append batching; the in-memory and the SQLite backend |
| `Topic`, `Router`, `Sorting` | subjects and patterns, the registry, Python's stable sort |
| `Retry` | budget, chains of attempts, backoff |
| `BrokerState`, `Broker` | the broker's fields, its steps as functions, and the class |
| `BrokerInvariant`, `BrokerHistory`, `BrokerGate`, `BrokerRuns` | what every step of the broker keeps |
| `BrokerTheorems`, `BrokerBound`, `BrokerReplay`, `BrokerCopies`, `BrokerLifecycle`, `BrokerMoves` | what follows for every run |
| `BrokerFlights`, `BrokerWaiters`, `BrokerZombie` | late wakeups, parked producers, and when the gate reopens |
| `Handoff`, `HandoffRuns` | publishes against a replaying subscriber, over the whole broker |
| `Settlement`, `Connection` | ack and nack by delivery id on a connection, over the whole broker |
| `Resume`, `Client` | the client's side of a reconnect |
| `Wire` | length-prefixed frames |
| `Common`, `Types`, `Counting` | options and results, the envelopes, sums and sizes |

Identifiers are numbers and are drawn fresh; timestamps are reals; message bodies are opaque. A delivery
carries the id of the first attempt of its retry chain, which the source does not store and nothing here
computes with.

Assumptions:

* Retry budgets of at least 3 attempts (the default is 10) make `schedule` return without suspending for a
  first attempt, so that a fanout and a replay flush are single steps. With a smaller budget they are not
  single steps in the source. `BrokerReplay.FlushKeepsAge` also needs this for what it states, and names it
  as `BrokerState.Sane`.
* A consumer settles each delivery that it took at most once. `Settlement` shows that a server connection
  guarantees this for its clients.
* How many writers overtake a reader is exact without any assumption about scheduling. That no holder releases
  before every notified waiter has looked at its guard is only a sufficient condition
  (`RwLockRuns.DisciplineKeepsTurns`): the bodies of the source suspend in an executor while they hold the lock.
* A transaction's body reads nothing, and nobody calls `commit` or `rollback` of `AsyncSQLite` directly; no module
  of the repository does.

## Where the documentation and the code differ

The model follows the code.

* `Broker._gate` documents that the gate always eventually reopens. A backoff task that outlives its
  subscription still records its delivery as in flight, and nobody need take it from there. Such entries are
  the only inexactness of the backlog (`BrokerTheorems.BacklogIsExact`), and `BrokerFlights.ZombiesChange` says
  exactly which steps add and remove them. With no live work left the gate is open if and only if there are
  fewer of them than the budget allows (`BrokerZombie.DrainedGateOpens`); once they fill it, a parked producer
  stays parked until one of them is settled or dropped or somebody joins (`BrokerZombie.ShutForGood`), which
  `BrokerZombie.GateCanStayShut` shows to be reachable.
* `_RWLock` documents that readers waiting at a writer's release run ahead of the next writer. Readers that
  arrive later may join and end that turn first. `RwLockRuns.OvertakenExactlyWhenTurnLost` and
  `RwLockRuns.WaitersEnterBeforeNextWriter` state that the promise fails exactly when the last reader of a turn
  is released while a reader still waits; `RwLockRuns.UnboundedBypassWithoutDiscipline` repeats that without
  end. A cancelled waiter can leave others asleep whom nothing blocks any more:
  `RwLockRuns.CancelLosesWakeupExactlyWhenStranding` says exactly which cancellations do.
* `_Transaction` documents that no half-open transaction is left. It does not roll back after a COMMIT that
  fails; `AsyncSqlite.BeginFailsExactlyAfterLeftOpen` and `AsyncSqlite.StuckNeverCommits` say what follows when
  the database keeps the transaction open.
* `_Subscription._resume_policy` documents a resume just after the last acked message. The bound is inclusive
  and is the latest acked timestamp: `Resume.OnlyTheBoundaryRepeats` and `Resume.OvertakenIsLost` say what is
  repeated and what is lost, `Resume.ResumeCoversTheGap` exactly when nothing is lost.

## Model

| member | source | states |
|---|---|---|
| RwLock.RWLock.BeginRead | pubsub/server/_asqlite.py:73-84 | An arriving reader is counted as waiting and enters at once exactly when the guard is false. |
| RwLock.RWLock.ResumeRead | pubsub/server/_asqlite.py:78-84 | A reader that looks again enters, and stops waiting, exactly when the guard is false. |
| RwLock.RWLock.ReleaseRead | pubsub/server/_asqlite.py:86-91 | Only the last reader ends the reader turn and notifies. |
| RwLock.RWLock.BeginWrite | pubsub/server/_asqlite.py:93-106 | An arriving writer enters at once exactly when nobody holds the lock and no reader turn is pending. |
| RwLock.RWLock.ResumeWrite | pubsub/server/_asqlite.py:98-106 | The same for a writer that looks again. |
| RwLock.RWLock.ReleaseWrite | pubsub/server/_asqlite.py:108-114 | A release grants the next turn to readers exactly when some are waiting. |
| RwLock.RWLock.AbandonRead | pubsub/server/_asqlite.py:82-83 | A cancelled reader only stops being counted. |
| RwLock.RWLock.AbandonWrite | pubsub/server/_asqlite.py:104-105 | A cancelled writer only stops being counted. |
| RwLockRuns.MutualExclusion | pubsub/server/_asqlite.py:52-114 | In every reachable state, with cancellations, a writer holds the lock alone. |
| RwLockOrder.ReadersEnterExactly | pubsub/server/_asqlite.py:73-84 | With or without cancellations, a reader that looks gets the lock exactly if no task writes and none waits to write, unless the readers have their turn. |
| RwLockOrder.WritersEnterExactly | pubsub/server/_asqlite.py:93-106 | A writer that looks gets it exactly if no task reads or writes, and not while the readers have their turn and one of them waits. |
| RwLockOrder.TurnIsExact | pubsub/server/_asqlite.py:86-114 | The readers have the turn exactly from a writer's release at which some reader waits to the release of the last reader. |
| RwLockOrder.WakeupsAreExact | pubsub/server/_asqlite.py:81-114 | Another task is woken exactly by a writer's release, by the last reader's, and by a cancelled waiter that passes its wakeup on. |
| RwLockOrder.NoReaderPassesWaitingWriter | pubsub/server/_asqlite.py:52-84 | Over runs: while a writer waits and the readers have no turn, no reader gets the lock before the next writer's release. |
| RwLockRuns.SleepersAreBlocked | pubsub/server/_asqlite.py:73-114 | No lost wakeup: without cancellation every un-notified waiter's guard is true. |
| RwLockRuns.NoLostWakeupExactlyWhenNothingStrands | pubsub/server/_asqlite.py:73-114 | With cancellations: no wakeup is lost anywhere in a run if and only if no cancellation in it strands somebody. |
| RwLockRuns.CancelLosesWakeupExactlyWhenStranding | pubsub/server/_asqlite.py:78-83 | One cancellation loses a wakeup if and only if it takes away the last waiter that blocked the other side while somebody there is left asleep. |
| RwLockRuns.WatchfulMeans | pubsub/server/_asqlite.py:73-106 | What it means that no wakeup is lost: every sleeping reader and every sleeping writer has a true guard. |
| RwLockRuns.CancelLeavesSleepersUnblocked | pubsub/server/_asqlite.py:78-83 | Such a cancellation is reachable: a reader sleeps with a false guard. |
| RwLockRuns.IdleLockHasEntrant | pubsub/server/_asqlite.py:73-114 | Even with cancellations, an idle lock with waiters has a notified task whose guard is false. |
| RwLockRuns.EntryWithinWokenTasks | pubsub/server/_asqlite.py:73-114 | From an idle lock with waiters somebody enters before all notified tasks have looked in vain. |
| RwLockRuns.BypassIsExact | pubsub/server/_asqlite.py:73-114 | While a reader waits, the writers that became active and those that still may are exactly the one due at the start and one for each turn that the readers lost. |
| RwLockRuns.BoundedBypass | pubsub/server/_asqlite.py:73-114 | With no turn lost, at most one writer becomes active while a reader waits, and none once its turn was granted. |
| RwLockRuns.OvertakenExactlyWhenTurnLost | pubsub/server/_asqlite.py:86-106 | At some time of a run an arriving writer could pass the waiting reader out of turn, if and only if the last reader of a turn was released while the reader still waited. |
| RwLockRuns.LostTurnOvertakes | pubsub/server/_asqlite.py:86-106 | After such a release the task that made it can write at once, past the reader. |
| RwLockRuns.DisciplineKeepsTurns | pubsub/server/_asqlite.py:86-114 | If no holder releases before every notified waiter has looked, no turn is lost. |
| RwLockRuns.WaitersEnterBeforeNextWriter | pubsub/server/_asqlite.py:108-114 | A reader that waits when a writer releases is passed by no other writer if no turn is lost, and an arriving writer can pass it if and only if one is. |
| RwLockRuns.ReaderOvertakenAtMostOnce | pubsub/server/_asqlite.py:73-84 | From its arrival on a reader is overtaken by at most one writer, and one more for each lost turn. |
| RwLockRuns.UnboundedBypassWithoutDiscipline | pubsub/server/_asqlite.py:78-91 | Without the scheduling assumption any number of writers can pass a notified reader. |
| RwLockRuns.PassedOverIsReachable | pubsub/server/_asqlite.py:73-114 | The state in which that happens is reachable. |
| AsyncSqlite.AsyncSQLite.EnterWrite | pubsub/server/_asqlite.py:211-213 | A task that gets the lock for a transaction becomes the owner, a single statement does not; the invariant is kept. |
| AsyncSqlite.AsyncSQLite.ReleaseWrite | pubsub/server/_asqlite.py:215-217 | The end of a transaction clears the owner and releases the lock; the invariant is kept. |
| AsyncSqlite.AsyncSQLite.EndStatement | pubsub/server/_asqlite.py:219-226 | The end of a single write releases the lock and leaves the owner alone; the invariant is kept. |
| AsyncSqlite.AsyncSQLite.TakeConnection | pubsub/server/_asqlite.py:274-281 | A fetch takes one free connection out of the pool; the invariant is kept. |
| AsyncSqlite.AsyncSQLite.PutBack | pubsub/server/_asqlite.py:281-284 | It puts exactly that connection back; the invariant is kept. |
| AsyncSqlite.AsyncSQLite.LeaveRead | pubsub/server/_asqlite.py:285-286 | The end of a fetch releases the read lock; the invariant is kept. |
| AsyncSqlite.FetchesAreSnapshots | pubsub/server/_asqlite.py:274-286 | Every fetch returns exactly the batches whose writers had released the lock when it acquired it, and in single-connection mode also the rows of a transaction that was left open. |
| AsyncSqlite.NoForeignStatement | pubsub/server/_asqlite.py:208-226 | While a task is in its transaction only that task runs statements, and nobody fetches. |
| TransactionLog.BatchesAreExact | pubsub/server/_asqlite.py:208-359 | In every run the database holds exactly the log read off its steps: each statement outside transactions as a batch of its own, each COMMIT as the rows its task executed since its BEGIN, and nothing for a ROLLBACK, a failure, or anything after a transaction was left open. |
| TransactionLog.RowsAreThoseThatLast | pubsub/server/_asqlite.py:326-359 | In every run a row is in the database if and only if some statement wrote it outside transactions or in one that was committed. |
| TransactionLog.RolledBackIsInvisible | pubsub/server/_asqlite.py:326-359 | A row written only in transactions that were not committed is in no fetch result, except what single-connection mode shows of one left open. |
| AsyncSqlite.TransactionsNest | pubsub/server/_asqlite.py:326-359 | COMMIT and ROLLBACK always meet their own task's transaction. |
| AsyncSqlite.BeginFailsExactlyAfterLeftOpen | pubsub/server/_asqlite.py:340-359 | BEGIN meets an open transaction, and fails, if and only if a COMMIT or ROLLBACK has failed before and left its transaction open. |
| AsyncSqlite.BeginCanFail | pubsub/server/_asqlite.py:340-359 | A run in which it does. |
| AsyncSqlite.StuckNeverCommits | pubsub/server/_asqlite.py:340-359 | Once a transaction was left open nobody ends it, and no statement and no later transaction is ever committed. |
| AsyncSqlite.ConnectionsNotShared | pubsub/server/_asqlite.py:279-284 | No two fetches share a read connection, and one in use is not in the pool. |
| TransactionLog.ConnectionsAreConserved | pubsub/server/_asqlite.py:279-284 | No read connection is lost: each is in the pool or with a fetch, never both. |
| AsyncSqlite.BatchesOnlyGrow | pubsub/server/_asqlite.py:326-359 | What a fetch saw stays a prefix of the database. |
| GroupCommit.Appends.Append | pubsub/server/durability/sqlite.py:131-136 | An append queues its row and starts a drain task exactly when none is running. |
| GroupCommit.Appends.TakeBatch | pubsub/server/durability/sqlite.py:146-148 | The drain task takes everything queued into one transaction, or returns when nothing is. |
| GroupCommit.Appends.SettleBatch | pubsub/server/durability/sqlite.py:153-160 | Every waiter of the batch that is not done is told the batch's outcome, nobody else. |
| GroupCommit.WaitersAreToldTheTruth | pubsub/server/durability/sqlite.py:110-160 | A waiter succeeds only if its row is committed, and fails only if it never will be. |
| GroupCommit.FuturesAreExact | pubsub/server/durability/sqlite.py:110-160 | After any run a future is cancelled if and only if its waiter gave up, pending exactly while its row is queued or its batch unsettled, and otherwise succeeded or failed as its row is committed or not. |
| GroupCommit.SettleTells | pubsub/server/durability/sqlite.py:153-160 | Settling tells each waiter of the batch that still waits success after the commit and failure after the rollback, and nobody else anything. |
| GroupCommit.RowsAreConserved | pubsub/server/durability/sqlite.py:138-160 | Every row is in exactly one of database, open transaction, queue and dropped batches. |
| GroupCommit.CommittedOnceInOrder | pubsub/server/durability/sqlite.py:138-160 | No row is committed twice, and rows are committed in the order they were queued. |
| GroupCommit.FailedBatchLeavesNothing | pubsub/server/durability/sqlite.py:149-157 | None of a failed batch's rows is ever committed, and settling it fails exactly its waiters that have not given up. |
| GroupCommit.SingleDrainer | pubsub/server/durability/sqlite.py:134-135 | At most one drain task is live, and one is whenever a row is queued or a waiter waits. |
| GroupCommit.NobodyIsStranded | pubsub/server/durability/sqlite.py:146-160 | The drain task alone finishes within a bounded number of steps, and then every waiter has been told. |
| GroupCommit.RunsNeverGetStuck | pubsub/server/durability/sqlite.py:138-160 | Every enabled step of a reachable state can be taken. |
| Durability.InMemoryDurability.RegisterTopic | pubsub/server/durability/memory.py:22-23 | Registering sets the topic's flag and nothing else. |
| Durability.InMemoryDurability.Append | pubsub/server/durability/memory.py:25-29 | A message joins the history exactly when its topic is replayable now. |
| Durability.InMemoryDurability.RecordAck | pubsub/server/durability/memory.py:39-40 | The last ack of the subscription is replaced. |
| Durability.InMemoryDurability.ToDlq | pubsub/server/durability/memory.py:45-46 | The entry is added at the end. |
| Durability.SqliteDurability.RegisterTopic | pubsub/server/durability/sqlite.py:103-108 | The upsert sets the topic's flag and touches no message. |
| Durability.SqliteDurability.Insert | pubsub/server/durability/sqlite.py:71-76 | The row gets the next number and the flag that its topic has at this moment. |
| Durability.SqliteDurability.RecordAck | pubsub/server/durability/sqlite.py:170-175 | The upsert replaces the last ack of the subscription. |
| Durability.SqliteDurability.ToDlq | pubsub/server/durability/sqlite.py:183-199 | The entry gets the next number. |
| Durability.ReadFromMeaning | pubsub/server/durability/memory.py:31-37 | A read returns the retained messages from the timestamp on, each as often as retained, oldest first. |
| Durability.HistoryIsExact | pubsub/server/durability/memory.py:22-29 | After any operations the history is exactly what was appended while the latest registration of its topic had opted in, in the order of the appends. |
| Durability.AcksAndDeadLettersAreExact | pubsub/server/durability/memory.py:39-46 | After any operations the acks are exactly the latest of each subscription, and the dead letters all of them in order. |
| Durability.QueryIsStableSort | pubsub/server/durability/sqlite.py:162-168 | The query's order by time and number has one answer: the stable sort by time of the selected rows. |
| Durability.ReadFromRefines | pubsub/server/durability/sqlite.py:162-168 | After any operations both backends read the same messages in the same order. |
| Durability.ReadFromAnswers | pubsub/server/durability/sqlite.py:162-168 | The query has an answer. |
| Durability.AcksAndDeadLettersRefine | pubsub/server/durability/sqlite.py:170-222 | After any operations both backends agree on last acks and dead letters. |
| Durability.RegistrationKeepsHistory | pubsub/server/durability/sqlite.py:103-108 | Later registrations change no earlier message's visibility in either backend. |
| Topic.JoinSplit | pubsub/shared/topic.py:16-23 | Joining the split of a subject with dots gives the subject back. |
| Topic.SplitJoin | pubsub/shared/topic.py:16-23 | Splitting the join of dot-free tokens gives the tokens back. |
| Topic.SplitInjective | pubsub/shared/topic.py:16-23 | Different subjects split differently. |
| Topic.SplitSubject | pubsub/shared/topic.py:16-23 | Splitting fails exactly for the empty subject and for empty tokens, with the matching error. |
| Topic.ValidateSubject | pubsub/shared/topic.py:26-34 | Exactly the well split subjects without wildcard characters are accepted. |
| Topic.ValidatePattern | pubsub/shared/topic.py:37-49 | Exactly the valid patterns are accepted, and the first bad token decides the error. |
| Topic.WellSplitMeans | pubsub/shared/topic.py:16-23 | Character by character: a string splits well if it is not empty and has no dot at an end or next to another. |
| Topic.ValidSubjectMeans | pubsub/shared/topic.py:26-34 | A subject is valid if it splits well and has no wildcard character at all. |
| Topic.ValidPatternMeans | pubsub/shared/topic.py:37-49 | A pattern is valid if it splits well, every `*` and `>` stands alone between dots or ends, and a `>` is at the end. |
| Topic.DenotesPositions | pubsub/shared/topic.py:52-69 | Position by position: before a final `>`, which stands for one or more tokens, each pattern token is `*` or equals the subject's, and otherwise the lengths agree. |
| Topic.StarMatchesAnyToken | pubsub/shared/topic.py:65-66 | A token under `*` may be replaced by any other. |
| Topic.TailMatchesAnyRest | pubsub/shared/topic.py:61-62 | The tokens under a final `>` may be replaced by any one or more. |
| Topic.MatchesTokens | pubsub/shared/topic.py:52-69 | The indexed loop decides the recursive meaning of the pattern. |
| Topic.Matches | pubsub/shared/topic.py:72-74 | Validating and matching decides the meaning, and fails exactly for invalid arguments. |
| Topic.SubjectMatchesOnlyItself | pubsub/shared/topic.py:26-49 | A valid subject is a valid pattern and as such matches only itself. |
| Sorting.SortIsStable | pubsub/server/broker.py:180-182 | Sorting is a permutation in key order that keeps the order of equal keys. |
| Sorting.SortUnique | pubsub/server/broker.py:180-182 | These properties determine the result. |
| Router.Router.Register | pubsub/server/router.py:43-44 | A new registration goes last, a known one keeps its place. |
| Router.Router.Unregister | pubsub/server/router.py:46-47 | Exactly the one registration is removed and the order of the others stays. |
| Router.WithoutKeeps | pubsub/server/router.py:46-47 | What is left is everything else, once each and in the same order. |
| Router.Router.Match | pubsub/server/router.py:52-56 | The loop yields the registrations reached by the subject, or the subject's error. |
| Router.ReachedExactly | pubsub/server/router.py:52-56 | These are exactly the registrations whose pattern denotes the subject, once each, in registration order. |
| Retry.ChainAttempts | pubsub/server/retry.py:88-144 | Along a chain attempts are 1, 2, 3, ... for one message and subscription, redeliveries below the budget. |
| Retry.ChainEnds | pubsub/server/retry.py:58-60 | A chain is finite, and the dead letter records the larger of 2 and the budget as attempts. |
| Retry.BackoffBounds | pubsub/server/retry.py:26-39 | A sleep is between 0 and the capped exponential. |
| Retry.BackoffIsLinear | pubsub/server/retry.py:38-39 | A sleep is the draw times the sleep at draw 1, and adds up over draws. |
| Retry.CeilingDoublesUpToCap | pubsub/server/retry.py:38-39 | The sleep at draw 1 is base at attempt 0 and below, doubles with each attempt up to the cap and is constant from there on; a negative cap halves it. |
| Retry.SleptBelowCap | pubsub/server/retry.py:26-39 | Below the cap consecutive sleeps sum to at most a geometric series. |
| Retry.TotalBackoff | pubsub/server/retry.py:104-131 | For a budget within the cap all sleeps of a chain sum to at most base times (2 to the budget, less 4). |
| Retry.TotalBackoffIsTight | pubsub/server/retry.py:26-39 | That bound is attained. |
| Retry.TotalBackoffPastCap | pubsub/server/retry.py:26-39 | Past the cap each attempt adds at most base times 2 to the cap. |
| Broker.Broker.RefreshAdmission | pubsub/server/broker.py:260-280 | The gate is set, waking every parked producer, exactly when it is disabled or in-flight entries and retries are below the budget times the registrations, at least once; otherwise nothing changes. |
| Broker.Broker.Gate | pubsub/server/broker.py:247-272 | A producer passes by the same condition and is parked with its message otherwise. |
| Broker.Broker.EnterRetry | pubsub/server/broker.py:282-289 | One more in limbo for the subscription and in total. |
| Broker.Broker.LeaveRetry | pubsub/server/broker.py:291-299 | One less, dropping an entry that would be zero, and nothing for a subscription without an entry. |
| Broker.Broker.RecordInflight | pubsub/server/broker.py:307-308 | The delivery is in flight under its id. |
| Broker.Broker.RecordRetried | pubsub/server/broker.py:301-308 | Out of limbo, into flight. |
| Broker.Broker.MakeDelivery | pubsub/server/broker.py:186-194 | A first attempt under a fresh id starts a chain of its own. |
| Broker.Broker.PutNowait | pubsub/server/broker.py:225-227 | A queue with room takes the delivery at its end; a full one refuses and nothing changes. |
| Broker.Broker.Enqueue | pubsub/server/broker.py:215-237 | A delivery goes to a queue with room and into flight, or into limbo and to the retry engine. |
| Broker.Broker.Schedule | pubsub/server/retry.py:88-115 | The next attempt sleeps or, when it would exhaust the budget, is dead-lettered. |
| Broker.Broker.Deliver | pubsub/server/broker.py:196-213 | A live event is staged while the registration replays and enqueued otherwise. |
| Broker.Broker.Fanout | pubsub/server/broker.py:120-124 | A publish delivers to exactly the matching registrations, once each, in registration order. |
| Broker.Broker.Subscribe | pubsub/server/broker.py:139-148 | Registration with an empty queue and buffer, then a refresh of the gate. |
| Broker.Broker.FlushReplay | pubsub/server/broker.py:173-184 | History, switch to live, sorted buffer, as one step. |
| Broker.Broker.AbandonReplay | pubsub/server/broker.py:150-157 | A failed replay only removes the registration. |
| Broker.Broker.DropInflight | pubsub/server/broker.py:310-321 | All entries and the whole limbo share of the subscription go, nothing else, and the gate is refreshed. |
| Broker.Broker.Disconnect | pubsub/server/broker.py:323-330 | Eviction, and likewise `_unsubscribe`. |
| Broker.Broker.Take | pubsub/server/broker.py:385-404 | A consumer takes the head of its queue, also after the subscription is gone. |
| Broker.Broker.Ack | pubsub/server/broker.py:332-338 | The entry goes and the gate is refreshed. |
| Broker.Broker.Nack | pubsub/server/broker.py:340-354 | The entry moves to limbo, or is freed when the subscription is gone. |
| Broker.Broker.Delayed | pubsub/server/retry.py:117-144 | After its sleep the next attempt is queued and recorded, or folds back into the retry loop. |
| Broker.Broker.Exhaust | pubsub/server/broker.py:239-245 | The dead letter is stored and the subscriber evicted. |
| BrokerRuns.StepInv | pubsub/server/broker.py:94-360 | Every step of the broker keeps the whole invariant. |
| BrokerTheorems.DeliveriesAreConserved | pubsub/server/broker.py:215-360 | In every reachable state each chain of a registered subscription is in exactly one of staged buffer, in-flight map, limbo, acked, dead-lettered; what is queued is in flight. |
| BrokerTheorems.FieldsMirrorDeliveries | pubsub/server/broker.py:215-360 | Every in-flight entry is the current delivery of a queued or held chain, and every queued delivery of a registration is in flight. |
| BrokerTheorems.CountersMirrorLimbo | pubsub/server/broker.py:282-321 | The retry counters are exactly the sizes of the registered subscriptions' limbo, and the total is their sum. |
| BrokerTheorems.BacklogIsExact | pubsub/server/broker.py:260-264 | The backlog is exactly the live unacked work plus the entries that late wakeups left for removed subscriptions. |
| BrokerTheorems.NoLostAdmission | pubsub/server/broker.py:247-280 | Whenever the gate is closed or a producer is parked, the backlog is at the budget times the registrations, at least once, or above. |
| BrokerZombie.ProducerPassesExactly | pubsub/server/broker.py:247-272 | In every reachable state a producer that looks at the gate passes if and only if the gate is disabled or live work and late entries together are below the budget times the registrations, at least once. |
| BrokerZombie.JoinWakes | pubsub/server/broker.py:139-148 | A joining subscription wakes every parked producer if and only if that sum is below the raised budget. |
| BrokerWaiters.ProducersAreConserved | pubsub/server/broker.py:247-280 | In every step a producer stays with its message, parked, woken or past the gate, from its arrival to its fanout. |
| BrokerWaiters.ParkedStays | pubsub/server/broker.py:247-280 | While the gate is shut no step takes a parked producer off it. |
| BrokerTheorems.ChainsAreRetries | pubsub/server/retry.py:88-144 | Every chain in the broker is a retry chain within the budget. |
| BrokerTheorems.DeadLettersAreSpent | pubsub/server/retry.py:104-109 | Every dead letter carries the budget as attempts, its chain's message and subscription, and that subscription is evicted. |
| BrokerTheorems.DeadLetteredOnce | pubsub/server/retry.py:156-162 | No chain is dead-lettered twice. |
| BrokerBound.SoftBound | pubsub/server/broker.py:247-272 | With n subscribers that stay and do not replay and at most k publishes past the gate, the backlog is at most limit * n - 1 + k * n. |
| BrokerBound.StepBounded | pubsub/server/broker.py:247-272 | Each step keeps one fanout of headroom for every publish that may still pass. |
| BrokerZombie.LateWakeup | pubsub/server/broker.py:301-308 | A wakeup for a removed subscription adds one to the backlog and no live work. |
| BrokerFlights.ZombiesChange | pubsub/server/broker.py:301-354 | In every step, an in-flight entry of a removed subscription appears exactly by the late wakeup of its chain into a queue with room, and goes exactly when it is settled or dropped with its subscription. |
| BrokerZombie.GateOpensExactly | pubsub/server/broker.py:260-280 | In every reachable state the gate is open if and only if live work and such entries together are below the budget times the registrations, at least once. |
| BrokerZombie.DrainedGateOpens | pubsub/server/broker.py:247-258 | Once all live work is settled, the gate is open if and only if such entries alone are below that. |
| BrokerZombie.WokenExactlyWhenOpen | pubsub/server/broker.py:247-280 | A step wakes a parked producer if and only if the gate is open after it. |
| BrokerZombie.ParkedExactlyWhileFull | pubsub/server/broker.py:247-280 | In every run, a producer stays parked with its message exactly as long as live work and such entries fill the budget times the registrations. |
| BrokerZombie.ShutForGood | pubsub/server/broker.py:247-258 | Once such entries alone fill it, a parked producer stays parked through every run in which nobody joins and none of them is settled or dropped. |
| BrokerZombie.GateCanStayShut | pubsub/server/broker.py:247-258 | That is reachable: a parked producer, no subscription, no live work, no retry or held delivery, and one such entry that fills the budget. |
| BrokerReplay.FlushKeepsAge | pubsub/server/broker.py:161-184 | A flush offers exactly the matching history, in time order, and then the staged deliveries, stably sorted; the queue takes the first that fit, all others sleep in limbo. |
| BrokerReplay.FirstInFirstOut | pubsub/server/broker.py:215-237 | Every step but a take leaves all that is queued in place, so later deliveries come behind. |
| BrokerReplay.QueuesAreBounded | pubsub/server/broker.py:139-141 | In every reachable state a queue holds at most 128 deliveries. |
| BrokerReplay.RedeliveryQueuesExactly | pubsub/server/retry.py:117-144 | A redelivery is queued if and only if fewer than 128 deliveries wait. |
| BrokerHistory.FailedReplayOwesNothing | pubsub/server/broker.py:150-157 | A failed replay leaves no entry and no limbo share behind. |
| BrokerCopies.StepCopies | pubsub/server/broker.py:120-184 | Only fanouts and flushes start chains, one for each target and for each matching history entry. |
| BrokerMoves.FanoutMakesExactly | pubsub/server/broker.py:120-124 | A fanout makes one first attempt for each target, in registration order under fresh ids: staged behind what is staged, queued behind what is queued, or in limbo when the queue is full; nobody else gets anything. |
| BrokerMoves.StagedInOrder | pubsub/server/broker.py:196-213 | What is staged stays in the order in which it was published until the flush. |
| BrokerMoves.ChainsMoveExactly | pubsub/server/broker.py:215-360 | Every step but a flush changes exactly one delivery, and this way: taken is held, acked is acked, refused is freed or in limbo, woken is redelivered, dead-lettered is dead; or none. |
| BrokerMoves.DeadLettersGrowExactly | pubsub/server/broker.py:239-245 | Dead letters are added at the end, by that step only, with one attempt more than was made. |
| BrokerLifecycle.StepLegal | pubsub/server/broker.py:215-360 | Every step moves every chain only along the legal edges; acked, dead and gone are final, and a held delivery stays held until it is settled. |
| BrokerLifecycle.StepGrows | pubsub/server/retry.py:132-137 | Every step draws ids upwards and keeps whom an id was drawn for. |
| BrokerLifecycle.FinalStaysFinal | pubsub/server/broker.py:332-354 | In every run, once a chain is acked, dead-lettered or gone nothing ever happens to it again. |
| BrokerLifecycle.HeldUntilSettled | pubsub/server/broker.py:310-354 | In every run, a held delivery stays as it is until its ack or nack, also across evictions. |
| BrokerLifecycle.TrailsOnlyGrow | pubsub/server/retry.py:117-144 | In every run, later deliveries are only added to a chain. |
| BrokerLifecycle.IdsAreNeverReused | pubsub/server/retry.py:132-137 | In every run, an id belongs for ever to the chain it was drawn for. |
| BrokerLifecycle.LaterComesBehind | pubsub/server/broker.py:215-237 | In every run, while nobody takes from a queue all it held stays in front of what is offered later. |
| HandoffRuns.NoGap | pubsub/server/broker.py:118-184 | Over every interleaving, a retained matching message from the start on whose publish has returned has one or two chains to the subscriber, two exactly when its append preceded the read and its fanout followed the registration. |
| HandoffRuns.NothingElse | pubsub/server/broker.py:118-213 | A message that does not match never reaches the subscriber; one that was not retained, is too old or is not fanned out yet does so at most once. |
| HandoffRuns.NoCopyStaysStaged | pubsub/server/broker.py:179-184 | After the flush no chain is staged: each is with the subscriber, in limbo or settled. |
| HandoffRuns.ExactlyOnceInMemory | pubsub/server/durability/memory.py:25-37 | With the in-memory backend, whose operations do not suspend, it is exactly one. |
| HandoffRuns.DuplicatesHappen | pubsub/server/broker.py:118-184 | A reachable state has two chains for one message. |
| Handoff.AfterWorld | pubsub/server/broker.py:94-184 | Every event of the handoff keeps its invariant. |
| Settlement.SettledAtMostOnce | pubsub/transport/server.py:241-268 | Whatever clients send and however steps interleave, no delivery id reaches the broker twice as ack or nack. |
| Settlement.NackKeepsBacklog | pubsub/server/broker.py:340-354 | A nack that finds a live registration finds its delivery in flight, moves it to limbo and leaves the backlog as it is. |
| Settlement.AckSettles | pubsub/transport/server.py:254-260 | An ack of a delivery that was sent settles exactly its chain. |
| Settlement.StaleAnswersAreIgnored | pubsub/transport/server.py:254-268 | Unknown, repeated and orphaned answers do not reach the broker. |
| Settlement.AnsweredIsStale | pubsub/transport/server.py:254-268 | After its answer an id is unknown. |
| Settlement.KnownExactly | pubsub/transport/server.py:241-278 | After every event the connection knows exactly the ids it knew, with what was recorded and without what was answered or belongs to a stream that ended or was unsubscribed. |
| Settlement.StreamsExactly | pubsub/transport/server.py:236-278 | And has exactly the streams that were handed out and have neither ended nor been unsubscribed. |
| Settlement.PumpMoves | pubsub/transport/server.py:241-245 | The pump takes the head of its stream's queue and records just that. |
| Settlement.UnsubscribeLeaves | pubsub/transport/server.py:270-278 | An unsubscribe takes the registration and all its in-flight entries out of the broker, once. |
| Settlement.AfterOk | pubsub/transport/server.py:241-278 | Every event on a connection keeps the invariant. |
| Connection.Connection.OnSubscribed | pubsub/transport/server.py:236-238 | The stream that the broker returned joins the connection; the invariant is kept. |
| Connection.Connection.Pump | pubsub/transport/server.py:241-243 | The pump takes the head of its queue; the invariant is kept. |
| Connection.Connection.PumpRecord | pubsub/transport/server.py:243-245 | And records it before sending it; the invariant is kept. |
| Connection.Connection.PumpEnded | pubsub/transport/server.py:248-252 | A stream that ended leaves the connection; the invariant is kept. |
| Connection.Connection.OnAck | pubsub/transport/server.py:254-260 | Pops the id and passes a known delivery on as an ack; the invariant is kept. |
| Connection.Connection.OnNack | pubsub/transport/server.py:262-268 | Pops the id and passes a known delivery on as a nack; the invariant is kept. |
| Connection.Connection.OnUnsubscribe | pubsub/transport/server.py:270-278 | Cancels the pump and unsubscribes, once; the invariant is kept. |
| Resume.ResumeCoversTheGap | pubsub/transport/client.py:369-377 | The next resume always covers every unacked retained matching message if and only if acks and retained messages come in timestamp order. |
| Resume.ResumeCoversFromTheStart | pubsub/transport/client.py:369-377 | The same for every run of a new subscription, whatever the store holds. |
| Resume.ResumesFromLatestAck | pubsub/transport/client.py:369-377 | Whatever was acked, a live-only handle never asks for a replay, and any other asks from the latest acked timestamp, or from its start while there is none. |
| Resume.AckCoverage | pubsub/transport/client.py:399-403 | An ack keeps the coverage if and only if it overtakes no wanted message. |
| Resume.StoreCoverage | pubsub/transport/client.py:369-377 | An append keeps it if and only if a wanted message is not older than the last ack. |
| Resume.OvertakenIsLost | pubsub/transport/client.py:399-403 | What an ack has overtaken is in no later replay. |
| Resume.OnlyTheBoundaryRepeats | pubsub/transport/client.py:369-377 | In every run, an acked message is replayed again if and only if it is retained, matches and has the latest acked timestamp. |
| Resume.FirstAckRepeats | pubsub/transport/client.py:369-377 | It does happen: the first message that a subscription acks comes again, if it is retained and matches. |
| Client.Subscription.Ack | pubsub/transport/client.py:399-403 | The last acked timestamp only moves forward. |
| Client.BrokerClient.OnDisconnect | pubsub/transport/client.py:238-240 | No server id survives a lost connection. |
| Client.BrokerClient.Activate | pubsub/transport/client.py:179-195 | The request carries the pattern and the policy; a new server id leads to the handle and the other ids stay, and an error or a lost connection changes nothing. |
| Client.BrokerClient.ResumeAll | pubsub/transport/client.py:280-282 | Every live handle is asked for in turn with its own policy until a request fails; each new id leads to its own handle, the handles after the failure stay as they are. |
| Wire.PrefixRoundTrip | pubsub/transport/wire.py:78-89 | Decoding the four length bytes gives the length back. |
| Wire.EncodedFrame | pubsub/transport/wire.py:74-78 | Up to 8 MiB a body goes out unchanged behind four length bytes, the most significant first; a larger one is refused. |
| Wire.FrameRoundTrip | pubsub/transport/wire.py:74-96 | Every size that the encoder accepts the reader accepts, whatever follows. |
| Wire.PrefixYieldsWholeFrames | pubsub/transport/wire.py:81-92 | Reading any prefix of a stream yields exactly the frames wholly within it, then reports an incomplete read. |
| Wire.RoundTrip | pubsub/transport/wire.py:74-92 | The whole stream yields exactly the list that was encoded, and the frames take up every byte of it. |
| Wire.OversizeReadsNoBody | pubsub/transport/wire.py:88-91 | A declared size above the cap is refused before any body byte is read. |
| Wire.StreamReader.ReadFrame | pubsub/transport/wire.py:81-92 | One frame or its error, and how many bytes were consumed. |
| Wire.StreamReader.ReadFrames | pubsub/transport/wire.py:81-92 | Reading on until the first error yields the frames of the stream and stops exactly after them and what the failing read consumes; an incomplete read leaves no byte. |

## Left out

- Broker.Broker.Disconnect: treats the stream's closed event of `_disconnect` and `_unsubscribe` alike, because only the queue matters for deliveries; a consumer may go on taking from the queue of a removed subscription.
- Broker.Broker.Fanout: a retry budget below 3, for which `schedule` can suspend inside a fanout or a flush.
- Settlement.SettledAtMostOnce: local consumers that settle one delivery twice, because only a connection keeps them from it.
- AsyncSqlite.FetchesAreSnapshots: transaction bodies that read or that commit themselves, and cancellation while a statement runs in its thread, because the outcome then depends on the thread.
- GroupCommit.FailedBatchLeavesNothing: failures other than that of a whole batch, and `close` with appends queued. When a COMMIT fails the rows may stay in a transaction that is left open; `AsyncSqlite` shows that they are never committed, but that later batches cannot be committed either is stated only there.
- HandoffRuns.NoGap: that history and staged deliveries are in one time order, which the code does not promise because a message is stamped before it is appended; each part is ordered.
- Broker.Broker.Ack: the `record_ack` of the durability backend that follows it, which is modelled in `Durability`.
- Client.BrokerClient.OnDisconnect: the failing of pending requests, the closing of handles on a closed client, and the start of the reconnect loop, which are tasks and futures.
- Client.BrokerClient.Activate: request ids, and the wait for the answer, which is a parameter.
- Client.BrokerClient.ResumeAll: frames that the read loop handles between the reply to a subscribe and the resumption of `_activate`, reconnect timing, and request ids.
- Wire.StreamReader.ReadFrame: MessagePack and the check that a decoded body is a map with an op, because the codec is a library; bodies are opaque bytes.
- Writer starvation-freedom of the lock, which the code does not guarantee.
- `NullDurability`, immutability of envelopes, and the mapping of envelopes to dictionaries.
- Sockets, heartbeats, handshakes, teardown, observers, logging, telemetry, the runner and the command line.
- The wall clock, the generation of ids and random draws, which are parameters.
