/** The two durability backends: the in-memory one, which filters when a message is appended, and the
    SQLite one, which tags each row when it is inserted and filters and orders when it is read. */
module Durability {
  import opened Sorting
  import opened Types

  // ---- In memory ---------------------------------------------------------------------------

  datatype Memory = Memory(
    replayable: map<string, bool>, history: seq<Message>, acks: map<nat, nat>, dlq: seq<DlqEntry>)

  predicate Retains(m: Memory, topic: string) {
    topic in m.replayable && m.replayable[topic]
  }

  function Since(messages: seq<Message>, timestamp: real): seq<Message> {
    if messages == [] then []
    else if messages[0].createdAt >= timestamp then [messages[0]] + Since(messages[1..], timestamp)
    else Since(messages[1..], timestamp)
  }

  function ReadFrom(m: Memory, timestamp: real): seq<Message> {
    Sort(Since(m.history, timestamp), CreatedAt)
  }

  lemma {:induction false} SinceMembers(messages: seq<Message>, timestamp: real)
    ensures forall m :: m in Since(messages, timestamp) <==> m in messages && m.createdAt >= timestamp
    ensures forall m ::
              multiset(Since(messages, timestamp))[m] == if m.createdAt >= timestamp then multiset(messages)[m] else 0
  {
    if messages != [] {
      SinceMembers(messages[1..], timestamp);
      assert messages == [messages[0]] + messages[1..];
    }
  }

  /** `read_from`: the retained messages from the timestamp on, each as often as it was retained, oldest
      first. */
  lemma ReadFromMeaning(m: Memory, timestamp: real)
    ensures NonDecreasing(ReadFrom(m, timestamp), CreatedAt)
    ensures forall x :: x in ReadFrom(m, timestamp) <==> x in m.history && x.createdAt >= timestamp
    ensures forall x ::
              multiset(ReadFrom(m, timestamp))[x] == if x.createdAt >= timestamp then multiset(m.history)[x] else 0
  {
    var since := Since(m.history, timestamp);
    SinceMembers(m.history, timestamp);
    SortIsStable(since, CreatedAt);
    forall x
      ensures x in ReadFrom(m, timestamp) <==> x in since
    {
      assert x in multiset(ReadFrom(m, timestamp)) <==> x in multiset(since);
    }
  }

  class InMemoryDurability {
    var replayable: map<string, bool>
    var history: seq<Message>
    var acks: map<nat, nat>
    var dlq: seq<DlqEntry>

    function Contents(): Memory
      reads this
    {
      Memory(replayable, history, acks, dlq)
    }

    constructor ()
      ensures Contents() == Memory(map[], [], map[], [])
    {
      replayable, history, acks, dlq := map[], [], map[], [];
    }

    method RegisterTopic(topic: string, replays: bool)
      modifies this
      ensures Contents() == InMemory(old(Contents()), Operation.Register(topic, replays))
    {
      replayable := replayable[topic := replays];
    }

    method Append(message: Message)
      modifies this
      ensures Contents() == InMemory(old(Contents()), Operation.Append(message))
    {
      if message.topic in replayable && replayable[message.topic] {
        history := history + [message];
      }
    }

    method RecordAck(subscription: nat, message: nat)
      modifies this
      ensures Contents() == InMemory(old(Contents()), Operation.RecordAck(subscription, message))
    {
      acks := acks[subscription := message];
    }

    method ToDlq(entry: DlqEntry)
      modifies this
      ensures Contents() == InMemory(old(Contents()), Operation.ToDlq(entry))
    {
      dlq := dlq + [entry];
    }
  }

  // ---- SQLite ------------------------------------------------------------------------------

  /** A row of `messages`; the flag is an INTEGER column. */
  datatype Row = Row(seqno: nat, message: Message, replayable: int)

  datatype DlqRow = DlqRow(seqno: nat, subscription: nat, attempts: int, message: Message)

  datatype Tables = Tables(
    topics: map<string, int>, messages: seq<Row>, acks: map<nat, nat>, dlq: seq<DlqRow>)

  /** The COALESCE of the INSERT: the topic's flag now, or 0 for an unknown topic. */
  function Flag(t: Tables, topic: string): int {
    if topic in t.topics then t.topics[topic] else 0
  }

  /** AUTOINCREMENT: one more than the largest number ever used. */
  function NextSeqno(rows: seq<Row>): nat {
    if rows == [] then 1 else rows[|rows| - 1].seqno + 1
  }

  function NextDlqSeqno(rows: seq<DlqRow>): nat {
    if rows == [] then 1 else rows[|rows| - 1].seqno + 1
  }

  function RowKey(r: Row): real { r.message.createdAt }

  predicate Before(r: Row, q: Row) {
    r.message.createdAt < q.message.createdAt || (r.message.createdAt == q.message.createdAt && r.seqno < q.seqno)
  }

  predicate Selected(r: Row, timestamp: real) {
    r.replayable == 1 && r.message.createdAt >= timestamp
  }

  /** What `SELECT ... WHERE replayable=1 AND created_at>=? ORDER BY created_at ASC, seq ASC` means. */
  ghost predicate IsReadFrom(t: Tables, timestamp: real, result: seq<Row>) {
    && (forall r :: r in result <==> r in t.messages && Selected(r, timestamp))
    && (forall i, j | 0 <= i < j < |result| :: Before(result[i], result[j]))
  }

  ghost predicate IsReadDlq(t: Tables, result: seq<DlqRow>) {
    && (forall r :: r in result <==> r in t.dlq)
    && (forall i, j | 0 <= i < j < |result| :: result[i].seqno < result[j].seqno)
  }

  class SqliteDurability {
    var topics: map<string, int>
    var messages: seq<Row>
    var acks: map<nat, nat>
    var dlq: seq<DlqRow>

    function Contents(): Tables
      reads this
    {
      Tables(topics, messages, acks, dlq)
    }

    constructor ()
      ensures Contents() == Tables(map[], [], map[], [])
    {
      topics, messages, acks, dlq := map[], [], map[], [];
    }

    method RegisterTopic(topic: string, replays: bool)
      modifies this
      ensures Contents() == InSqlite(old(Contents()), Operation.Register(topic, replays))
    {
      topics := topics[topic := if replays then 1 else 0];
    }

    method Insert(message: Message)
      modifies this
      ensures Contents() == InSqlite(old(Contents()), Operation.Append(message))
    {
      var flag := if message.topic in topics then topics[message.topic] else 0;
      messages := messages + [Row(NextSeqno(messages), message, flag)];
    }

    method RecordAck(subscription: nat, message: nat)
      modifies this
      ensures Contents() == InSqlite(old(Contents()), Operation.RecordAck(subscription, message))
    {
      acks := acks[subscription := message];
    }

    method ToDlq(entry: DlqEntry)
      modifies this
      ensures Contents() == InSqlite(old(Contents()), Operation.ToDlq(entry))
    {
      dlq := dlq + [DlqRow(NextDlqSeqno(dlq), entry.subscription, entry.attempts, entry.message)];
    }
  }

  // ---- The same operations on both ---------------------------------------------------------

  datatype Operation =
    | Register(topic: string, replays: bool)
    | Append(message: Message)
    | RecordAck(subscription: nat, acked: nat)
    | ToDlq(entry: DlqEntry)

  function InMemory(m: Memory, op: Operation): Memory {
    match op
    case Register(topic, replays) => m.(replayable := m.replayable[topic := replays])
    case Append(message) => if Retains(m, message.topic) then m.(history := m.history + [message]) else m
    case RecordAck(s, id) => m.(acks := m.acks[s := id])
    case ToDlq(entry) => m.(dlq := m.dlq + [entry])
  }

  function InSqlite(t: Tables, op: Operation): Tables {
    match op
    case Register(topic, replays) => t.(topics := t.topics[topic := if replays then 1 else 0])
    case Append(message) =>
      t.(messages := t.messages + [Row(NextSeqno(t.messages), message, Flag(t, message.topic))])
    case RecordAck(s, id) => t.(acks := t.acks[s := id])
    case ToDlq(entry) =>
      t.(dlq := t.dlq + [DlqRow(NextDlqSeqno(t.dlq), entry.subscription, entry.attempts, entry.message)])
  }

  function MemoryAfter(ops: seq<Operation>): Memory {
    if ops == [] then Memory(map[], [], map[], []) else InMemory(MemoryAfter(ops[..|ops| - 1]), ops[|ops| - 1])
  }

  function TablesAfter(ops: seq<Operation>): Tables {
    if ops == [] then Tables(map[], [], map[], []) else InSqlite(TablesAfter(ops[..|ops| - 1]), ops[|ops| - 1])
  }

  // ---- What the operations leave, from the operations alone -------------------------------

  /** The latest registration of the topic opted in. */
  ghost predicate OptedIn(ops: seq<Operation>, topic: string) {
    exists k | 0 <= k < |ops| ::
      ops[k] == Register(topic, true) && forall j | k < j < |ops| :: ops[j].Register? ==> ops[j].topic != topic
  }

  /** The messages appended while their topic was opted in, in that order. */
  ghost function Retained(ops: seq<Operation>): seq<Message> {
    if ops == [] then []
    else
      var rest, op := ops[..|ops| - 1], ops[|ops| - 1];
      Retained(rest) + if op.Append? && OptedIn(rest, op.message.topic) then [op.message] else []
  }

  ghost predicate LastAck(ops: seq<Operation>, subscription: nat, message: nat) {
    exists k | 0 <= k < |ops| ::
      && ops[k] == RecordAck(subscription, message)
      && forall j | k < j < |ops| :: ops[j].RecordAck? ==> ops[j].subscription != subscription
  }

  function DeadLettered(ops: seq<Operation>): seq<DlqEntry> {
    if ops == [] then []
    else
      var op := ops[|ops| - 1];
      DeadLettered(ops[..|ops| - 1]) + if op.ToDlq? then [op.entry] else []
  }

  lemma OptedInLast(ops: seq<Operation>, topic: string)
    requires ops != []
    ensures
      var rest, op := ops[..|ops| - 1], ops[|ops| - 1];
      OptedIn(ops, topic) <==> if op.Register? && op.topic == topic then op.replays else OptedIn(rest, topic)
  {
    var n, rest, op := |ops| - 1, ops[..|ops| - 1], ops[|ops| - 1];
    if op == Register(topic, true) {
      assert ops[n] == Register(topic, true);
    }
    if OptedIn(rest, topic) && !(op.Register? && op.topic == topic) {
      var k :| 0 <= k < |rest| && rest[k] == Register(topic, true)
        && forall j | k < j < |rest| :: rest[j].Register? ==> rest[j].topic != topic;
      assert ops[k] == Register(topic, true);
    }
    if OptedIn(ops, topic) && !(op.Register? && op.topic == topic) {
      var k :| 0 <= k < |ops| && ops[k] == Register(topic, true)
        && forall j | k < j < |ops| :: ops[j].Register? ==> ops[j].topic != topic;
      assert rest[k] == Register(topic, true);
    }
  }

  lemma LastAckLast(ops: seq<Operation>, s: nat, id: nat)
    requires ops != []
    ensures
      var rest, op := ops[..|ops| - 1], ops[|ops| - 1];
      LastAck(ops, s, id) <==> if op.RecordAck? && op.subscription == s then op.acked == id else LastAck(rest, s, id)
  {
    var n, rest, op := |ops| - 1, ops[..|ops| - 1], ops[|ops| - 1];
    if op == RecordAck(s, id) {
      assert ops[n] == RecordAck(s, id);
    }
    if LastAck(rest, s, id) && !(op.RecordAck? && op.subscription == s) {
      var k :| 0 <= k < |rest| && rest[k] == RecordAck(s, id)
        && forall j | k < j < |rest| :: rest[j].RecordAck? ==> rest[j].subscription != s;
      assert ops[k] == RecordAck(s, id);
    }
    if LastAck(ops, s, id) && !(op.RecordAck? && op.subscription == s) {
      var k :| 0 <= k < |ops| && ops[k] == RecordAck(s, id)
        && forall j | k < j < |ops| :: ops[j].RecordAck? ==> ops[j].subscription != s;
      assert rest[k] == RecordAck(s, id);
    }
  }

  /** After any operations a topic is retained exactly if its latest registration opted in. */
  lemma {:induction false} RetainsOptedIn(ops: seq<Operation>, topic: string)
    ensures Retains(MemoryAfter(ops), topic) <==> OptedIn(ops, topic)
  {
    if ops != [] {
      OptedInLast(ops, topic);
      RetainsOptedIn(ops[..|ops| - 1], topic);
    }
  }

  /** The history is exactly what was appended while its topic was opted in, in the order of the appends. */
  lemma {:induction false} HistoryIsExact(ops: seq<Operation>)
    ensures MemoryAfter(ops).history == Retained(ops)
  {
    if ops != [] {
      var rest, op := ops[..|ops| - 1], ops[|ops| - 1];
      HistoryIsExact(rest);
      if op.Append? {
        RetainsOptedIn(rest, op.message.topic);
      }
      hide OptedIn, Retains;
    }
  }

  /** The acks are exactly the latest of each subscription, and the dead letters are all of them in order. */
  lemma {:induction false} AcksAndDeadLettersAreExact(ops: seq<Operation>, s: nat, id: nat)
    ensures s in MemoryAfter(ops).acks && MemoryAfter(ops).acks[s] == id <==> LastAck(ops, s, id)
    ensures MemoryAfter(ops).dlq == DeadLettered(ops)
  {
    if ops != [] {
      LastAckLast(ops, s, id);
      AcksAndDeadLettersAreExact(ops[..|ops| - 1], s, id);
      hide LastAck;
    }
  }

  // ---- Refinement --------------------------------------------------------------------------

  function Messages(rows: seq<Row>): seq<Message> {
    if rows == [] then [] else [rows[0].message] + Messages(rows[1..])
  }

  function Entry(r: DlqRow): DlqEntry {
    DlqEntry(r.message, r.subscription, r.attempts)
  }

  function Entries(rows: seq<DlqRow>): seq<DlqEntry> {
    if rows == [] then [] else [Entry(rows[0])] + Entries(rows[1..])
  }

  function Flagged(rows: seq<Row>): seq<Row> {
    if rows == [] then []
    else if rows[0].replayable == 1 then [rows[0]] + Flagged(rows[1..])
    else Flagged(rows[1..])
  }

  function Select(rows: seq<Row>, timestamp: real): seq<Row> {
    if rows == [] then []
    else if Selected(rows[0], timestamp) then [rows[0]] + Select(rows[1..], timestamp)
    else Select(rows[1..], timestamp)
  }

  predicate Numbered(rows: seq<Row>) {
    forall i, j | 0 <= i < j < |rows| :: rows[i].seqno < rows[j].seqno
  }

  predicate DlqNumbered(rows: seq<DlqRow>) {
    forall i, j | 0 <= i < j < |rows| :: rows[i].seqno < rows[j].seqno
  }

  /** The tables represent the in-memory state: the flags of the topics, the flagged rows in insertion
      order, the acks and the dead letters. */
  ghost predicate Represents(t: Tables, m: Memory) {
    && t.topics.Keys == m.replayable.Keys
    && (forall topic <- t.topics :: t.topics[topic] == if m.replayable[topic] then 1 else 0)
    && Messages(Flagged(t.messages)) == m.history
    && Numbered(t.messages)
    && t.acks == m.acks
    && Entries(t.dlq) == m.dlq
    && DlqNumbered(t.dlq)
  }

  lemma MessagesCons(r: Row, rows: seq<Row>)
    ensures Messages([r] + rows) == [r.message] + Messages(rows)
  {
    assert ([r] + rows)[1..] == rows;
  }

  lemma {:induction false} FlaggedAppend(rows: seq<Row>, r: Row)
    ensures Messages(Flagged(rows + [r])) == Messages(Flagged(rows)) + (if r.replayable == 1 then [r.message] else [])
  {
    if rows == [] {
      assert (rows + [r])[1..] == [];
    } else {
      assert (rows + [r])[1..] == rows[1..] + [r];
      FlaggedAppend(rows[1..], r);
      MessagesCons(rows[0], Flagged(rows[1..]));
      MessagesCons(rows[0], Flagged(rows[1..] + [r]));
    }
  }

  lemma {:induction false} EntriesAppend(rows: seq<DlqRow>, r: DlqRow)
    ensures Entries(rows + [r]) == Entries(rows) + [Entry(r)]
  {
    if rows == [] {
      assert (rows + [r])[1..] == [];
    } else {
      assert (rows + [r])[1..] == rows[1..] + [r];
      EntriesAppend(rows[1..], r);
    }
  }

  lemma StepRepresents(t: Tables, m: Memory, op: Operation)
    requires Represents(t, m)
    ensures Represents(InSqlite(t, op), InMemory(m, op))
  {
    match op
    case Register(_, _) =>
    case Append(message) =>
      FlaggedAppend(t.messages, Row(NextSeqno(t.messages), message, Flag(t, message.topic)));
    case RecordAck(_, _) =>
    case ToDlq(e) =>
      EntriesAppend(t.dlq, DlqRow(NextDlqSeqno(t.dlq), e.subscription, e.attempts, e.message));
  }

  lemma {:induction false} AlwaysRepresents(ops: seq<Operation>)
    ensures Represents(TablesAfter(ops), MemoryAfter(ops))
  {
    if ops != [] {
      AlwaysRepresents(ops[..|ops| - 1]);
      StepRepresents(TablesAfter(ops[..|ops| - 1]), MemoryAfter(ops[..|ops| - 1]), ops[|ops| - 1]);
    }
  }

  lemma {:induction false} SelectMembers(rows: seq<Row>, timestamp: real)
    requires Numbered(rows)
    ensures forall r :: r in Select(rows, timestamp) <==> r in rows && Selected(r, timestamp)
    ensures Numbered(Select(rows, timestamp))
  {
    if rows != [] {
      SelectMembers(rows[1..], timestamp);
      assert rows == [rows[0]] + rows[1..];
      assert forall r <- rows[1..] :: rows[0].seqno < r.seqno;
    }
  }

  lemma {:induction false} SelectMessages(rows: seq<Row>, timestamp: real)
    ensures Messages(Select(rows, timestamp)) == Since(Messages(Flagged(rows)), timestamp)
  {
    if rows != [] {
      SelectMessages(rows[1..], timestamp);
      MessagesCons(rows[0], Select(rows[1..], timestamp));
      MessagesCons(rows[0], Flagged(rows[1..]));
      assert ([rows[0].message] + Messages(Flagged(rows[1..])))[1..] == Messages(Flagged(rows[1..]));
    }
  }

  /** Increasing row numbers fix the order of a set of rows. */
  lemma {:induction false} NumberedUnique(xs: seq<Row>, ys: seq<Row>)
    requires Numbered(xs) && Numbered(ys) && (forall r :: r in xs <==> r in ys)
    ensures xs == ys
  {
    assert ys != [] ==> ys[0] in ys;
    if xs != [] {
      assert xs[0] in ys;
      assert ys[0] in xs;
      forall r
        ensures r in xs[1..] <==> r in ys[1..]
      {
        assert r in xs <==> r == xs[0] || r in xs[1..];
        assert r in ys <==> r == ys[0] || r in ys[1..];
      }
      NumberedUnique(xs[1..], ys[1..]);
      assert xs == [xs[0]] + xs[1..] && ys == [ys[0]] + ys[1..];
    }
  }

  lemma {:induction false} AtNumbered(rows: seq<Row>, k: real)
    requires forall i, j | 0 <= i < j < |rows| && rows[i].message.createdAt == rows[j].message.createdAt ::
      rows[i].seqno < rows[j].seqno
    ensures Numbered(At(rows, RowKey, k))
  {
    if rows != [] {
      AtNumbered(rows[1..], k);
      AtMembers(rows[1..], RowKey, k);
      forall r | r in rows[1..] && RowKey(r) == RowKey(rows[0])
        ensures rows[0].seqno < r.seqno
      {
        var i :| 1 <= i < |rows| && rows[i] == r;
        assert rows[0].message.createdAt == rows[i].message.createdAt;
      }
    }
  }

  lemma {:induction false} InsertMessages(r: Row, rows: seq<Row>)
    ensures Messages(Insert(r, rows, RowKey)) == Insert(r.message, Messages(rows), CreatedAt)
  {
    if rows != [] {
      assert Messages(rows)[1..] == Messages(rows[1..]);
      if RowKey(r) > RowKey(rows[0]) {
        InsertMessages(r, rows[1..]);
        assert ([rows[0]] + Insert(r, rows[1..], RowKey))[1..] == Insert(r, rows[1..], RowKey);
      } else {
        assert ([r] + rows)[1..] == rows;
      }
    }
  }

  lemma {:induction false} SortMessages(rows: seq<Row>)
    ensures Messages(Sort(rows, RowKey)) == Sort(Messages(rows), CreatedAt)
  {
    if rows != [] {
      SortMessages(rows[1..]);
      InsertMessages(rows[0], Sort(rows[1..], RowKey));
      assert Messages(rows)[1..] == Messages(rows[1..]);
    }
  }

  /** The query has only one answer: the stable sort of the selected rows. */
  lemma QueryIsStableSort(t: Tables, timestamp: real, result: seq<Row>)
    requires Numbered(t.messages) && IsReadFrom(t, timestamp, result)
    ensures result == Sort(Select(t.messages, timestamp), RowKey)
  {
    var selected := Select(t.messages, timestamp);
    SelectMembers(t.messages, timestamp);
    forall k
      ensures At(result, RowKey, k) == At(selected, RowKey, k)
    {
      AtMembers(result, RowKey, k);
      AtMembers(selected, RowKey, k);
      AtNumbered(result, k);
      AtNumbered(selected, k);
      NumberedUnique(At(result, RowKey, k), At(selected, RowKey, k));
    }
    SortUnique(selected, result, RowKey);
  }

  /** After the same operations, every answer of the SQLite query carries exactly the messages the
      in-memory backend returns, in the same order. */
  lemma ReadFromRefines(ops: seq<Operation>, timestamp: real, result: seq<Row>)
    requires IsReadFrom(TablesAfter(ops), timestamp, result)
    ensures Messages(result) == ReadFrom(MemoryAfter(ops), timestamp)
  {
    var t := TablesAfter(ops);
    AlwaysRepresents(ops);
    QueryIsStableSort(t, timestamp, result);
    SortMessages(Select(t.messages, timestamp));
    SelectMessages(t.messages, timestamp);
  }

  /** The query has an answer. */
  lemma ReadFromAnswers(ops: seq<Operation>, timestamp: real)
    ensures exists result :: IsReadFrom(TablesAfter(ops), timestamp, result)
  {
    var t := TablesAfter(ops);
    AlwaysRepresents(ops);
    var selected := Select(t.messages, timestamp);
    SelectMembers(t.messages, timestamp);
    SortIsStable(selected, RowKey);
    var result := Sort(selected, RowKey);
    forall r
      ensures r in result <==> r in selected
    {
      assert r in multiset(result) <==> r in multiset(selected);
    }
    forall i, j | 0 <= i < j < |result|
      ensures Before(result[i], result[j])
    {
      StableBefore(selected, i, j);
    }
    assert IsReadFrom(t, timestamp, result);
  }

  lemma {:induction false} AtPair(rows: seq<Row>, i: nat, j: nat, k: real) returns (a: nat, b: nat)
    requires i < j < |rows| && RowKey(rows[i]) == RowKey(rows[j]) == k
    ensures a < b < |At(rows, RowKey, k)| && At(rows, RowKey, k)[a] == rows[i] && At(rows, RowKey, k)[b] == rows[j]
  {
    if i > 0 {
      a, b := AtPair(rows[1..], i - 1, j - 1, k);
      if RowKey(rows[0]) == k {
        a, b := a + 1, b + 1;
      }
    } else {
      AtMembers(rows[1..], RowKey, k);
      assert rows[j] == rows[1..][j - 1];
      b :| 0 <= b < |At(rows[1..], RowKey, k)| && At(rows[1..], RowKey, k)[b] == rows[j];
      a, b := 0, b + 1;
    }
  }

  lemma StableBefore(selected: seq<Row>, i: nat, j: nat)
    requires Numbered(selected) && i < j < |Sort(selected, RowKey)|
    ensures Before(Sort(selected, RowKey)[i], Sort(selected, RowKey)[j])
  {
    var result := Sort(selected, RowKey);
    SortIsStable(selected, RowKey);
    if RowKey(result[i]) == RowKey(result[j]) {
      var a, b := AtPair(result, i, j, RowKey(result[i]));
      AtNumbered(selected, RowKey(result[i]));
    }
  }

  lemma {:induction false} DlqUnique(xs: seq<DlqRow>, ys: seq<DlqRow>)
    requires DlqNumbered(xs) && DlqNumbered(ys) && (forall r :: r in xs <==> r in ys)
    ensures xs == ys
  {
    assert ys != [] ==> ys[0] in ys;
    if xs != [] {
      assert xs[0] in ys;
      assert ys[0] in xs;
      forall r
        ensures r in xs[1..] <==> r in ys[1..]
      {
        assert r in xs <==> r == xs[0] || r in xs[1..];
        assert r in ys <==> r == ys[0] || r in ys[1..];
      }
      DlqUnique(xs[1..], ys[1..]);
      assert xs == [xs[0]] + xs[1..] && ys == [ys[0]] + ys[1..];
    }
  }

  /** Acks and dead letters agree too. */
  lemma AcksAndDeadLettersRefine(ops: seq<Operation>, result: seq<DlqRow>)
    requires IsReadDlq(TablesAfter(ops), result)
    ensures TablesAfter(ops).acks == MemoryAfter(ops).acks
    ensures Entries(result) == MemoryAfter(ops).dlq
  {
    AlwaysRepresents(ops);
    DlqUnique(result, TablesAfter(ops).dlq);
  }

  /** Re-registering a topic, however often, changes no earlier message's visibility in either backend. */
  lemma {:induction false} RegistrationKeepsHistory(ops: seq<Operation>, more: seq<Operation>, timestamp: real)
    requires forall op <- more :: op.Register?
    ensures ReadFrom(MemoryAfter(ops + more), timestamp) == ReadFrom(MemoryAfter(ops), timestamp)
    ensures TablesAfter(ops + more).messages == TablesAfter(ops).messages
  {
    if more == [] {
      assert ops + more == ops;
    } else {
      var last := more[|more| - 1];
      assert last in more;
      assert (ops + more)[..|ops + more| - 1] == ops + more[..|more| - 1];
      assert (ops + more)[|ops + more| - 1] == last;
      RegistrationKeepsHistory(ops, more[..|more| - 1], timestamp);
    }
  }
}
