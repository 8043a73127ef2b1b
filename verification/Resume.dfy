/** Where a subscription resumes after a reconnect, `pubsub/transport/client.py`, and which retained
    messages its next replay covers. */
module Resume {
  import opened Common
  import opened Types
  import opened BrokerState
  import D = Durability
  import Topic

  datatype ReplayPolicy = FutureOnly | FromUnixTimestamp(timestamp: real)

  /** What `ack` makes of `_last_acked_ts`. */
  function Advanced(last: Option<real>, ts: real): Option<real> {
    if last.None? || ts > last.value then Some(ts) else last
  }

  /** `_resume_policy`. */
  function ResumePolicy(policy: ReplayPolicy, last: Option<real>): ReplayPolicy {
    if policy.FromUnixTimestamp? then
      if last.Some? then FromUnixTimestamp(last.value) else policy
    else FutureOnly
  }

  /** `_last_acked_ts` after acks of messages with these timestamps, in any order. */
  function LastAfter(acked: seq<real>): Option<real> {
    if acked == [] then None else Advanced(LastAfter(acked[..|acked| - 1]), acked[|acked| - 1])
  }

  /** Whatever was acked, a live-only handle never asks for a replay, and any other asks from the latest of
      the acked timestamps, or from its own start while there is none. */
  lemma ResumesFromLatestAck(policy: ReplayPolicy, acked: seq<real>)
    ensures policy.FutureOnly? <==> ResumePolicy(policy, LastAfter(acked)).FutureOnly?
    ensures policy.FromUnixTimestamp? ==>
      var from := ResumePolicy(policy, LastAfter(acked)).timestamp;
      if acked == [] then from == policy.timestamp else from in acked && forall ts <- acked :: ts <= from
  {
    LatestAck(acked);
  }

  /** `ts` is the latest of the timestamps. */
  ghost predicate Latest(acked: seq<real>, ts: real) {
    ts in acked && forall x <- acked :: x <= ts
  }

  lemma LatestOf(acked: seq<real>, ts: real, last: real)
    requires Latest(acked, ts)
    ensures Latest(acked + [last], if last > ts then last else ts)
  {
    assert (acked + [last])[|acked|] == last;
  }

  lemma {:induction false} LatestAck(acked: seq<real>)
    ensures acked == [] ==> LastAfter(acked) == None
    ensures acked != [] ==> LastAfter(acked).Some? && Latest(acked, LastAfter(acked).value)
  {
    if acked != [] {
      hide Latest;
      var rest, last := acked[..|acked| - 1], acked[|acked| - 1];
      assert acked == rest + [last];
      LatestAck(rest);
      if rest == [] {
        OnlyAck(last);
      } else {
        LatestOf(rest, LastAfter(rest).value, last);
      }
    }
  }

  lemma OnlyAck(ts: real)
    ensures Latest([ts], ts)
  {
    assert [ts][0] == ts;
  }

  // ---- A subscription that replays, its acks and the store ---------------------------------

  /** A subscription with the given pattern that replays from `start`. */
  datatype Session = Session(tokens: seq<string>, start: real, last: Option<real>, acked: set<Message>, mem: D.Memory)

  /** A consumer may ack any message it was sent, retained or not; the store may append any. */
  datatype Step =
    | Ack(message: Message)
    | Store(op: D.Operation)

  function After(s: Session, step: Step): Session {
    match step
    case Ack(m) => s.(last := Advanced(s.last, m.createdAt), acked := s.acked + {m})
    case Store(op) => s.(mem := D.InMemory(s.mem, op))
  }

  /** The timestamp of the next resume. */
  function From(s: Session): real {
    ResumePolicy(FromUnixTimestamp(s.start), s.last).timestamp
  }

  /** What the next resume replays. */
  function Replay(s: Session): seq<Message> {
    Matching(s.tokens, D.ReadFrom(s.mem, From(s)))
  }

  predicate Wanted(s: Session, m: Message) {
    m in s.mem.history && m.createdAt >= s.start && m !in s.acked && Topic.Denotes(s.tokens, Topic.Split(m.topic))
  }

  /** Every unacked retained matching message from the original start on is in the next replay. */
  ghost predicate Covered(s: Session) {
    forall m | Wanted(s, m) :: m in Replay(s)
  }

  lemma {:induction false} MatchingMembers(tokens: seq<string>, history: seq<Message>, m: Message)
    ensures m in Matching(tokens, history) <==> m in history && Topic.Denotes(tokens, Topic.Split(m.topic))
    decreases |history|
  {
    if history != [] {
      hide Topic.Denotes, Topic.Split;
      MatchingMembers(tokens, history[1..], m);
      assert history == [history[0]] + history[1..];
    }
  }

  lemma ReplayMembers(s: Session, m: Message)
    ensures m in Replay(s) <==>
      m in s.mem.history && m.createdAt >= From(s) && Topic.Denotes(s.tokens, Topic.Split(m.topic))
  {
    hide Topic.Denotes, Topic.Split, D.ReadFrom;
    D.ReadFromMeaning(s.mem, From(s));
    MatchingMembers(s.tokens, D.ReadFrom(s.mem, From(s)), m);
  }

  lemma CoveredMeans(s: Session)
    ensures Covered(s) <==> forall m | Wanted(s, m) :: m.createdAt >= From(s)
  {
    hide Replay, From;
    forall m | Wanted(s, m)
      ensures m in Replay(s) <==> m.createdAt >= From(s)
    {
      ReplayMembers(s, m);
    }
  }

  // ---- What each step does to coverage -----------------------------------------------------

  /** In timestamp order: an ack overtakes no wanted message, and a newly retained message that is wanted
      is not older than the last ack. */
  ghost predicate InOrder(s: Session, step: Step) {
    match step
    case Ack(m) => forall x | Wanted(s, x) && x != m :: x.createdAt >= m.createdAt
    case Store(op) => op.Append? && Wanted(After(s, step), op.message) ==> op.message.createdAt >= From(s)
  }

  lemma AckCoverage(s: Session, m: Message)
    requires Covered(s)
    ensures Covered(After(s, Ack(m))) <==> InOrder(s, Ack(m))
  {
    var s' := After(s, Ack(m));
    CoveredMeans(s);
    CoveredMeans(s');
    hide Covered, Topic.Denotes, Topic.Split, Replay;
    assert forall x :: Wanted(s', x) <==> Wanted(s, x) && x != m;
    assert From(s') == From(s) || From(s') == m.createdAt;
    if s.last.Some? && m.createdAt <= s.last.value {
      assert From(s') == From(s) >= m.createdAt;
    } else {
      assert From(s') == m.createdAt;
    }
  }

  lemma StoreCoverage(s: Session, op: D.Operation)
    requires Covered(s)
    ensures Covered(After(s, Store(op))) <==> InOrder(s, Store(op))
  {
    var s' := After(s, Store(op));
    CoveredMeans(s);
    CoveredMeans(s');
    hide Covered, Topic.Denotes, Topic.Split, Replay;
    assert From(s') == From(s);
    if op.Append? {
      assert forall x :: x in s'.mem.history ==> x in s.mem.history || x == op.message;
      assert forall x :: Wanted(s', x) ==> Wanted(s, x) || x == op.message;
      assert forall x :: Wanted(s, x) ==> Wanted(s', x);
    } else {
      assert s'.mem.history == s.mem.history;
    }
  }

  /** An ack out of order loses what it overtook: no later resume replays it. */
  lemma OvertakenIsLost(s: Session, m: Message, x: Message, steps: seq<Step>)
    requires x.createdAt < m.createdAt
    ensures x !in Replay(Outcome(After(s, Ack(m)), steps))
  {
    LastOnlyGrows(After(s, Ack(m)), steps);
    hide Replay, Outcome;
    ReplayMembers(Outcome(After(s, Ack(m)), steps), x);
  }

  lemma {:induction false} LastOnlyGrows(s: Session, steps: seq<Step>)
    requires s.last.Some?
    ensures Outcome(s, steps).last.Some? && Outcome(s, steps).last.value >= s.last.value
    decreases |steps|
  {
    if steps != [] {
      LastOnlyGrows(After(s, steps[0]), steps[1..]);
    }
  }

  // ---- Whole runs --------------------------------------------------------------------------

  function Outcome(s: Session, steps: seq<Step>): Session
    decreases |steps|
  {
    if steps == [] then s else Outcome(After(s, steps[0]), steps[1..])
  }

  /** Covered before every step and at the end: whenever the connection drops, the next resume covers
      the gap. */
  ghost predicate AlwaysCovered(s: Session, steps: seq<Step>)
    decreases |steps|
  {
    Covered(s) && (steps == [] || AlwaysCovered(After(s, steps[0]), steps[1..]))
  }

  ghost predicate AlwaysInOrder(s: Session, steps: seq<Step>)
    decreases |steps|
  {
    steps == [] || (InOrder(s, steps[0]) && AlwaysInOrder(After(s, steps[0]), steps[1..]))
  }

  /** Across any number of reconnects the next resume always covers the gap, if and only if acks and
      retained messages come in timestamp order. */
  lemma {:induction false} ResumeCoversTheGap(s: Session, steps: seq<Step>)
    requires Covered(s)
    ensures AlwaysCovered(s, steps) <==> AlwaysInOrder(s, steps)
    decreases |steps|
  {
    if steps != [] {
      hide Covered, InOrder, After;
      match steps[0] {
        case Ack(m) => AckCoverage(s, m);
        case Store(op) => StoreCoverage(s, op);
      }
      if Covered(After(s, steps[0])) {
        ResumeCoversTheGap(After(s, steps[0]), steps[1..]);
      } else {
        assert !AlwaysCovered(After(s, steps[0]), steps[1..]);
      }
    }
  }

  /** A subscription that has just started. */
  function Fresh(tokens: seq<string>, start: real, mem: D.Memory): Session {
    Session(tokens, start, None, {}, mem)
  }

  /** From the start of a subscription on, whatever the store holds then. */
  lemma ResumeCoversFromTheStart(tokens: seq<string>, start: real, mem: D.Memory, steps: seq<Step>)
    ensures AlwaysCovered(Fresh(tokens, start, mem), steps) <==> AlwaysInOrder(Fresh(tokens, start, mem), steps)
  {
    CoveredMeans(Fresh(tokens, start, mem));
    ResumeCoversTheGap(Fresh(tokens, start, mem), steps);
  }

  ghost predicate LastIsLatest(s: Session) {
    && (s.last.None? <==> s.acked == {})
    && (forall m <- s.acked :: m.createdAt <= s.last.value)
    && (s.last.Some? ==> exists m :: m in s.acked && m.createdAt == s.last.value)
  }

  lemma {:induction false} LastStaysLatest(s: Session, steps: seq<Step>)
    requires LastIsLatest(s)
    ensures LastIsLatest(Outcome(s, steps))
    decreases |steps|
  {
    if steps != [] {
      var s' := After(s, steps[0]);
      if steps[0].Ack? {
        assert steps[0].message in s'.acked;
      }
      LastStaysLatest(s', steps[1..]);
    }
  }

  /** In every run, whatever its order: an acked message is replayed again exactly if it is retained,
      matches and has the timestamp of the latest ack. */
  lemma OnlyTheBoundaryRepeats(tokens: seq<string>, start: real, mem: D.Memory, steps: seq<Step>, m: Message)
    requires m in Outcome(Fresh(tokens, start, mem), steps).acked
    ensures
      var s := Outcome(Fresh(tokens, start, mem), steps);
      && s.tokens == tokens && s.last.Some? && (forall x <- s.acked :: x.createdAt <= s.last.value)
      && (m in Replay(s) <==>
            m in s.mem.history && Topic.Denotes(tokens, Topic.Split(m.topic)) && s.last == Some(m.createdAt))
  {
    var s0 := Fresh(tokens, start, mem);
    LastStaysLatest(s0, steps);
    TokensStay(s0, steps);
    hide Outcome, Replay, Topic.Denotes, Topic.Split;
    ReplayMembers(Outcome(s0, steps), m);
  }

  lemma {:induction false} TokensStay(s: Session, steps: seq<Step>)
    ensures Outcome(s, steps).tokens == s.tokens
    decreases |steps|
  {
    if steps != [] {
      TokensStay(After(s, steps[0]), steps[1..]);
    }
  }

  /** And it does repeat: whatever matching message a new subscription acks first comes again with the
      next resume, as long as it is retained. */
  lemma FirstAckRepeats(tokens: seq<string>, start: real, mem: D.Memory, m: Message)
    requires m in mem.history && Topic.Denotes(tokens, Topic.Split(m.topic))
    ensures
      var s := Outcome(Fresh(tokens, start, mem), [Ack(m)]);
      m in s.acked && m in Replay(s)
  {
    assert Outcome(Fresh(tokens, start, mem), [Ack(m)]) == After(Fresh(tokens, start, mem), Ack(m));
    hide Replay, Topic.Denotes, Topic.Split, Outcome;
    ReplayMembers(After(Fresh(tokens, start, mem), Ack(m)), m);
  }
}
