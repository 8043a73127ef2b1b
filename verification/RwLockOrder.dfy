/** Who gets the lock, told by what the tasks are doing: writers go before readers that have no turn, and
    readers that were granted a turn go before writers. */
module RwLockOrder {
  import opened RwLockRuns

  predicate SomeReaderWaits(s: Sys) {
    AsleepR in s.phases || WokenR in s.phases
  }

  predicate SomeWriterWaits(s: Sys) {
    AsleepW in s.phases || WokenW in s.phases
  }

  lemma FieldsMeanTasks(s: Sys)
    requires CancelInv(s)
    ensures s.lock.writerActive <==> Writing in s.phases
    ensures s.lock.readers > 0 <==> Reading in s.phases
    ensures s.lock.waitingReaders > 0 <==> SomeReaderWaits(s)
    ensures s.lock.waitingWriters > 0 <==> SomeWriterWaits(s)
  {
    hide IdleProgress;
    var m := multiset(s.phases);
    assert forall p :: p in s.phases <==> m[p] > 0;
  }

  /** With cancellations or without: a reader that looks gets the lock exactly if nobody writes and no
      writer waits, unless the readers have their turn. */
  lemma ReadersEnterExactly(s: Sys, step: Step)
    requires Reachable(s) && Enabled(s, step) && (step.StartRead? || step.WakeRead?)
    ensures Apply(s, step).phases[step.t] ==
      if Writing in s.phases || (SomeWriterWaits(s) && !s.lock.readerTurn) then AsleepR else Reading
  {
    hide CancelInv, Reachable;
    ReachableCancelInv(s);
    FieldsMeanTasks(s);
  }

  /** A writer that looks gets it exactly if nobody reads or writes, and not while the readers have their
      turn and one of them still waits. */
  lemma WritersEnterExactly(s: Sys, step: Step)
    requires Reachable(s) && Enabled(s, step) && (step.StartWrite? || step.WakeWrite?)
    ensures Apply(s, step).phases[step.t] ==
      if Writing in s.phases || Reading in s.phases || (s.lock.readerTurn && SomeReaderWaits(s)) then AsleepW
      else Writing
  {
    hide CancelInv, Reachable;
    ReachableCancelInv(s);
    FieldsMeanTasks(s);
  }

  predicate OtherReads(s: Sys, t: nat) {
    exists u | 0 <= u < |s.phases| && u != t :: s.phases[u] == Reading
  }

  lemma LastReader(s: Sys, t: nat)
    requires CancelInv(s) && In(s, t, Reading)
    ensures s.lock.readers > 1 <==> OtherReads(s, t)
  {
    hide IdleProgress;
    CountMove(s.phases, t, Away);
    var rest := s.phases[t := Away];
    assert Reading in rest <==> multiset(rest)[Reading] > 0;
    if Reading in rest {
      var u :| 0 <= u < |rest| && rest[u] == Reading;
      assert s.phases[u] == Reading;
    }
    if OtherReads(s, t) {
      var u :| 0 <= u < |s.phases| && u != t && s.phases[u] == Reading;
      assert rest[u] == Reading;
    }
  }

  lemma ReaderCounts(s: Sys, t: nat)
    requires CancelInv(s) && In(s, t, Reading)
    ensures s.lock.readers >= 1
  {
    assert s.phases[t] in multiset(s.phases);
  }

  /** The readers have the turn exactly from a writer's release at which some of them wait to the release of
      the last reader. */
  lemma TurnIsExact(s: Sys, step: Step)
    requires Reachable(s) && Enabled(s, step)
    ensures Apply(s, step).lock.readerTurn <==>
      match step
      case EndWrite(_) => SomeReaderWaits(s)
      case EndRead(t) => s.lock.readerTurn && OtherReads(s, t)
      case _ => s.lock.readerTurn
  {
    hide CancelInv, Reachable, OtherReads;
    ReachableCancelInv(s);
    FieldsMeanTasks(s);
    if step.EndRead? {
      LastReader(s, step.t);
      ReaderCounts(s, step.t);
    }
  }

  /** Another task is woken exactly by the release of a writer, by the release of the last reader, and by a
      cancelled waiter that passes its wakeup on to it. */
  lemma WakeupsAreExact(s: Sys, step: Step, u: nat)
    requires Reachable(s) && Enabled(s, step) && u < |s.phases| && u != step.t
    ensures u < |Apply(s, step).phases|
    ensures
      var woken := step.EndWrite? || (step.EndRead? && !OtherReads(s, step.t)) || (step.Cancel? && step.next == u);
      Apply(s, step).phases[u] ==
        if woken && s.phases[u] == AsleepR then WokenR
        else if woken && s.phases[u] == AsleepW then WokenW
        else s.phases[u]
  {
    hide CancelInv, Reachable, OtherReads;
    ReachableCancelInv(s);
    FieldsMeanTasks(s);
    if step.EndRead? {
      LastReader(s, step.t);
      ReaderCounts(s, step.t);
    }
  }

  // ---- Over runs ---------------------------------------------------------------------------

  predicate WriterWaits(s: Sys, w: nat) {
    In(s, w, AsleepW) || In(s, w, WokenW)
  }

  /** Writer `w` waits from start to end, and no writer releases. */
  predicate WriterKeptWaiting(s: Sys, steps: seq<Step>, w: nat)
    requires Run(s, steps)
    decreases |steps|
  {
    WriterWaits(s, w) && (steps != [] ==> !steps[0].EndWrite? && WriterKeptWaiting(Apply(s, steps[0]), steps[1..], w))
  }

  function ReaderEntries(s: Sys, steps: seq<Step>): nat
    requires Run(s, steps)
    decreases |steps|
  {
    if steps == [] then 0
    else
      (if (steps[0].StartRead? || steps[0].WakeRead?) && Enters(s, steps[0]) then 1 else 0)
      + ReaderEntries(Apply(s, steps[0]), steps[1..])
  }

  lemma ReaderStaysOut(s: Sys, step: Step, w: nat)
    requires CancelInv(s) && Enabled(s, step) && !step.EndWrite? && WriterWaits(s, w) && !s.lock.readerTurn
    ensures (step.StartRead? || step.WakeRead?) ==> !Enters(s, step)
    ensures !Apply(s, step).lock.readerTurn
  {
    assert s.phases[w] in s.phases;
    FieldsMeanTasks(s);
    hide CancelInv;
  }

  /** Writes finish before reads begin: while a writer waits and the readers have no turn, no reader gets the
      lock before the next writer's release. */
  lemma {:induction false} NoReaderPassesWaitingWriter(s: Sys, steps: seq<Step>, w: nat)
    requires CancelInv(s) && Run(s, steps) && WriterKeptWaiting(s, steps, w) && !s.lock.readerTurn
    ensures ReaderEntries(s, steps) == 0
    decreases |steps|
  {
    if steps != [] {
      hide CancelInv, Apply, Enabled, Enters, WriterWaits;
      ReaderStaysOut(s, steps[0], w);
      StepCancelInv(s, steps[0]);
      NoReaderPassesWaitingWriter(Apply(s, steps[0]), steps[1..], w);
    }
  }
}
