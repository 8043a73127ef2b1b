/** The phase-fair read/write lock of `pubsub/server/_asqlite.py`.

    A critical section never awaits except in `Condition.wait`, which releases the condition's
    lock, so each stretch between two suspension points runs atomically. One method below is one
    such stretch: the start of an acquire, the re-evaluation of the guard after a wakeup, the
    `finally` of a cancelled wait, or a whole release. */
module RwLock {
  /** The five fields of `_RWLock`. */
  datatype Lock = Lock(readers: int, writerActive: bool, waitingWriters: int, waitingReaders: int, readerTurn: bool)

  const FREE: Lock := Lock(0, false, 0, 0, false)

  /** Loop guard of `acquire_read`: true means the task waits. */
  predicate ReadBlocked(l: Lock) {
    l.writerActive || (l.waitingWriters > 0 && !l.readerTurn)
  }

  /** Loop guard of `acquire_write`. */
  predicate WriteBlocked(l: Lock) {
    l.writerActive || l.readers > 0 || (l.readerTurn && l.waitingReaders > 0)
  }

  function QueueReader(l: Lock): Lock {
    l.(waitingReaders := l.waitingReaders + 1)
  }

  function QueueWriter(l: Lock): Lock {
    l.(waitingWriters := l.waitingWriters + 1)
  }

  /** What a reader does when its guard is evaluated while it is counted as waiting. */
  function TryRead(l: Lock): Lock {
    if ReadBlocked(l) then l else l.(waitingReaders := l.waitingReaders - 1, readers := l.readers + 1)
  }

  function TryWrite(l: Lock): Lock {
    if WriteBlocked(l) then l else l.(waitingWriters := l.waitingWriters - 1, writerActive := true)
  }

  function ReaderReleased(l: Lock): Lock {
    if l.readers == 1 then l.(readers := 0, readerTurn := false) else l.(readers := l.readers - 1)
  }

  function WriterReleased(l: Lock): Lock {
    l.(writerActive := false, readerTurn := l.waitingReaders > 0)
  }

  class RWLock {
    var readers: int
    var writerActive: bool
    var waitingWriters: int
    var waitingReaders: int
    var readerTurn: bool

    function State(): Lock
      reads this
    {
      Lock(readers, writerActive, waitingWriters, waitingReaders, readerTurn)
    }

    constructor ()
      ensures State() == FREE
    {
      readers, writerActive, waitingWriters, waitingReaders, readerTurn := 0, false, 0, 0, false;
    }

    /** `acquire_read` up to its first wait, or to the end when the guard is already false. */
    method BeginRead() returns (entered: bool)
      modifies this
      ensures State() == TryRead(QueueReader(old(State())))
      ensures entered <==> readers == old(readers) + 1
    {
      waitingReaders := waitingReaders + 1;
      entered := ResumeRead();
    }

    /** One evaluation of the guard of `acquire_read`, after a wakeup. */
    method ResumeRead() returns (entered: bool)
      modifies this
      ensures State() == TryRead(old(State()))
      ensures entered <==> readers == old(readers) + 1
    {
      entered := !(writerActive || (waitingWriters > 0 && !readerTurn));
      if entered {
        waitingReaders := waitingReaders - 1;
        readers := readers + 1;
      }
    }

    /** `release_read`; `notified` tells whether it called `notify_all`. */
    method ReleaseRead() returns (notified: bool)
      modifies this
      ensures State() == ReaderReleased(old(State()))
      ensures notified <==> readers == 0
    {
      readers := readers - 1;
      notified := readers == 0;
      if notified {
        readerTurn := false;
      }
    }

    /** `acquire_write` up to its first wait, or to the end. */
    method BeginWrite() returns (entered: bool)
      modifies this
      ensures State() == TryWrite(QueueWriter(old(State())))
      ensures entered <==> waitingWriters == old(waitingWriters)
    {
      waitingWriters := waitingWriters + 1;
      entered := ResumeWrite();
    }

    method ResumeWrite() returns (entered: bool)
      modifies this
      ensures State() == TryWrite(old(State()))
      ensures entered <==> waitingWriters == old(waitingWriters) - 1
    {
      entered := !(writerActive || readers > 0 || (readerTurn && waitingReaders > 0));
      if entered {
        waitingWriters := waitingWriters - 1;
        writerActive := true;
      }
    }

    /** `release_write`, which always calls `notify_all`. */
    method ReleaseWrite()
      modifies this
      ensures State() == WriterReleased(old(State()))
    {
      writerActive := false;
      readerTurn := waitingReaders > 0;
    }

    /** The `finally` clauses of an acquire whose wait was cancelled. */
    method AbandonRead()
      modifies this
      ensures State() == old(State()).(waitingReaders := old(waitingReaders) - 1)
    {
      waitingReaders := waitingReaders - 1;
    }

    method AbandonWrite()
      modifies this
      ensures State() == old(State()).(waitingWriters := old(waitingWriters) - 1)
    {
      waitingWriters := waitingWriters - 1;
    }
  }
}
