/**
 The other end of a ring: whatever the peer's reader or writer may do between two steps
 of a thread on this end.
 */
module Peers {
  import opened RingSpec
  import opened Ring

  /** Nothing the reader does changes what is written or committed, or loses its place. */
  ghost predicate ReaderMoved(s: State, e: State) {
    && e.size == s.size && e.written == s.written && e.committed == s.committed && e.freed == s.freed
    && s.read <= e.read && s.released <= e.released
  }

  /** Any number of reader operations. */
  method ReaderRuns(q: RingBuffer)
    requires q.Valid()
    modifies q
    ensures q.Valid() && ReaderMoved(old(q.st), q.st)
  {
    var rounds: nat :| rounds >= 0;
    for i := 0 to rounds
      invariant q.Valid() && ReaderMoved(old(q.st), q.st)
    {
      if * {
        q.UpdateReadPtr();
      } else {
        var n: nat :| n >= 0;
        var msg, readSize := q.GetNext(n);
      }
    }
  }

  /** Nothing the writer does changes what is read or released, or takes back what it published. */
  ghost predicate WriterMoved(s: State, e: State) {
    && e.size == s.size && e.read == s.read && e.released == s.released && e.seen == s.seen
    && s.written <= e.written && s.committed <= e.committed
  }

  /** Any number of writer operations. */
  method WriterRuns(q: RingBuffer)
    requires q.Valid()
    modifies q, q.base
    ensures q.Valid() && WriterMoved(old(q.st), q.st)
  {
    var rounds: nat :| rounds >= 0;
    for i := 0 to rounds
      invariant q.Valid() && WriterMoved(old(q.st), q.st)
    {
      if * {
        q.Commit();
      } else {
        var msg: seq<Byte> :| |msg| >= 0;
        var ret := q.Write(msg);
      }
    }
  }
}
