/**
 The byte queue a ring buffer implements, as counters over everything ever written.

 The writer and the reader each keep a cached copy of the other side's position, so
 five positions describe the queue.  A position counts bytes from the start of time and
 never wraps; the ring stores it modulo its size.
 */
module RingSpec {

  newtype Byte = x: int | 0 <= x < 256

  datatype State = State(
    size: nat,          // of the buffer; one byte always stays free
    written: seq<Byte>, // every byte the writer has copied in, in order
    committed: nat,     // position published by the writer
    seen: nat,          // the reader's cached copy of it
    read: nat,          // the reader's position
    released: nat,      // position published by the reader
    freed: nat)         // the writer's cached copy of it

  /** Each cached copy lags behind what it copies, and the writer never laps the reader. */
  ghost predicate Inv(s: State) {
    && s.freed <= s.released <= s.read <= s.seen <= s.committed <= |s.written|
    && |s.written| < s.freed + s.size
  }

  function Initial(size: nat): State {
    State(size, [], 0, 0, 0, 0, 0)
  }

  /** micscif_rb_space: the writer refreshes its copy of the read position. */
  function Refresh(s: State): State {
    s.(freed := s.released)
  }

  function Space(s: State): int {
    s.size - 1 - (|s.written| - s.released)
  }

  /** The room behind the writer's own copy of the read position, which the reader can only enlarge. */
  function Room(s: State): int {
    s.size - 1 - (|s.written| - s.freed)
  }

  /** The copy in micscif_rb_write, if `msg` fits behind the copy of the read position. */
  function Append(s: State, msg: seq<Byte>): State {
    if Room(s) < |msg| then s else s.(written := s.written + msg)
  }

  /** micscif_rb_write: all of `msg`, or nothing. */
  function Write(s: State, msg: seq<Byte>): State {
    if Space(s) < |msg| then Refresh(s) else Refresh(s).(written := s.written + msg)
  }

  /** micscif_rb_commit */
  function Commit(s: State): State {
    s.(committed := |s.written|)
  }

  /** micscif_rb_count: the reader refreshes its copy only when it holds fewer than `n` bytes. */
  function Look(s: State, n: nat): State {
    if s.seen - s.read < n then s.(seen := s.committed) else s
  }

  function Count(s: State, n: nat): int {
    Look(s, n).seen - s.read
  }

  /** micscif_rb_get_next: exactly `n` bytes, or nothing. */
  function GetNext(s: State, n: nat): State {
    if Count(s, n) < n then Look(s, n) else Look(s, n).(read := s.read + n)
  }

  /** The bytes a read of `n` returns. */
  function Got(s: State, n: nat): seq<Byte>
    requires Inv(s)
  {
    if Count(s, n) < n then [] else s.written[s.read..s.read + n]
  }

  /** micscif_rb_update_read_ptr */
  function Release(s: State): State {
    s.(released := s.read)
  }

  // ------------------------------------------------ every interleaving

  datatype Op =
    | OpSpace
    | OpWrite(msg: seq<Byte>)
    | OpAppend(msg: seq<Byte>)
    | OpCommit
    | OpCount(n: nat)
    | OpGetNext(n: nat)
    | OpRelease

  function Step(s: State, op: Op): State {
    match op
    case OpSpace => Refresh(s)
    case OpWrite(msg) => Write(s, msg)
    case OpAppend(msg) => Append(s, msg)
    case OpCommit => Commit(s)
    case OpCount(n) => Look(s, n)
    case OpGetNext(n) => GetNext(s, n)
    case OpRelease => Release(s)
  }

  function Run(s: State, ops: seq<Op>): State {
    if ops == [] then s else Step(Run(s, ops[..|ops| - 1]), ops[|ops| - 1])
  }

  /** All bytes the reads of a run return, in order. */
  ghost function Received(s: State, ops: seq<Op>): seq<Byte>
    requires Inv(s)
  {
    if ops == [] then []
    else
      var before, op := ops[..|ops| - 1], ops[|ops| - 1];
      RunKeepsInv(s, before);
      Received(s, before) + (if op.OpGetNext? then Got(Run(s, before), op.n) else [])
  }

  /**
   Whatever the reader does between the writer's refresh and its copy, the message is
   appended exactly if it fitted at the refresh.
   */
  lemma {:induction false} ReaderKeepsRoom(s: State, ops: seq<Op>, msg: seq<Byte>)
    requires Inv(s) && forall i :: 0 <= i < |ops| ==> ops[i].OpCount? || ops[i].OpGetNext? || ops[i].OpRelease?
    ensures var e := Run(Refresh(s), ops);
            && Inv(e) && e.written == s.written && Room(e) == Space(s)
            && Append(e, msg).written == Write(s, msg).written
  {
    RunKeepsInv(Refresh(s), ops);
    if ops != [] {
      ReaderKeepsRoom(s, ops[..|ops| - 1], msg);
    }
  }

  lemma StepKeepsInv(s: State, op: Op)
    requires Inv(s)
    ensures Inv(Step(s, op)) && Step(s, op).size == s.size
    ensures s.written <= Step(s, op).written
    ensures s.committed <= Step(s, op).committed && s.read <= Step(s, op).read
  {
  }

  lemma {:induction false} RunKeepsInv(s: State, ops: seq<Op>)
    requires Inv(s)
    ensures Inv(Run(s, ops)) && Run(s, ops).size == s.size
    ensures s.written <= Run(s, ops).written
  {
    if ops != [] {
      RunKeepsInv(s, ops[..|ops| - 1]);
      StepKeepsInv(Run(s, ops[..|ops| - 1]), ops[|ops| - 1]);
    }
  }

  /** In every interleaving the reads return what was written, in order, gap-free, and only what was committed. */
  lemma {:induction false} ReceivedIsCommittedPrefix(s: State, ops: seq<Op>)
    requires Inv(s)
    ensures var e := Run(s, ops);
            Inv(e) && s.read <= e.read <= e.committed && Received(s, ops) == e.written[s.read..e.read]
  {
    RunKeepsInv(s, ops);
    if ops != [] {
      var before, op := ops[..|ops| - 1], ops[|ops| - 1];
      RunKeepsInv(s, before);
      ReceivedIsCommittedPrefix(s, before);
      hide Step;
      NextReceives(Run(s, before), op, s.read);
    }
  }

  /** A step keeps what is written, and a read takes up where the last one ended. */
  lemma NextReceives(s: State, op: Op, from: nat)
    requires Inv(s) && from <= s.read
    ensures var e := Step(s, op);
            && Inv(e) && s.read <= e.read <= e.committed
            && e.written[from..e.read] == s.written[from..s.read] + if op.OpGetNext? then Got(s, op.n) else []
  {
    StepKeepsInv(s, op);
  }
}
