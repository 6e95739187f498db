/**
 Node messages over a ring: every message is written and read whole, so the byte queue
 carries a queue of messages.
 */
module NodeQueue {
  import opened RingSpec
  import opened Ring
  import opened Peers

  const ENODEV := 19

  /** sizeof(struct nodemsg): two port ids of 4 bytes, a 4-byte opcode, four 8-byte payloads, packed. */
  const MSG_SIZE := 44

  type Message = m: seq<Byte> | |m| == MSG_SIZE witness seq(MSG_SIZE, i => 0)

  function Flat(ms: seq<Message>): (b: seq<Byte>)
    ensures |b| == MSG_SIZE * |ms|
  {
    if ms == [] then [] else Flat(ms[..|ms| - 1]) + ms[|ms| - 1]
  }

  lemma {:induction false} FlatAt(ms: seq<Message>, i: nat)
    requires i < |ms|
    ensures Flat(ms)[MSG_SIZE * i..MSG_SIZE * i + MSG_SIZE] == ms[i]
  {
    if i < |ms| - 1 {
      FlatAt(ms[..|ms| - 1], i);
      var b := Flat(ms[..|ms| - 1]);
      assert Flat(ms)[MSG_SIZE * i..MSG_SIZE * i + MSG_SIZE] == b[MSG_SIZE * i..MSG_SIZE * i + MSG_SIZE];
    }
  }

  // ------------------------------------------------ every interleaving of message writes and reads

  /** The node queue pair only ever writes and reads whole messages. */
  ghost predicate MessageOp(op: Op) {
    && (op.OpWrite? || op.OpAppend? ==> |op.msg| == MSG_SIZE)
    && (op.OpGetNext? ==> op.n == MSG_SIZE)
  }

  /** It is a write that finds room. */
  ghost predicate Writes(s: State, op: Op) {
    (op.OpWrite? && Space(s) >= MSG_SIZE) || (op.OpAppend? && Room(s) >= MSG_SIZE)
  }

  /** The messages written, in order; a write without space writes nothing. */
  ghost function Sent(s: State, ops: seq<Op>): seq<Message>
    requires forall op :: op in ops ==> MessageOp(op)
  {
    if ops == [] then []
    else
      var before, op := ops[..|ops| - 1], ops[|ops| - 1];
      assert MessageOp(op);
      if Writes(Run(s, before), op) then
        var m: Message := op.msg;
        Sent(s, before) + [m]
      else
        Sent(s, before)
  }

  /** The messages read, in order. */
  ghost function Delivered(s: State, ops: seq<Op>): seq<Message>
    requires Inv(s) && forall op :: op in ops ==> MessageOp(op)
  {
    if ops == [] then []
    else
      var before, op := ops[..|ops| - 1], ops[|ops| - 1];
      RunKeepsInv(s, before);
      if op.OpGetNext? && Count(Run(s, before), MSG_SIZE) >= MSG_SIZE then
        Delivered(s, before) + [Got(Run(s, before), MSG_SIZE)]
      else
        Delivered(s, before)
  }

  /** What the byte queue holds after a run of message operations. */
  ghost predicate Carries(e: State, sent: seq<Message>, delivered: seq<Message>) {
    && Inv(e) && delivered <= sent
    && e.written == Flat(sent)
    && e.read == MSG_SIZE * |delivered|
    && e.committed % MSG_SIZE == 0 && e.seen % MSG_SIZE == 0
  }

  lemma {:induction false} RunCarries(size: nat, ops: seq<Op>)
    requires size > 0 && forall op :: op in ops ==> MessageOp(op)
    ensures Carries(Run(Initial(size), ops), Sent(Initial(size), ops), Delivered(Initial(size), ops))
  {
    var s := Initial(size);
    if ops != [] {
      var before, op := ops[..|ops| - 1], ops[|ops| - 1];
      RunCarries(size, before);
      StepCarries(Run(s, before), op, Sent(s, before), Delivered(s, before));
    }
  }

  lemma StepCarries(e: State, op: Op, sent: seq<Message>, delivered: seq<Message>)
    requires Carries(e, sent, delivered) && MessageOp(op)
    ensures Carries(Step(e, op),
                    if Writes(e, op) then sent + [op.msg] else sent,
                    if op.OpGetNext? && Count(e, MSG_SIZE) >= MSG_SIZE then delivered + [Got(e, MSG_SIZE)]
                    else delivered)
  {
    StepKeepsInv(e, op);
    if op.OpGetNext? && Count(e, MSG_SIZE) >= MSG_SIZE {
      FlatAt(sent, |delivered|);
    } else if Writes(e, op) {
      assert (sent + [op.msg])[..|sent|] == sent;
    }
  }

  /** In every interleaving the messages read are the first of those written: whole, in order, none lost or doubled. */
  lemma MessagesWholeAndInOrder(size: nat, ops: seq<Op>)
    requires size > 0 && forall op :: op in ops ==> MessageOp(op)
    ensures Inv(Initial(size)) && Delivered(Initial(size), ops) <= Sent(Initial(size), ops)
  {
    RunCarries(size, ops);
  }

  /** A read that finds no message has left nothing committed behind: no message is ever split. */
  lemma NoPartialMessage(size: nat, ops: seq<Op>)
    requires size > 0 && forall op :: op in ops ==> MessageOp(op)
    ensures var e := Run(Initial(size), ops);
            Count(e, MSG_SIZE) < MSG_SIZE ==> e.read == e.committed
  {
    RunCarries(size, ops);
  }

  // ------------------------------------------------ sending under interference

  /**
   micscif_nodeqp_send to a running node: retries the write while the ring is full, up to
   `timeout` times, and commits.  The reader may run between any two attempts.
   */
  method Send(q: RingBuffer, msg: Message, timeout: nat) returns (err: int, ghost tries: nat)
    requires q.Valid() && q.st.committed == |q.st.written|
    modifies q, q.base
    ensures q.Valid() && q.st.committed == |q.st.written|
    ensures err == 0 || err == -ENODEV
    ensures old(Space(q.st)) >= MSG_SIZE ==> err == 0
    ensures tries == timeout + 2 || (err == 0 && tries < timeout + 2)
    ensures q.st.written == if err == 0 then old(q.st.written) + msg else old(q.st.written)
    ensures old(q.st.read) <= q.st.read
  {
    ghost var s := q.st;
    var loopCnt := 0;
    err := q.Write(msg);
    tries := 1;
    while err != 0
      invariant q.Valid() && q.st.committed == |s.written| && s.read <= q.st.read && 0 <= loopCnt <= timeout + 1
      invariant tries == loopCnt + 1
      invariant (err == 0 || err == -ENOMEM) && (Space(s) >= MSG_SIZE ==> err == 0)
      invariant q.st.written == if err == 0 then s.written + msg else s.written
      decreases timeout + 1 - loopCnt, err != 0
    {
      ReaderRuns(q);
      loopCnt := loopCnt + 1;
      if loopCnt - 1 > timeout {
        err := -ENODEV;
        break;
      }
      err := q.Write(msg);
      tries := tries + 1;
    }
    if err == 0 {
      q.Commit();
    }
  }
}
