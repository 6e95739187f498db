/**
 One direction of a connection, step by step: a thread in _scif_send on one node, a
 thread in _scif_recv on the other, the ring between them, the notices each side sends
 the other through the node queues, and a flush by either side at any time.

 A step is what runs between two points where the other node can be noticed.  A thread
 holds its endpoint's lock except where it is idle, about to test its wait condition,
 or asleep, and the handlers that change the endpoint's state need that lock.
 */
module StreamSpec {
  import opened RingSpec

  const ENDPT_QP_SIZE := 0x1000

  /** An endpoint is SCIFEP_CONNECTED while Up or Flushing and SCIFEP_DISCONNECTED afterwards. */
  datatype Phase =
    | Up
    | Flushing // DISCNCT sent, waiting for the acknowledgement
    | Acked    // acknowledged, sleepers not yet woken
    | Down

  predicate Connected(p: Phase) {
    p.Up? || p.Flushing?
  }

  /** What travels in the node queues; Client is SCIF_CLIENT_SENT to the receiver and SCIF_CLIENT_RCVD to the sender. */
  datatype Notice = Client | Discnct | DiscntAck

  /** Where the sending thread is; `k` of the bytes of `msg` are sent. */
  datatype Sender =
    | SIdle
    | SCheck(msg: seq<Byte>, block: bool, k: nat)          // at the head of the loop
    | SWrite(msg: seq<Byte>, block: bool, k: nat, n: nat)  // about to write n bytes
    | SCommit(msg: seq<Byte>, block: bool, k: nat, n: nat) // about to publish them
    | SNotify(msg: seq<Byte>, block: bool, k: nat, n: nat) // about to notify the peer
    | SPark(msg: seq<Byte>, block: bool, k: nat)           // about to test the wait condition
    | SAsleep(msg: seq<Byte>, block: bool, k: nat)

  /** Where the receiving thread is; `left` bytes are still wanted. */
  datatype Receiver =
    | RIdle
    | RCheck(len: nat, block: bool, left: nat)
    | RTake(len: nat, block: bool, left: nat, n: nat)
    | RRelease(len: nat, block: bool, left: nat)
    | RNotify(len: nat, block: bool, left: nat)
    | RPark(len: nat, block: bool, left: nat)
    | RAsleep(len: nat, block: bool, left: nat)

  datatype Stream = Stream(
    ring: State,
    snd: Sender,
    rcv: Receiver,
    sPhase: Phase,
    rPhase: Phase,
    toSender: seq<Notice>,
    toReceiver: seq<Notice>,
    sent: seq<Byte>,     // by the calls of _scif_send that have returned
    received: seq<Byte>, // by all calls of _scif_recv so far
    reset: bool)         // some call of _scif_recv has returned -ECONNRESET

  function Established(): Stream {
    Stream(RingSpec.Initial(ENDPT_QP_SIZE), SIdle, RIdle, Up, Up, [], [], [], [], false)
  }

  function Min(a: int, b: int): int {
    if a < b then a else b
  }

  // ------------------------------------------------ the sender

  /** The condition a blocked sender waits for. */
  predicate SendReady(s: Stream)
    requires s.snd.SPark? || s.snd.SAsleep?
  {
    !Connected(s.sPhase) || Space(s.ring) >= Min(|s.snd.msg| - s.snd.k, s.ring.size - 1)
  }

  function SendReturn(s: Stream): Stream
    requires !s.snd.SIdle? && s.snd.k <= |s.snd.msg|
  {
    s.(snd := SIdle, sent := s.sent + s.snd.msg[..s.snd.k])
  }

  function SendCheck(s: Stream): Stream
    requires s.snd.SCheck? && s.snd.k <= |s.snd.msg|
  {
    var SCheck(msg, block, k) := s.snd;
    if k == |msg| || !Connected(s.sPhase) then
      SendReturn(s)
    else if Space(s.ring) > 0 then
      s.(ring := Refresh(s.ring), snd := SWrite(msg, block, k, Min(|msg| - k, Space(s.ring))))
    else if !block then
      SendReturn(s).(ring := Refresh(s.ring))
    else
      s.(ring := Refresh(s.ring), snd := SPark(msg, block, k))
  }

  /** wait_event_interruptible re-tests its condition each time it is woken; the test refreshes the cached offset. */
  function SendTest(s: Stream): Stream
    requires s.snd.SPark?
  {
    var SPark(msg, block, k) := s.snd;
    s.(ring := if Connected(s.sPhase) then Refresh(s.ring) else s.ring,
       snd := if SendReady(s) then SCheck(msg, block, k) else SAsleep(msg, block, k))
  }

  predicate SenderOk(snd: Sender) {
    && (!snd.SIdle? ==> snd.k <= |snd.msg|)
    && (snd.SWrite? || snd.SCommit? || snd.SNotify? ==> 0 < snd.n && snd.k + snd.n <= |snd.msg|)
    && (snd.SPark? || snd.SAsleep? ==> snd.k < |snd.msg|)
  }

  /** The sending thread runs on, if it can. */
  function SendStep(s: Stream): Stream
    requires SenderOk(s.snd)
  {
    match s.snd
    case SIdle => s
    case SCheck(_, _, _) => SendCheck(s)
    case SWrite(msg, block, k, n) =>
      s.(ring := Write(s.ring, msg[k..k + n]), snd := SCommit(msg, block, k, n))
    case SCommit(msg, block, k, n) =>
      s.(ring := Commit(s.ring), snd := SNotify(msg, block, k, n))
    case SNotify(msg, block, k, n) =>
      s.(toReceiver := s.toReceiver + [Client], snd := SCheck(msg, block, k + n))
    case SPark(_, _, _) => SendTest(s)
    case SAsleep(_, _, _) => s
  }

  function WakeSender(s: Stream): Stream {
    match s.snd
    case SAsleep(msg, block, k) => s.(snd := SPark(msg, block, k))
    case _ => s
  }

  // ------------------------------------------------ the receiver

  predicate RecvReady(s: Stream)
    requires s.rcv.RPark? || s.rcv.RAsleep?
  {
    var want := Min(s.rcv.left, s.ring.size - 1);
    !Connected(s.rPhase) || (want >= 0 && Count(s.ring, want) >= want)
  }

  function RecvCheck(s: Stream): Stream
    requires s.rcv.RCheck?
  {
    var RCheck(len, block, left) := s.rcv;
    if left == 0 then
      s.(rcv := RIdle)
    else if Count(s.ring, left) > 0 then
      s.(ring := Look(s.ring, left), rcv := RTake(len, block, left, Min(left, Count(s.ring, left))))
    else if !Connected(s.rPhase) then
      s.(ring := Look(s.ring, left), rcv := RIdle, reset := s.reset || left == len)
    else if !block then
      s.(ring := Look(s.ring, left), rcv := RIdle)
    else
      s.(ring := Look(s.ring, left), rcv := RPark(len, block, left))
  }

  function RecvTest(s: Stream): Stream
    requires s.rcv.RPark? && s.ring.size > 0
  {
    var RPark(len, block, left) := s.rcv;
    s.(ring := if Connected(s.rPhase) then Look(s.ring, Min(left, s.ring.size - 1)) else s.ring,
       rcv := if RecvReady(s) then RCheck(len, block, left) else RAsleep(len, block, left))
  }

  predicate ReceiverOk(rcv: Receiver) {
    && (!rcv.RIdle? ==> rcv.left <= rcv.len)
    && (rcv.RTake? ==> 0 < rcv.n <= rcv.left)
    && (rcv.RPark? || rcv.RAsleep? ==> 0 < rcv.left)
  }

  /** The receiving thread runs on; it releases and notifies only while its endpoint is connected. */
  function RecvStep(s: Stream): Stream
    requires ReceiverOk(s.rcv) && Inv(s.ring)
  {
    match s.rcv
    case RIdle => s
    case RCheck(_, _, _) => RecvCheck(s)
    case RTake(len, block, left, n) =>
      s.(ring := GetNext(s.ring, n), received := s.received + Got(s.ring, n),
         rcv := if Connected(s.rPhase) then RRelease(len, block, left - n) else RCheck(len, block, left - n))
    case RRelease(len, block, left) =>
      s.(ring := Release(s.ring), rcv := RNotify(len, block, left))
    case RNotify(len, block, left) =>
      s.(toSender := s.toSender + [Client], rcv := RCheck(len, block, left))
    case RPark(_, _, _) => RecvTest(s)
    case RAsleep(_, _, _) => s
  }

  function WakeReceiver(s: Stream): Stream {
    match s.rcv
    case RAsleep(len, block, left) => s.(rcv := RPark(len, block, left))
    case _ => s
  }

  // ------------------------------------------------ handlers and flushes

  predicate SenderUnlocked(s: Stream) {
    s.snd.SIdle? || s.snd.SPark? || s.snd.SAsleep?
  }

  predicate ReceiverUnlocked(s: Stream) {
    s.rcv.RIdle? || s.rcv.RPark? || s.rcv.RAsleep?
  }

  /** scif_clientrcvd_resp, scif_discnct_resp and scif_discntack_resp on the sender's node. */
  function DeliverToSender(s: Stream): Stream
    requires s.toSender != []
  {
    var t := s.(toSender := s.toSender[1..]);
    match s.toSender[0]
    case Client => if Connected(s.sPhase) then WakeSender(t) else t
    case Discnct =>
      (if s.sPhase.Up? then WakeSender(t.(sPhase := Down)) else t).(toReceiver := s.toReceiver + [DiscntAck])
    case DiscntAck => if s.sPhase.Down? then t else t.(sPhase := Acked)
  }

  /** scif_clientsend_resp, scif_discnct_resp and scif_discntack_resp on the receiver's node. */
  function DeliverToReceiver(s: Stream): Stream
    requires s.toReceiver != []
  {
    var t := s.(toReceiver := s.toReceiver[1..]);
    match s.toReceiver[0]
    case Client => if Connected(s.rPhase) then WakeReceiver(t) else t
    case Discnct =>
      (if s.rPhase.Up? then WakeReceiver(t.(rPhase := Down)) else t).(toSender := s.toSender + [DiscntAck])
    case DiscntAck => if s.rPhase.Down? then t else t.(rPhase := Acked)
  }

  // ------------------------------------------------ every interleaving

  datatype Move =
    | SendCall(msg: seq<Byte>, block: bool)
    | SenderRuns
    | SendInterrupted
    | RecvCall(len: nat, block: bool)
    | ReceiverRuns
    | RecvInterrupted
    | ToSender
    | ToReceiver
    | FlushSender
    | FlushSenderEnds
    | FlushReceiver
    | FlushReceiverEnds

  predicate Enabled(s: Stream, op: Move) {
    match op
    case SendCall(_, _) => s.snd.SIdle?
    case SenderRuns => true
    case SendInterrupted => s.snd.SAsleep? || s.snd.SPark?
    case RecvCall(_, _) => s.rcv.RIdle?
    case ReceiverRuns => true
    case RecvInterrupted => s.rcv.RAsleep? || s.rcv.RPark?
    case ToSender => s.toSender != [] && (s.toSender[0].Client? || SenderUnlocked(s))
    case ToReceiver => s.toReceiver != [] && (s.toReceiver[0].Client? || ReceiverUnlocked(s))
    case FlushSender => s.sPhase.Up? && SenderUnlocked(s)
    case FlushSenderEnds => s.sPhase.Acked? && SenderUnlocked(s)
    case FlushReceiver => s.rPhase.Up? && ReceiverUnlocked(s)
    case FlushReceiverEnds => s.rPhase.Acked? && ReceiverUnlocked(s)
  }

  function Next(s: Stream, op: Move): Stream
    requires Inv(s.ring) && SenderOk(s.snd) && ReceiverOk(s.rcv) && Enabled(s, op)
  {
    match op
    case SendCall(msg, block) => s.(snd := SCheck(msg, block, 0))
    case SenderRuns => SendStep(s)
    case SendInterrupted => SendReturn(s)
    case RecvCall(len, block) => s.(rcv := RCheck(len, block, len))
    case ReceiverRuns => RecvStep(s)
    case RecvInterrupted => s.(rcv := RIdle)
    case ToSender => DeliverToSender(s)
    case ToReceiver => DeliverToReceiver(s)
    case FlushSender => s.(sPhase := Flushing, toReceiver := s.toReceiver + [Discnct])
    case FlushSenderEnds => WakeSender(s.(sPhase := Down))
    case FlushReceiver => s.(rPhase := Flushing, toSender := s.toSender + [Discnct])
    case FlushReceiverEnds => WakeReceiver(s.(rPhase := Down))
  }
}
