/**
 What holds in every run of a sender, a receiver and the flushes of their endpoints.
 */
module StreamTheorems {
  import opened RingSpec
  import opened StreamSpec

  // ------------------------------------------------ the invariant

  /** The bytes the sender's current call has published. */
  ghost function InCall(snd: Sender): seq<Byte>
    requires SenderOk(snd)
  {
    match snd
    case SIdle => []
    case SNotify(msg, _, k, n) => msg[..k + n]
    case _ => snd.msg[..snd.k]
  }

  /** The bytes it has written and not yet published. */
  ghost function Unpublished(snd: Sender): seq<Byte>
    requires SenderOk(snd)
  {
    if snd.SCommit? then snd.msg[snd.k..snd.k + snd.n] else []
  }

  ghost predicate SentInv(written: seq<Byte>, committed: nat, sent: seq<Byte>, unpublished: seq<Byte>) {
    committed <= |written| && written[..committed] == sent && written[committed..] == unpublished
  }

  ghost predicate ReceivedInv(written: seq<Byte>, read: nat, received: seq<Byte>) {
    read <= |written| && received == written[..read]
  }

  ghost predicate SenderInv(ring: State, snd: Sender, phase: Phase) {
    && (snd.SWrite? ==> snd.n <= Space(ring))
    && (!snd.SCommit? ==> ring.committed == |ring.written|)
    && (!Connected(phase) ==> snd.SIdle? || snd.SPark? || snd.SAsleep? || snd.SCheck?)
    && (phase.Down? ==> !snd.SAsleep?)
  }

  /** While its endpoint is connected a receiver releases what it read before it goes on. */
  ghost predicate ReceiverInv(ring: State, rcv: Receiver, phase: Phase) {
    && ReceiverOk(rcv)
    && (rcv.RTake? ==> ring.read + rcv.n <= ring.seen)
    && (Connected(phase) && !rcv.RRelease? ==> ring.released == ring.read)
    && (!Connected(phase) ==> rcv.RIdle? || rcv.RPark? || rcv.RAsleep? || rcv.RCheck? || rcv.RTake?)
    && (phase.Down? ==> !rcv.RAsleep?)
  }

  /** The last of two parked threads parked on a ring that was empty or full. */
  ghost predicate ParkInv(s: Stream) {
    && (s.snd.SPark? || s.snd.SAsleep?) && (s.rcv.RPark? || s.rcv.RAsleep?)
    && Connected(s.sPhase) && Connected(s.rPhase) ==>
      s.ring.read == |s.ring.written| || s.ring.read + s.ring.size - 1 == |s.ring.written|
  }

  /** A sleeping sender was told nothing new, or is about to be told. */
  ghost predicate SenderWakes(ring: State, snd: Sender, phase: Phase, toSender: seq<Notice>, rcv: Receiver) {
    snd.SAsleep? && Connected(phase) ==>
      && ring.size - 1 - (|ring.written| - ring.freed) < Min(|snd.msg| - snd.k, ring.size - 1)
      && (ring.freed < ring.released ==> Client in toSender || rcv.RNotify?)
  }

  ghost predicate ReceiverWakes(ring: State, rcv: Receiver, phase: Phase, toReceiver: seq<Notice>, snd: Sender) {
    rcv.RAsleep? && Connected(phase) ==>
      && ring.seen - ring.read < Min(rcv.left, ring.size - 1)
      && (ring.seen < ring.committed ==> Client in toReceiver || snd.SNotify?)
  }

  ghost predicate Control(s: Stream) {
    && Inv(s.ring) && s.ring.size > 1 && SenderOk(s.snd)
    && SenderInv(s.ring, s.snd, s.sPhase)
    && ReceiverInv(s.ring, s.rcv, s.rPhase)
    && ParkInv(s)
    && SenderWakes(s.ring, s.snd, s.sPhase, s.toSender, s.rcv)
    && ReceiverWakes(s.ring, s.rcv, s.rPhase, s.toReceiver, s.snd)
  }

  ghost predicate Data(s: Stream)
    requires SenderOk(s.snd)
  {
    && SentInv(s.ring.written, s.ring.committed, s.sent + InCall(s.snd), Unpublished(s.snd))
    && ReceivedInv(s.ring.written, s.ring.read, s.received)
  }

  ghost predicate StreamInv(s: Stream) {
    Control(s) && Data(s)
  }

  lemma InitialInv()
    ensures StreamInv(Established())
  {
  }

  // ------------------------------------------------ every step keeps it

  lemma SendCheckWritesControl(s: Stream)
    requires Control(s) && s.snd.SCheck? && SendCheck(s).snd.SWrite?
    ensures Control(SendCheck(s))
  {
  }

  lemma SendCheckEndsControl(s: Stream)
    requires Control(s) && s.snd.SCheck? && !SendCheck(s).snd.SWrite?
    ensures Control(SendCheck(s))
  {
  }

  lemma SendCheckKeepsControl(s: Stream)
    requires Control(s) && s.snd.SCheck?
    ensures Control(SendCheck(s))
  {
    hide SenderInv, ReceiverInv, ParkInv, SenderWakes, ReceiverWakes, SendCheck;
    if SendCheck(s).snd.SWrite? { SendCheckWritesControl(s); } else { SendCheckEndsControl(s); }
  }

  lemma SendWriteKeepsControl(s: Stream)
    requires Control(s) && s.snd.SWrite?
    ensures Control(SendStep(s))
  {
  }

  lemma SendCommitKeepsControl(s: Stream)
    requires Control(s) && s.snd.SCommit?
    ensures Control(SendStep(s))
  {
  }

  lemma SendNotifyKeepsControl(s: Stream)
    requires Control(s) && s.snd.SNotify?
    ensures Control(SendStep(s))
  {
  }

  lemma SendTestKeepsControl(s: Stream)
    requires Control(s) && s.snd.SPark?
    ensures Control(SendTest(s))
  {
  }

  /** A refreshed cache is all a test of the ring changes. */
  lemma Refreshed(ring: State, n: nat)
    requires Inv(ring)
    ensures var r := Look(ring, n);
            && Inv(r) && r == ring.(seen := r.seen) && ring.seen <= r.seen
            && (Count(ring, n) < n ==> r.seen == ring.committed) && Count(ring, n) == r.seen - r.read
  {
  }

  lemma RecvCheckParksControl(s: Stream)
    requires Control(s) && s.rcv.RCheck? && RecvCheck(s).rcv.RPark?
    ensures Control(RecvCheck(s))
  {
    Refreshed(s.ring, s.rcv.left);
    var t := RecvCheck(s);
    assert Inv(t.ring) && ReceiverInv(t.ring, t.rcv, t.rPhase);
  }

  lemma RecvCheckTakesControl(s: Stream)
    requires Control(s) && s.rcv.RCheck? && RecvCheck(s).rcv.RTake?
    ensures Control(RecvCheck(s))
  {
    Refreshed(s.ring, s.rcv.left);
    var t := RecvCheck(s);
    assert Inv(t.ring) && ReceiverInv(t.ring, t.rcv, t.rPhase);
  }

  lemma RecvCheckEndsControl(s: Stream)
    requires Control(s) && s.rcv.RCheck? && !RecvCheck(s).rcv.RPark? && !RecvCheck(s).rcv.RTake?
    ensures Control(RecvCheck(s))
  {
    Refreshed(s.ring, s.rcv.left);
    var t := RecvCheck(s);
    assert Inv(t.ring) && ReceiverInv(t.ring, t.rcv, t.rPhase);
  }

  lemma RecvCheckKeepsControl(s: Stream)
    requires Control(s) && s.rcv.RCheck?
    ensures Control(RecvCheck(s))
  {
    hide Control, RecvCheck;
    if RecvCheck(s).rcv.RPark? {
      RecvCheckParksControl(s);
    } else if RecvCheck(s).rcv.RTake? {
      RecvCheckTakesControl(s);
    } else {
      RecvCheckEndsControl(s);
    }
  }

  lemma RecvTakeKeepsControl(s: Stream)
    requires Control(s) && s.rcv.RTake?
    ensures Control(RecvStep(s))
  {
  }

  lemma RecvReleaseKeepsControl(s: Stream)
    requires Control(s) && (s.rcv.RRelease? || s.rcv.RNotify?)
    ensures Control(RecvStep(s))
  {
  }

  lemma RecvTestKeepsControl(s: Stream)
    requires Control(s) && s.rcv.RPark?
    ensures Control(RecvTest(s))
  {
  }

  lemma NoticeToSenderKeepsControl(s: Stream)
    requires Control(s) && Enabled(s, ToSender) && s.toSender[0].Client?
    ensures Control(DeliverToSender(s))
  {
  }

  lemma DiscnctToSenderKeepsControl(s: Stream)
    requires Control(s) && Enabled(s, ToSender) && s.toSender[0].Discnct?
    ensures Control(DeliverToSender(s))
  {
  }

  lemma AckToSenderKeepsControl(s: Stream)
    requires Control(s) && Enabled(s, ToSender) && s.toSender[0].DiscntAck?
    ensures Control(DeliverToSender(s))
  {
  }

  lemma NoticeToReceiverKeepsControl(s: Stream)
    requires Control(s) && Enabled(s, ToReceiver) && s.toReceiver[0].Client?
    ensures Control(DeliverToReceiver(s))
  {
  }

  lemma DiscnctToReceiverKeepsControl(s: Stream)
    requires Control(s) && Enabled(s, ToReceiver) && s.toReceiver[0].Discnct?
    ensures Control(DeliverToReceiver(s))
  {
  }

  lemma AckToReceiverKeepsControl(s: Stream)
    requires Control(s) && Enabled(s, ToReceiver) && s.toReceiver[0].DiscntAck?
    ensures Control(DeliverToReceiver(s))
  {
  }

  lemma NextKeepsControl(s: Stream, op: Move)
    requires Control(s) && Enabled(s, op)
    ensures Control(Next(s, op))
  {
    match op
    case SenderRuns =>
      match s.snd {
        case SCheck(_, _, _) => SendCheckKeepsControl(s);
        case SWrite(_, _, _, _) => SendWriteKeepsControl(s);
        case SCommit(_, _, _, _) => SendCommitKeepsControl(s);
        case SNotify(_, _, _, _) => SendNotifyKeepsControl(s);
        case SPark(_, _, _) => SendTestKeepsControl(s);
        case _ =>
      }
    case ReceiverRuns =>
      match s.rcv {
        case RCheck(_, _, _) => RecvCheckKeepsControl(s);
        case RTake(_, _, _, _) => RecvTakeKeepsControl(s);
        case RRelease(_, _, _) => RecvReleaseKeepsControl(s);
        case RNotify(_, _, _) => RecvReleaseKeepsControl(s);
        case RPark(_, _, _) => RecvTestKeepsControl(s);
        case _ =>
      }
    case ToSender =>
      match s.toSender[0] {
        case Client => NoticeToSenderKeepsControl(s);
        case Discnct => DiscnctToSenderKeepsControl(s);
        case DiscntAck => AckToSenderKeepsControl(s);
      }
    case ToReceiver =>
      match s.toReceiver[0] {
        case Client => NoticeToReceiverKeepsControl(s);
        case Discnct => DiscnctToReceiverKeepsControl(s);
        case DiscntAck => AckToReceiverKeepsControl(s);
      }
    case FlushSender => FlushKeepsControl(s, op);
    case FlushSenderEnds => FlushKeepsControl(s, op);
    case FlushReceiver => FlushKeepsControl(s, op);
    case FlushReceiverEnds => FlushKeepsControl(s, op);
    case _ => CallKeepsControl(s, op);
  }

  lemma CallKeepsControl(s: Stream, op: Move)
    requires Control(s) && Enabled(s, op)
    requires op.SendCall? || op.SendInterrupted? || op.RecvCall? || op.RecvInterrupted?
    ensures Control(Next(s, op))
  {
  }

  lemma FlushBeginKeepsControl(s: Stream, op: Move)
    requires Control(s) && Enabled(s, op) && (op.FlushSender? || op.FlushReceiver?)
    ensures Control(Next(s, op))
  {
  }

  lemma FlushEndKeepsControl(s: Stream, op: Move)
    requires Control(s) && Enabled(s, op) && (op.FlushSenderEnds? || op.FlushReceiverEnds?)
    ensures Control(Next(s, op))
  {
  }

  lemma FlushKeepsControl(s: Stream, op: Move)
    requires Control(s) && Enabled(s, op)
    requires op.FlushSender? || op.FlushSenderEnds? || op.FlushReceiver? || op.FlushReceiverEnds?
    ensures Control(Next(s, op))
  {
    hide Control, Next;
    if op.FlushSender? || op.FlushReceiver? { FlushBeginKeepsControl(s, op); } else { FlushEndKeepsControl(s, op); }
  }

  lemma SameData(s: Stream, t: Stream)
    requires Control(s) && Data(s) && SenderOk(t.snd)
    requires t.ring.written == s.ring.written && t.ring.committed == s.ring.committed && t.ring.read == s.ring.read
    requires InCall(t.snd) == InCall(s.snd) && Unpublished(t.snd) == Unpublished(s.snd)
    requires t.sent == s.sent && t.received == s.received
    ensures Data(t)
  {
  }

  lemma SendReturnKeepsData(s: Stream)
    requires StreamInv(s) && (s.snd.SCheck? || s.snd.SPark? || s.snd.SAsleep?)
    ensures Data(SendReturn(s))
  {
    assert SendReturn(s).sent + [] == SendReturn(s).sent;
  }

  lemma SendWriteKeepsData(s: Stream)
    requires StreamInv(s) && s.snd.SWrite?
    ensures SenderOk(SendStep(s).snd) && Data(SendStep(s))
  {
  }

  /** What was written and not published is published now. */
  lemma Published(written: seq<Byte>, committed: nat, sent: seq<Byte>, msg: seq<Byte>, k: nat, n: nat)
    requires k + n <= |msg| && SentInv(written, committed, sent + msg[..k], msg[k..k + n])
    ensures SentInv(written, |written|, sent + msg[..k + n], [])
  {
    assert msg[..k + n] == msg[..k] + msg[k..k + n];
    assert written == written[..committed] + written[committed..];
  }

  lemma SendCommitKeepsData(s: Stream)
    requires StreamInv(s) && s.snd.SCommit?
    ensures SenderOk(SendStep(s).snd) && Data(SendStep(s))
  {
    hide SentInv, SenderInv, ReceiverInv, ParkInv, SenderWakes, ReceiverWakes;
    Published(s.ring.written, s.ring.committed, s.sent, s.snd.msg, s.snd.k, s.snd.n);
  }

  lemma SenderKeepsData(s: Stream)
    requires StreamInv(s)
    ensures SenderOk(SendStep(s).snd) && Data(SendStep(s))
  {
    match s.snd
    case SCheck(_, _, _) => SendCheckKeepsData(s);
    case SWrite(_, _, _, _) => SendWriteKeepsData(s);
    case SCommit(_, _, _, _) => SendCommitKeepsData(s);
    case _ => SameData(s, SendStep(s));
  }

  lemma ReceiverKeepsData(s: Stream)
    requires StreamInv(s)
    ensures Data(RecvStep(s))
  {
    if s.rcv.RTake? {
      RecvTakeKeepsData(s);
    } else {
      SameData(s, RecvStep(s));
    }
  }

  lemma DeliveryKeepsData(s: Stream, op: Move)
    requires StreamInv(s) && Enabled(s, op) && (op.ToSender? || op.ToReceiver?)
    ensures SenderOk(Next(s, op).snd) && Data(Next(s, op))
  {
    SameData(s, Next(s, op));
  }

  lemma SendCheckKeepsData(s: Stream)
    requires StreamInv(s) && s.snd.SCheck?
    ensures SenderOk(SendCheck(s).snd) && Data(SendCheck(s))
  {
    if SendCheck(s).snd.SIdle? {
      SendReturnKeepsData(s);
    } else {
      SameData(s, SendCheck(s));
    }
  }

  /** What was read comes after what was received before. */
  lemma ReadOn(written: seq<Byte>, read: nat, received: seq<Byte>, n: nat)
    requires ReceivedInv(written, read, received) && read + n <= |written|
    ensures ReceivedInv(written, read + n, received + written[read..read + n])
  {
  }

  lemma RecvTakeKeepsData(s: Stream)
    requires StreamInv(s) && s.rcv.RTake?
    ensures Data(RecvStep(s))
  {
    hide SentInv, ReceivedInv, SenderInv, ParkInv, SenderWakes, ReceiverWakes;
    ReadOn(s.ring.written, s.ring.read, s.received, s.rcv.n);
  }

  lemma NextKeepsData(s: Stream, op: Move)
    requires StreamInv(s) && Enabled(s, op)
    ensures SenderOk(Next(s, op).snd) && Data(Next(s, op))
  {
    match op
    case SendInterrupted => SendReturnKeepsData(s);
    case SenderRuns => SenderKeepsData(s);
    case ReceiverRuns => ReceiverKeepsData(s);
    case ToSender => DeliveryKeepsData(s, op);
    case ToReceiver => DeliveryKeepsData(s, op);
    case _ => SameData(s, Next(s, op));
  }

  lemma NextKeepsInv(s: Stream, op: Move)
    requires StreamInv(s) && Enabled(s, op)
    ensures StreamInv(Next(s, op))
  {
    NextKeepsControl(s, op);
    NextKeepsData(s, op);
  }

  // ------------------------------------------------ every run

  /** The state after a run; an operation that cannot happen is skipped. */
  ghost function After(ops: seq<Move>): (s: Stream)
    ensures StreamInv(s)
  {
    if ops == [] then InitialInv(); Established()
    else
      var s, op := After(ops[..|ops| - 1]), ops[|ops| - 1];
      if Enabled(s, op) then NextKeepsInv(s, op); Next(s, op) else s
  }

  /** What the receive calls returned, then what is in the ring, is what the send calls published, in order. */
  lemma ReceivedThenRingIsSent(ops: seq<Move>)
    ensures var s := After(ops);
            s.received + s.ring.written[s.ring.read..s.ring.committed] == s.sent + InCall(s.snd)
  {
    var s := After(ops);
    hide After;
    RingIsBetween(s);
  }

  lemma RingIsBetween(s: Stream)
    requires StreamInv(s)
    ensures s.received + s.ring.written[s.ring.read..s.ring.committed] == s.sent + InCall(s.snd)
  {
    hide SenderInv, ReceiverInv, ParkInv, SenderWakes, ReceiverWakes, InCall, Unpublished;
    assert s.ring.written[..s.ring.committed]
        == s.ring.written[..s.ring.read] + s.ring.written[s.ring.read..s.ring.committed];
  }

  /** A sender and a receiver never both wait for a condition that is false. */
  lemma NoMutualBlocking(ops: seq<Move>)
    ensures var s := After(ops);
            (s.snd.SPark? || s.snd.SAsleep?) && (s.rcv.RPark? || s.rcv.RAsleep?) ==> SendReady(s) || RecvReady(s)
  {
    var s := After(ops);
    assert ParkInv(s);
  }

  /** Whoever sleeps although its condition is true has a wake-up on its way. */
  lemma NoLostWakeUp(ops: seq<Move>)
    ensures var s := After(ops);
            && (s.snd.SAsleep? && SendReady(s) ==> Client in s.toSender || s.rcv.RNotify? || s.sPhase.Acked?)
            && (s.rcv.RAsleep? && RecvReady(s) ==> Client in s.toReceiver || s.snd.SNotify? || s.rPhase.Acked?)
  {
    var s := After(ops);
    assert SenderWakes(s.ring, s.snd, s.sPhase, s.toSender, s.rcv);
  }

  /** When both threads sleep on a connection that stands, a notice that wakes one of them is in flight. */
  lemma NeverBothAsleepForGood(ops: seq<Move>)
    ensures var s := After(ops);
            s.snd.SAsleep? && s.rcv.RAsleep? && Connected(s.sPhase) && Connected(s.rPhase) ==>
              Client in s.toSender || Client in s.toReceiver
  {
    NoMutualBlocking(ops);
    NoLostWakeUp(ops);
  }

  // ------------------------------------------------ when a call returns

  /**
   A send call with bytes left returns exactly if the endpoint is not connected, or the ring is full
   and the call may not block; it waits exactly if the ring is full and it may.
   */
  lemma SendReturnsIff(s: Stream)
    requires Control(s) && s.snd.SCheck? && s.snd.k < |s.snd.msg|
    ensures var t := SendStep(s);
            var full := |s.ring.written| - s.ring.released == s.ring.size - 1;
            && (t.snd.SIdle? <==> !Connected(s.sPhase) || (full && !s.snd.block))
            && (t.snd.SPark? <==> Connected(s.sPhase) && full && s.snd.block)
            && (t.snd.SIdle? ==> t.sent == s.sent + s.snd.msg[..s.snd.k])
            && (!t.snd.SIdle? && !t.snd.SPark? ==> t.snd.SWrite? && t.snd.k == s.snd.k && 0 < t.snd.n)
  {
  }

  /**
   A receive call with bytes wanted returns exactly if all that was published has been read and it may
   not wait for more, and reports a reset exactly if it is disconnected and has nothing to return.
   */
  lemma RecvReturnsIff(s: Stream)
    requires Control(s) && s.rcv.RCheck? && s.rcv.left > 0
    ensures var t := RecvStep(s);
            var empty := s.ring.read == s.ring.committed;
            && (t.rcv.RIdle? <==> empty && !(Connected(s.rPhase) && s.rcv.block))
            && (t.rcv.RPark? <==> empty && Connected(s.rPhase) && s.rcv.block)
            && (t.reset <==> s.reset || (empty && !Connected(s.rPhase) && s.rcv.left == s.rcv.len))
            && (!empty ==> t.rcv.RTake? && 0 < t.rcv.n <= s.rcv.left)
  {
  }
}
