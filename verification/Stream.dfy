/**
 Sending and receiving on a connection, while the peer runs on the other end of the ring
 and a disconnect may be handled whenever the endpoint's lock is free.
 */
module Stream {
  import opened RingSpec
  import opened Ring
  import opened Peers

  const ECONNRESET := 104
  const ENOTCONN := 107
  const ERESTARTSYS := 512

  /** SCIFEP_CONNECTED, SCIFEP_DISCONNECTED, and every other endpoint state. */
  datatype EndState = Connected | Disconnected | Unconnected

  class Endpoint {
    var state: EndState

    constructor (state: EndState)
      ensures this.state == state
    {
      this.state := state;
    }
  }

  /** What a call for `len` bytes that stopped after `done` of them returns. */
  function Result(state: EndState, block: bool, len: nat, done: nat): int {
    if done == len || done > 0 then done
    else match state
      case Disconnected => -ECONNRESET
      case Unconnected => -ENOTCONN
      case Connected => if block then -ERESTARTSYS else 0
  }

  /** A connected endpoint may be disconnected; no other change happens under a call. */
  ghost predicate StateMoved(before: EndState, after: EndState) {
    after == before || (before.Connected? && after.Disconnected?)
  }

  function Min(a: nat, b: nat): nat {
    if a < b then a else b
  }

  lemma QueueInv(q: RingBuffer)
    requires q.Valid()
    ensures Inv(q.st) && q.st.size == q.size
  {
  }

  // ------------------------------------------------ _scif_send

  /** What a sender may find after waiting. */
  ghost predicate SenderSees(s: State, e: State) {
    && e.size == s.size && e.written == s.written && e.committed == s.committed
    && s.read <= e.read && s.released <= e.released
  }

  /** wait_event_interruptible on sendwq: 0 once there is space or no connection, else interrupted. */
  method SendWait(ep: Endpoint, q: RingBuffer, need: nat) returns (err: int)
    requires q.Valid()
    modifies ep, q
    ensures q.Valid() && SenderSees(old(q.st), q.st) && StateMoved(old(ep.state), ep.state)
    ensures err == 0 || (err == -ERESTARTSYS && ep.state.Connected?)
    ensures err == 0 && ep.state.Connected? ==> Space(q.st) >= need
    ensures err != 0 ==> Space(q.st) < need
  {
    ReaderRuns(q);
    if ep.state.Connected? {
      if * {
        ep.state := Disconnected;
      } else {
        var space := q.Space();
        if space < need {
          return -ERESTARTSYS;
        }
      }
    }
    err := 0;
  }

  /** One round of the loop when there is space: what was sampled still fits when it is written. */
  method SendChunk(q: RingBuffer, chunk: seq<Byte>)
    requires q.Valid() && q.st.committed == |q.st.written| && |chunk| <= Space(q.st)
    modifies q, q.base
    ensures q.Valid() && q.st.committed == |q.st.written| && q.st.size == old(q.st.size)
    ensures q.st.written == old(q.st.written) + chunk
    ensures old(q.st.read) <= q.st.read && old(q.st.released) <= q.st.released
  {
    ReaderRuns(q);
    var ret := q.Write(chunk);
    assert ret == 0;
    ReaderRuns(q);
    q.Commit();
  }

  /** _scif_send */
  method Send(ep: Endpoint, q: RingBuffer, msg: seq<Byte>, block: bool) returns (ret: int, ghost sent: nat)
    requires q.Valid() && q.size > 1 && q.st.committed == |q.st.written|
    modifies ep, q, q.base
    ensures q.Valid() && StateMoved(old(ep.state), ep.state)
    ensures sent <= |msg| && q.st.written == old(q.st.written) + msg[..sent] && q.st.committed == |q.st.written|
    ensures ret == Result(ep.state, block, |msg|, sent)
    ensures if ret >= 0 then sent == ret else sent == 0 < |msg|
    ensures ret == -ECONNRESET <==> |msg| > 0 && sent == 0 && ep.state.Disconnected?
    ensures ret == -ENOTCONN <==> |msg| > 0 && sent == 0 && ep.state.Unconnected?
    ensures ret == -ERESTARTSYS <==> |msg| > 0 && sent == 0 && ep.state.Connected? && block
    ensures sent < |msg| && ep.state.Connected? && !block ==> Space(q.st) == 0
    ensures sent < |msg| && ep.state.Connected? && block ==> Space(q.st) < Min(|msg| - sent, q.size - 1)
    ensures !old(ep.state).Connected? ==> sent == 0
    ensures old(q.st.read) <= q.st.read
  {
    hide RingBuffer.Valid;
    QueueInv(q);
    ghost var s := q.st;
    sent := 0;
    var sentLen := 0;
    while sentLen != |msg|
      invariant sentLen == sent <= |msg|
      invariant q.Valid() && StateMoved(old(ep.state), ep.state)
      invariant q.st.written == s.written + msg[..sent] && q.st.committed == |q.st.written|
      invariant s.read <= q.st.read
      invariant !old(ep.state).Connected? ==> sent == 0
      decreases |msg| - sentLen, ep.state.Connected? && Space(q.st) == 0
    {
      QueueInv(q);
      if ep.state.Disconnected? {
        return if sentLen > 0 then sentLen else -ECONNRESET, sent;
      }
      if !ep.state.Connected? {
        return if sentLen > 0 then sentLen else -ENOTCONN, sent;
      }
      var writeCount := q.Space();
      if writeCount > 0 {
        var n := Min(|msg| - sentLen, writeCount);
        SendChunk(q, msg[sentLen..sentLen + n]);
        assert msg[..sentLen + n] == msg[..sentLen] + msg[sentLen..sentLen + n];
        sentLen := sentLen + n;
        sent := sentLen;
      } else {
        var n := Min(|msg| - sentLen, q.size - 1);
        if !block {
          return sentLen, sent;
        }
        var err := SendWait(ep, q, n);
        if err != 0 {
          return if sentLen > 0 then sentLen else err, sent;
        }
      }
    }
    ret := |msg|;
  }

  // ------------------------------------------------ _scif_recv

  /** Between `s` and `e` exactly `data` was read, and nothing the writer did took anything back. */
  ghost predicate Took(s: State, e: State, data: seq<Byte>) {
    && s.written <= e.written && e.read == s.read + |data| <= |e.written|
    && data == e.written[s.read..e.read]
  }

  lemma TookMore(s: State, m: State, e: State, data: seq<Byte>, chunk: seq<Byte>)
    requires Took(s, m, data) && Took(m, e, chunk)
    ensures Took(s, e, data + chunk)
  {
    assert m.written[s.read..m.read] == e.written[s.read..m.read];
    assert e.written[s.read..e.read] == e.written[s.read..m.read] + e.written[m.read..e.read];
  }

  ghost predicate ReceiverSees(s: State, e: State) {
    && e.size == s.size && e.read == s.read && e.released == s.released && s.seen <= e.seen
    && s.written <= e.written && s.committed <= e.committed
  }

  /** wait_event_interruptible on recvwq: 0 once there are bytes or no connection, else interrupted. */
  method RecvWait(ep: Endpoint, q: RingBuffer, need: nat) returns (err: int)
    requires q.Valid()
    modifies ep, q, q.base
    ensures q.Valid() && ReceiverSees(old(q.st), q.st) && StateMoved(old(ep.state), ep.state)
    ensures err == 0 || (err == -ERESTARTSYS && ep.state.Connected?)
    ensures err == 0 && ep.state.Connected? ==> q.st.committed - q.st.read >= need
    ensures err != 0 ==> q.st.committed - q.st.read < need
    ensures Took(old(q.st), q.st, [])
  {
    WriterRuns(q);
    if ep.state.Connected? {
      if * {
        ep.state := Disconnected;
      } else {
        var count := q.Count(need);
        if count < need {
          return -ERESTARTSYS;
        }
      }
    }
    err := 0;
  }

  /** One round of the loop when there are bytes; they are released only while connected. */
  method RecvChunk(ep: Endpoint, q: RingBuffer, n: nat) returns (chunk: seq<Byte>)
    requires q.Valid() && q.st.read + n <= q.st.seen
    modifies q, q.base
    ensures q.Valid() && q.st.size == old(q.st.size)
    ensures Took(old(q.st), q.st, chunk) && |chunk| == n
    ensures q.st.released == if ep.state.Connected? then q.st.read else old(q.st.released)
    ensures old(q.st.committed) <= q.st.committed
  {
    hide RingBuffer.Valid;
    QueueInv(q);
    WriterRuns(q);
    var readSize;
    chunk, readSize := q.GetNext(n);
    assert readSize == n;
    if ep.state.Connected? {
      q.UpdateReadPtr();
    }
    WriterRuns(q);
  }

  /** _scif_recv */
  method Recv(ep: Endpoint, q: RingBuffer, len: nat, block: bool) returns (ret: int, data: seq<Byte>)
    requires q.Valid() && q.size > 1
    modifies ep, q, q.base
    ensures q.Valid() && StateMoved(old(ep.state), ep.state)
    ensures |data| <= len && Took(old(q.st), q.st, data)
    ensures ret == Result(ep.state, block, len, |data|)
    ensures q.st.read == old(q.st.read) + if ret >= 0 then ret else 0
    ensures ret == -ECONNRESET <==> len > 0 && data == [] && ep.state.Disconnected?
    ensures ret == -ENOTCONN <==> len > 0 && data == [] && ep.state.Unconnected?
    ensures ret == -ERESTARTSYS <==> len > 0 && data == [] && ep.state.Connected? && block
    ensures |data| < len && ep.state.Connected? && block ==>
              q.st.committed - q.st.read < Min(len - |data|, q.size - 1)
    ensures |data| < len && (ep.state.Disconnected? || (ep.state.Connected? && !block)) ==> q.st.read == q.st.committed
    ensures !old(ep.state).Connected? ==> q.st.released == old(q.st.released)
    ensures ep.state.Connected? && old(q.st.released == q.st.read) ==> q.st.released == q.st.read
    ensures old(ep.state).Unconnected? ==> data == []
  {
    hide RingBuffer.Valid;
    QueueInv(q);
    ghost var s := q.st;
    var remaining: nat := len;
    data := [];
    while remaining > 0
      invariant remaining + |data| == len
      invariant q.Valid() && StateMoved(old(ep.state), ep.state)
      invariant Took(s, q.st, data)
      invariant !old(ep.state).Connected? ==> q.st.released == s.released
      invariant ep.state.Connected? && s.released == s.read ==> q.st.released == q.st.read
      invariant old(ep.state).Unconnected? ==> data == []
      decreases remaining, ep.state.Connected? && q.st.read == q.st.committed
    {
      QueueInv(q);
      ghost var m := q.st;
      hide Took, RingSpec.Inv;
      if ep.state.Unconnected? {
        return if |data| > 0 then |data| else -ENOTCONN, data;
      }
      var readCount := q.Count(remaining);
      if readCount > 0 {
        var n := Min(remaining, readCount);
        var chunk := RecvChunk(ep, q, n);
        TookMore(s, m, q.st, data, chunk);
        data := data + chunk;
        remaining := remaining - n;
      } else {
        var n := Min(remaining, q.size - 1);
        if ep.state.Disconnected? {
          return if |data| > 0 then |data| else -ECONNRESET, data;
        }
        if !block {
          return |data|, data;
        }
        var err := RecvWait(ep, q, n);
        TookMore(s, m, q.st, data, []);
        if err != 0 {
          return if |data| > 0 then |data| else err, data;
        }
      }
    }
    ret := len;
  }
}
