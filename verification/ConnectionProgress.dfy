/**
 No call hangs: while one is under way, somebody can take the next step, unless all that
 is missing is an accept call for a request that is queued.
 */
module ConnectionProgress {
  import opened ConnectionSpec
  import opened ConnectionInv
  import opened ConnectionSteps
  import opened ConnectionTheorems

  /** The step goes on with a call or handles a message; nobody has to call anything. */
  predicate Ongoing(op: Step) {
    !(op.Open? || op.Bind? || op.ListenBegin? || op.ConnectBegin? || op.ConnectInterrupt? || op.AcceptBegin?
      || op.FlushBegin? || op.CloseBegin?)
  }

  ghost predicate Moves(w: World, op: Step) {
    Ongoing(op) && Enabled(w, op)
  }

  ghost predicate CanMove(w: World) {
    exists op :: Moves(w, op)
  }

  /** A call of the endpoint, or a flush, has not returned. */
  predicate Busy(x: Endpoint) {
    !(x.call.Idle? || x.call.Gone?) || x.looks > 0 || x.flushing
  }

  /** The endpoint's request is queued, and any accept call on that listener would take one off the queue at once. */
  ghost predicate AwaitsAccept(w: World, e: Ep) {
    && At(w, e).token.Queued? && At(w, e).token.req in At(w, At(w, e).token.listener).conlist
    && forall c: Ep :: c.node == At(w, e).token.listener.node && c !in w.eps ==>
         Enabled(w, AcceptBegin(At(w, e).token.listener, c))
  }

  // ------------------------------------------------ messages

  /** The oldest of all messages is the oldest of its queue. */
  lemma {:induction false} OldestMessage(w: World, s: nat) returns (t: nat)
    requires s in w.wire
    ensures Deliverable(w, t)
    decreases s
  {
    if Deliverable(w, s) {
      t := s;
    } else {
      var u :| u in w.wire && SameQueue(w.wire[u], w.wire[s]) && u < s;
      t := OldestMessage(w, u);
    }
  }

  lemma HandlerMoves(w: World, s: nat)
    requires s in w.wire && Deliverable(w, s) && !w.wire[s].Req? && !w.wire[s].Term?
    ensures CanMove(w)
  {
    hide Deliverable;
    var op :=
      match w.wire[s]
      case Gnt(_, _, _, _) => OnGnt(s)
      case GntAck(_, _) => OnGntAck(s)
      case GntNack(_, _) => OnGntNack(s)
      case Rej(_, _, _) => OnRej(s)
      case TermAck(_, _, _) => OnTermAck(s)
      case Discnct(_, _) => OnDiscnct(s)
      case _ => OnDiscntAck(s);
    assert Moves(w, op);
  }

  /** A message in flight means that some message can be handled. */
  lemma MessageMoves(w: World, s: nat)
    requires s in w.wire
    ensures CanMove(w)
  {
    var t := OldestMessage(w, s);
    assert t in w.wire;
    hide Deliverable;
    if w.wire[t].Req? {
      assert Moves(w, OnReq(t, NOWHERE, false));
    } else if w.wire[t].Term? {
      if exists l :: l in w.listen && OnListen(w, l, w.wire[t].dst) {
        var l :| l in w.listen && OnListen(w, l, w.wire[t].dst);
        assert Moves(w, OnTerm(t, l, true));
      } else {
        assert Moves(w, OnTerm(t, NOWHERE, false));
      }
    } else {
      HandlerMoves(w, t);
    }
  }

  // ------------------------------------------------ calls

  /** A listener, or one that is being closed. */
  predicate Serving(x: Endpoint) {
    || x.call == CloseLook(FromListening) || x.call.CloseReject?
    || ((x.state.Listening? || x.state.ClListen?) && (x.call.Idle? || x.call.ListenAdd?))
  }

  /** What a call that waits is waiting for, or else it can go on. */
  lemma WaitingShape(x: Endpoint, l: nat, c: nat, d: nat, z: nat)
    requires Shape(x, l, c, d, z)
    ensures (x.call.ConnectWait? || x.call.ConnectTerm?) && x.state.Connecting? ==> !x.token.NoToken?
    ensures x.call.AcceptWait? && x.state.Connecting? ==> Linking(x)
    ensures x.call.CloseWait? && !x.state.Disconnected? ==> !x.farewell.NoFarewell?
    ensures x.flushing && !x.state.Disconnected? ==> !x.farewell.NoFarewell?
    ensures x.state.Mapping? ==> x.call.ConnectWait? || x.call.ConnectTerm?
    ensures x.conlist != [] ==> Serving(x)
  {
  }

  lemma Waiting(w: World, e: Ep)
    requires Inv(w)
    ensures var x := At(w, e);
            && ((x.call.ConnectWait? || x.call.ConnectTerm?) && x.state.Connecting? ==> !x.token.NoToken?)
            && (x.call.AcceptWait? && x.state.Connecting? ==> Linking(x))
            && (x.call.CloseWait? && !x.state.Disconnected? ==> !x.farewell.NoFarewell?)
            && (x.flushing && !x.state.Disconnected? ==> !x.farewell.NoFarewell?)
            && (x.state.Mapping? ==> x.call.ConnectWait? || x.call.ConnectTerm?)
            && (x.conlist != [] ==> Serving(x))
  {
    hide Shape;
    assert ShapeAt(w, e);
    WaitingShape(At(w, e), w.listen[e], w.connected[e], w.disconnected[e], w.zombie[e]);
  }

  /** A call that waits for nobody goes on by itself. */
  lemma OwnStepMoves(w: World, e: Ep)
    requires var x := At(w, e);
             || x.call.ListenAdd? || x.call.ConnectPrep? || x.call.AcceptTake? || x.call.CloseLook?
             || x.call.CloseReject? || x.call.CloseDone? || x.looks > 0 || (x.flushing && x.state.Disconnected?)
             || ((x.call.ConnectWait? || x.call.ConnectTerm? || x.call.AcceptWait?) && !x.state.Connecting?)
             || (x.call.CloseWait? && x.state.Disconnected?)
    ensures CanMove(w)
  {
    hide At;
    var x := At(w, e);
    var op :=
      if x.looks > 0 then FlushLookup(e)
      else if x.flushing && x.state.Disconnected? then FlushEnd(e)
      else
        match x.call
        case ListenAdd => ListenEnd(e)
        case ConnectPrep(_) => ConnectSend(e)
        case AcceptTake(_) => AcceptGrant(e)
        case AcceptWait => AcceptFinish(e)
        case CloseLook(_) => CloseLookup(e)
        case CloseReject => CloseRejectOne(e)
        case CloseWait => CloseAcked(e)
        case CloseDone => CloseFinish(e)
        case _ => ConnectFinish(e, true);
    assert Moves(w, op);
  }

  /** A request or the reply to it: in flight, held by an accept call, or queued. */
  lemma TokenMoves(w: World, e: Ep)
    requires Inv(w) && !At(w, e).token.NoToken?
    ensures CanMove(w) || AwaitsAccept(w, e)
  {
    assert TokenAt(w, e);
    match At(w, e).token
    case OnWire(s) => MessageMoves(w, s);
    case Held(c) => OwnStepMoves(w, c);
    case Queued(l, r) =>
      Waiting(w, l);
      hide Inv, CanMove;
      if !(At(w, l).call.Idle?) { OwnStepMoves(w, l); }
  }

  /** A grant or the answer to it: in flight, or about to be answered. */
  lemma LinkMoves(w: World, c: Ep)
    requires Inv(w) && Linking(At(w, c))
    ensures CanMove(w)
  {
    assert GrantAt(w, c);
    match At(w, c).link
    case GrantSent(s) => MessageMoves(w, s);
    case AckSent(s) => MessageMoves(w, s);
    case NackSent(s) => MessageMoves(w, s);
    case Granted =>
      Waiting(w, At(w, c).remoteEp);
      OwnStepMoves(w, At(w, c).remoteEp);
  }

  lemma FarewellMoves(w: World, e: Ep)
    requires Inv(w) && !At(w, e).farewell.NoFarewell?
    ensures CanMove(w)
  {
    assert FarewellAt(w, e);
    MessageMoves(w, At(w, e).farewell.serial);
  }

  lemma BusyMoves(w: World, e: Ep)
    requires Inv(w) && Busy(At(w, e))
    ensures CanMove(w) || AwaitsAccept(w, e)
  {
    Waiting(w, e);
    hide Inv, CanMove, AwaitsAccept;
    var x := At(w, e);
    if !x.farewell.NoFarewell? {
      FarewellMoves(w, e);
    } else if !x.token.NoToken? {
      TokenMoves(w, e);
    } else if Linking(x) {
      LinkMoves(w, e);
    } else {
      OwnStepMoves(w, e);
    }
  }

  /**
   In every run: as long as a call or a flush is under way, some call can go on or some message can
   be handled, unless the call is a connect whose request is queued where nobody accepts.
   */
  lemma NobodyHangs(ops: seq<Step>, e: Ep)
    requires FoundOwn(ops) && Busy(At(Run(ops), e))
    ensures CanMove(Run(ops)) || AwaitsAccept(Run(ops), e)
  {
    hide Inv, Run, CanMove, AwaitsAccept;
    RunKeepsInv(ops);
    BusyMoves(Run(ops), e);
  }
}
