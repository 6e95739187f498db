/**
 What a call or a handler achieves when it takes its turn in a world that the invariant
 holds of; none of this can be read off the step alone.
 */
module ConnectionResults {
  import opened ConnectionSpec
  import opened ConnectionInv
  import opened ConnectionTokens
  import opened ConnectionGrants
  import opened ConnectionFarewells
  import opened ConnectionSteps
  import opened ConnectionAim
  import opened ConnectionTheorems

  // ------------------------------------------------ requests and replies

  /** The endpoint has no request or reply anywhere. */
  ghost predicate Settled(w: World, e: Ep) {
    forall p :: !FoundAt(w, e, p)
  }

  lemma SettledEndpoint(w: World, e: Ep)
    requires Inv(w) && At(w, e).token.NoToken?
    ensures Settled(w, e)
  {
    hide Inv, FoundAt;
    forall p ensures !FoundAt(w, e, p) {
      if FoundAt(w, e, p) { FoundWhereSaid(w, e, p); }
    }
  }

  /** The endpoint's request is the message just sent, and nowhere else. */
  ghost predicate JustSent(w: World, e: Ep, s: nat) {
    forall p :: FoundAt(w, e, p) <==> p == Message(s)
  }

  lemma RequestIsOut(w: World, e: Ep)
    requires Inv(w) && Enabled(w, ConnectSend(e))
    ensures var v := ConnectSendNext(w, e); Next(w, ConnectSend(e)) == v && Inv(v) && JustSent(v, e, w.next)
  {
    hide Inv, Single;
    NextKeepsInv(w, ConnectSend(e));
    var v := ConnectSendNext(w, e);
    InvSingle(v, e);
    OnlyPlace(v, e, Message(w.next));
  }

  lemma OnlyPlace(w: World, e: Ep, q: Place)
    requires Single(w, e) && FoundAt(w, e, q)
    ensures forall p :: FoundAt(w, e, p) <==> p == q
  {
    hide FoundAt;
  }

  /** A connect call that is interrupted still has one thing to wait for, if it has to wait. */
  lemma TerminationWaits(w: World, e: Ep)
    requires Inv(w) && Enabled(w, ConnectInterrupt(e))
    ensures var v := ConnectInterruptNext(w, e);
            Next(w, ConnectInterrupt(e)) == v && Inv(v) && Single(v, e) && Expects(v, e)
  {
    hide Inv, Single, Expects;
    NextKeepsInv(w, ConnectInterrupt(e));
    InvSingle(ConnectInterruptNext(w, e), e);
    InvExpects(ConnectInterruptNext(w, e), e);
  }

  /** The endpoint is on mi_listen of its node and has that port. */
  ghost predicate ListensOn(w: World, l: Ep, d: PortId) {
    w.listen[l] > 0 && PortId(l.node, At(w, l).port) == d
  }

  predicate HasRoom(w: World, l: Ep) {
    |At(w, l).conlist| < At(w, l).backlog
  }

  /** Request `s` is the last in the queue of `l`, nothing else is queued or taken out, and nothing is sent. */
  ghost predicate Admitted(w: World, v: World, s: nat, l: Ep)
    requires s in w.wire && w.wire[s].Req?
  {
    && (forall z :: z != l ==> At(v, z).conlist == At(w, z).conlist) && v.wire == w.wire - {s}
    && |At(v, l).conlist| == |At(w, l).conlist| + 1 && At(w, l).conlist <= At(v, l).conlist
    && var r := At(v, l).conlist[|At(w, l).conlist|];
       r.from == w.wire[s].from && r.src == w.wire[s].src && r.id == s
  }

  /** No queue changes, and the sender of request `s` is sent a rejection of it. */
  ghost predicate TurnedAway(w: World, v: World, s: nat)
    requires s in w.wire && w.wire[s].Req?
  {
    && (forall z :: At(v, z).conlist == At(w, z).conlist)
    && v.wire == (w.wire - {s})[w.next := Rej(w.wire[s].from, w.wire[s].dst.node, s)]
  }

  /** A request is queued only where its port listens and there is room; else it is rejected. */
  lemma RequestGoesToItsPort(w: World, s: nat, l: Ep, queued: bool)
    requires Inv(w) && Enabled(w, OnReq(s, l, queued))
    ensures var v := OnReqNext(w, s, l, queued);
            && (queued ==> ListensOn(w, l, w.wire[s].dst))
            && if queued && HasRoom(w, l) then Admitted(w, v, s, l) else TurnedAway(w, v, s)
  {
    RequestOwner(w, s);
    ShapeOf(w, l);
    RolesOf(w, l);
    hide Inv, Shape;
    if queued && HasRoom(w, l) {
      AdmittedAt(w, s, l);
    }
  }

  lemma AdmittedAt(w: World, s: nat, l: Ep)
    requires s in w.wire && w.wire[s].Req? && w.wire[s].from != l && At(w, l).conreqcnt < At(w, l).backlog
    ensures Admitted(w, OnReqNext(w, s, l, true), s, l)
  {
  }

  lemma RequestIsServed(w: World, s: nat, l: Ep, queued: bool)
    requires Inv(w) && Enabled(w, OnReq(s, l, queued))
    ensures var v := OnReqNext(w, s, l, queued);
            Next(w, OnReq(s, l, queued)) == v && Inv(v) && Served(v, w.wire[s].from)
  {
    hide Inv, Served;
    NextKeepsInv(w, OnReq(s, l, queued));
    InvServed(OnReqNext(w, s, l, queued), w.wire[s].from);
  }

  /** A reject, or an acknowledged termination, ends the call it was sent to: nothing of it is left. */
  lemma RejectEnds(w: World, s: nat)
    requires Inv(w) && Enabled(w, OnRej(s))
    ensures var v := OnRejNext(w, s);
            Next(w, OnRej(s)) == v && Inv(v) && At(v, w.wire[s].to).state.Bound? && Settled(v, w.wire[s].to)
  {
    hide Inv, Settled;
    NextKeepsInv(w, OnRej(s));
    InvTimely(w, s);
    SettledEndpoint(OnRejNext(w, s), w.wire[s].to);
  }

  lemma TermAckEnds(w: World, s: nat)
    requires Inv(w) && Enabled(w, OnTermAck(s))
    ensures var v := OnTermAckNext(w, s);
            Next(w, OnTermAck(s)) == v && Inv(v) && At(v, w.wire[s].to).state.Bound? && Settled(v, w.wire[s].to)
  {
    hide Inv, Settled;
    NextKeepsInv(w, OnTermAck(s));
    InvTimely(w, s);
    SettledEndpoint(OnTermAckNext(w, s), w.wire[s].to);
  }

  /**
   An interrupted call whose request still waits in the queue of the one endpoint that listens on
   its port: the termination takes that very request out, and is acknowledged.
   */
  lemma TerminationTakesItsRequest(w: World, s: nat, l: Ep, found: bool)
    requires Inv(w) && AimInv(w) && Enabled(w, OnTerm(s, l, found)) && Sure(w, OnTerm(s, l, found))
    requires At(w, w.wire[s].from).attempt == w.wire[s].id && At(w, w.wire[s].from).token.Queued?
    requires var k := At(w, w.wire[s].from).token.listener;
             k in w.listen && forall z :: ListensOn(w, z, w.wire[s].dst) ==> z == k
    ensures var p, v := w.wire[s], OnTermNext(w, s, l, found);
            && At(v, p.from).token == OnWire(w.next)
            && v.wire == (w.wire - {s})[w.next := TermAck(p.from, p.dst.node, p.id)]
            && forall r :: r in At(v, l).conlist ==> r.from != p.from
  {
    var e := w.wire[s].from;
    TerminationFinds(w, s, l, found);
    var i := FindRequest(At(w, l).conlist, e.addr);
    RolesOf(w, l);
    ShapeOf(w, l);
    QueueOwners(w, l);
    hide Inv, Shape, AimInv;
    forall r | r in Unqueued(At(w, l), i).conlist ensures r.from != e {
      UnqueuedMembers(At(w, l), i);
    }
  }

  lemma TerminationFinds(w: World, s: nat, l: Ep, found: bool)
    requires Inv(w) && AimInv(w) && Enabled(w, OnTerm(s, l, found)) && Sure(w, OnTerm(s, l, found))
    requires At(w, w.wire[s].from).attempt == w.wire[s].id && At(w, w.wire[s].from).token.Queued?
    requires var k := At(w, w.wire[s].from).token.listener;
             k in w.listen && forall z :: ListensOn(w, z, w.wire[s].dst) ==> z == k
    ensures var e := w.wire[s].from;
            var i := FindRequest(At(w, l).conlist, e.addr);
            found && l == At(w, e).token.listener && i < |At(w, l).conlist| && At(w, l).conlist[i].from == e && e != l
  {
    var e := w.wire[s].from;
    var k := At(w, e).token.listener;
    Know(w, e);
    Know(w, k);
    assert TokenAt(w, e) && TermPacket(w, s) && RequestsAt(w, k);
    assert DirectedPacket(w, s) && Directed(w, k);
    hide Inv, AimInv, Shape;
    assert ListensOn(w, k, w.wire[s].dst);
    assert OnListen(w, k, w.wire[s].dst);
    assert ListensOn(w, l, w.wire[s].dst);
  }

  // ------------------------------------------------ accepting

  /** The request taken is the oldest of the queue, and its sender waits for this very answer. */
  ghost predicate TakesOldest(w: World, l: Ep)
    requires At(w, l).conlist != []
  {
    var r := At(w, l).conlist[0];
    && (forall q :: q in At(w, l).conlist && q != r ==> r.stamp < q.stamp)
    && At(w, r.from).state.Connecting? && At(w, r.from).attempt == r.id
    && r.src == PortId(r.from.node, At(w, r.from).port)
  }

  /** The first request of the queue has left it for the new endpoint, which has the listener's port. */
  ghost predicate TakenFirst(w: World, v: World, l: Ep, c: Ep)
    requires At(w, l).conlist != []
  {
    var x, y := At(w, l), At(v, c);
    && At(v, l).conlist == x.conlist[1..] && y.call == AcceptTake(x.conlist[0])
    && y.port == x.port && y.peer == x.conlist[0].src && y.remoteEp == x.conlist[0].from
  }

  lemma TakesFirst(w: World, l: Ep, c: Ep)
    requires Inv(w) && Enabled(w, AcceptBegin(l, c))
    ensures TakenFirst(w, AcceptBeginNext(w, l, c), l, c)
  {
    var r := At(w, l).conlist[0];
    Know(w, l);
    Know(w, r.from);
    QueueOwners(w, l);
    hide Inv, Shape;
    AcceptBeginAt(w, l, c);
    hide AcceptBeginNext;
    assert Unqueued(At(w, l), 0).conlist == At(w, l).conlist[1..];
  }

  lemma AcceptTakesOldest(w: World, l: Ep, c: Ep)
    requires Inv(w) && Enabled(w, AcceptBegin(l, c))
    ensures var v := AcceptBeginNext(w, l, c);
            && Next(w, AcceptBegin(l, c)) == v && Inv(v) && TakesOldest(w, l) && TakenFirst(w, v, l, c)
            && Served(v, At(w, l).conlist[0].from)
  {
    hide Inv, TakesOldest, TakenFirst, Served;
    NextKeepsInv(w, AcceptBegin(l, c));
    TakesFirst(w, l, c);
    InvServed(AcceptBeginNext(w, l, c), At(w, l).conlist[0].from);
    OldestFirst(w, l);
  }

  lemma OldestFirst(w: World, l: Ep)
    requires Inv(w) && At(w, l).conlist != []
    ensures TakesOldest(w, l)
  {
    hide Shape, Plays, GrantInv, FarewellInv, ActiveInv;
    var r := At(w, l).conlist[0];
    Know(w, l);
    Know(w, r.from);
    assert RequestsAt(w, l);
  }

  /** The answer an accept call sends reaches the attempt that asked. */
  lemma GrantIsTimely(w: World, c: Ep)
    requires Inv(w) && Enabled(w, AcceptGrant(c))
    ensures var v := AcceptGrantNext(w, c); Next(w, AcceptGrant(c)) == v && Inv(v) && Timely(v, w.next)
  {
    hide Inv, Timely;
    NextKeepsInv(w, AcceptGrant(c));
    InvTimely(AcceptGrantNext(w, c), w.next);
  }

  lemma RejectIsTimely(w: World, c: Ep)
    requires Inv(w) && Enabled(w, AcceptFail(c))
    ensures var v := AcceptFailNext(w, c); Next(w, AcceptFail(c)) == v && Inv(v) && Timely(v, w.next)
  {
    hide Inv, Timely;
    NextKeepsInv(w, AcceptFail(c));
    InvTimely(AcceptFailNext(w, c), w.next);
  }

  // ------------------------------------------------ grants

  /** A grant finds the attempt it answers still CONNECTING, and joins it to the endpoint that was made for it. */
  ghost predicate Joins(w: World, v: World, s: nat)
    requires s in w.wire && w.wire[s].Gnt?
  {
    var e, c := w.wire[s].to, w.wire[s].cep;
    && At(w, e).state.Connecting? && At(w, e).attempt == w.wire[s].id && At(v, e).state.Mapping? && At(v, e).grant == c
    && At(v, c).link.Granted? && At(v, c).remoteEp == e && At(v, e).peer == PortId(c.node, At(v, c).port)
  }

  lemma GrantJoins(w: World, s: nat)
    requires Inv(w) && Enabled(w, OnGnt(s))
    ensures var v := OnGntNext(w, s); Next(w, OnGnt(s)) == v && Inv(v) && Joins(w, v, s)
  {
    NextKeepsInv(w, OnGnt(s));
    InvTimely(w, s);
    GrantPair(w, s);
    hide Inv;
  }

  lemma GrantPair(w: World, s: nat)
    requires Inv(w) && s in w.wire && w.wire[s].Gnt?
    ensures var e, c := w.wire[s].to, w.wire[s].cep;
            e != c && At(w, c).remoteEp == e && w.wire[s].src == PortId(c.node, At(w, c).port)
  {
    hide Shape, FarewellInv, ActiveInv;
    Know(w, w.wire[s].to);
    Know(w, w.wire[s].cep);
    assert GrantPacket(w, s) && RequestPacket(w, s);
  }

  /** An endpoint that is connected, and agrees with its peer. */
  ghost predicate Established(w: World, e: Ep) {
    At(w, e).state.Connected? && w.connected[e] == 1 && Agree(w, e)
  }

  lemma EstablishedEndpoint(w: World, e: Ep)
    requires Inv(w) && At(w, e).state.Connected? && e in w.connected
    ensures Established(w, e)
  {
    hide Inv, Agree;
    ShapeOf(w, e);
    JoinedAgrees(w, e);
  }

  lemma AckEstablishes(w: World, s: nat)
    requires Inv(w) && Enabled(w, OnGntAck(s))
    ensures var v := OnGntAckNext(w, s); Next(w, OnGntAck(s)) == v && Inv(v) && Established(v, w.wire[s].to)
  {
    hide Inv, Established;
    NextKeepsInv(w, OnGntAck(s));
    EstablishedEndpoint(OnGntAckNext(w, s), w.wire[s].to);
  }

  /** The end of a connect call: connected and in agreement, or free to be used again. */
  lemma ConnectEnds(w: World, e: Ep, mapped: bool)
    requires Inv(w) && Enabled(w, ConnectFinish(e, mapped))
    ensures var v := ConnectFinishNext(w, e, mapped);
            && Next(w, ConnectFinish(e, mapped)) == v && Inv(v) && At(v, e).call.Idle? && Settled(v, e)
            && (if At(w, e).state.Mapping? && At(w, e).call.ConnectWait? && mapped then Established(v, e)
                else At(v, e).state.Bound? && v.connected[e] == 0)
            && (AimInv(w) && At(v, e).state.Connected? ==> At(v, e).peer == At(w, e).call.dst)
  {
    if AimInv(w) { MappedAsAsked(w, e, mapped); }
    hide Inv, AimInv, Established, Settled;
    NextKeepsInv(w, ConnectFinish(e, mapped));
    var v := ConnectFinishNext(w, e, mapped);
    ConnectEndsAt(w, e, mapped);
    SettledEndpoint(v, e);
    if At(v, e).state.Connected? { EstablishedEndpoint(v, e); }
  }

  /** The peer is the port asked for. */
  lemma MappedAsAsked(w: World, e: Ep, mapped: bool)
    requires AimInv(w) && Enabled(w, ConnectFinish(e, mapped))
    ensures var v := ConnectFinishNext(w, e, mapped);
            At(w, e).state.Mapping? && At(v, e).state.Connected? ==> At(v, e).peer == At(w, e).call.dst
  {
    assert Directed(w, e);
    hide AimInv, Active;
  }

  lemma ConnectEndsAt(w: World, e: Ep, mapped: bool)
    requires Inv(w) && Enabled(w, ConnectFinish(e, mapped))
    ensures var v := ConnectFinishNext(w, e, mapped);
            && At(v, e).token.NoToken? && At(v, e).call.Idle?
            && if At(w, e).state.Mapping? && At(w, e).call.ConnectWait? && mapped
               then At(v, e).state.Connected? && e in v.connected
               else At(v, e).state.Bound? && v.connected[e] == 0
  {
    hide Inv, Shape, Plays;
    Know(w, e);
    ConnectCallShape(At(w, e), w.listen[e], w.connected[e], w.disconnected[e], w.zombie[e]);
    MappedNotSelf(w, e);
  }

  lemma ConnectCallShape(x: Endpoint, l: nat, c: nat, d: nat, z: nat)
    requires Shape(x, l, c, d, z) && (x.call.ConnectWait? || x.call.ConnectTerm?) && !x.state.Connecting?
    ensures x.token.NoToken? && c == 0 && (x.state.Bound? || x.state.Mapping?)
  {
  }

  lemma MappedNotSelf(w: World, e: Ep)
    requires Inv(w)
    ensures At(w, e).state.Mapping? ==> At(w, e).grant != e
  {
    hide Shape, TokenInv, FarewellInv, ActiveInv;
    Know(w, e);
    assert GrantAt(w, e);
  }

  // ------------------------------------------------ endpoints that go

  /** No message in flight but a request or a termination of its own concerns the endpoint. */
  ghost predicate Forgotten(w: World, e: Ep) {
    forall s :: s in w.wire && !w.wire[s].Req? && !w.wire[s].Term? ==> w.wire[s].to != e
  }

  lemma NackForgets(w: World, s: nat)
    requires Inv(w) && Enabled(w, OnGntNack(s))
    ensures var v := OnGntNackNext(w, s);
            && Next(w, OnGntNack(s)) == v && Inv(v) && Forgotten(v, w.wire[s].to) && At(v, w.wire[s].to).state.Closing?
            && v.connected[w.wire[s].to] == 0
  {
    hide Inv, Forgotten, Shape;
    NextKeepsInv(w, OnGntNack(s));
    RefusedAt(w, s);
    ForgottenEndpoint(OnGntNackNext(w, s), w.wire[s].to);
  }

  lemma RefusedAt(w: World, s: nat)
    requires Inv(w) && s in w.wire && w.wire[s].GntNack?
    ensures var c := w.wire[s].to;
            At(w, c).token.NoToken? && At(w, c).farewell.NoFarewell? && At(w, c).joins == 0 && w.connected[c] == 0
  {
    hide Shape, Plays, TokenInv, FarewellInv, ActiveInv;
    var c := w.wire[s].to;
    assert GrantPacket(w, s);
    RefusedRole(w, c);
  }

  lemma RefusedRole(w: World, c: Ep)
    requires Inv(w) && Linking(At(w, c))
    ensures At(w, c).token.NoToken? && At(w, c).farewell.NoFarewell? && At(w, c).joins == 0 && w.connected[c] == 0
  {
    hide Inv, Shape;
    Know(w, c);
  }

  lemma ForgottenEndpoint(w: World, e: Ep)
    requires Inv(w) && At(w, e).token.NoToken? && !Linking(At(w, e)) && At(w, e).farewell.NoFarewell?
    requires At(w, e).joins == 0
    ensures Forgotten(w, e)
  {
    hide Shape, Plays;
    forall s | s in w.wire && !w.wire[s].Req? && !w.wire[s].Term? ensures w.wire[s].to != e {
      assert RequestPacket(w, s) && GrantPacket(w, s) && FarewellPacket(w, s);
      if w.wire[s].Discnct? { Departing(w, w.wire[s].from); }
    }
  }

  /** Whoever sent a disconnect had a peer. */
  lemma Departing(w: World, e: Ep)
    requires Inv(w)
    ensures !At(w, e).farewell.NoFarewell? ==>
              At(w, e).joins == 1 && w.connected[e] == 0 && !Linking(At(w, e))
              && (At(w, At(w, e).remoteEp).joins == 1 || At(w, At(w, e).remoteEp).link.AckSent?)
              && At(w, At(w, e).remoteEp).remoteEp == e
  {
    hide Shape, TokenInv, FarewellInv, ActiveInv;
    Know(w, e);
    assert PairAt(w, e);
  }

  // ------------------------------------------------ disconnects

  /** Neither end of the connection is on mi_connected any more. */
  ghost predicate Parted(w: World, e: Ep) {
    w.connected[e] == 0 && w.connected[At(w, e).remoteEp] == 0
  }

  lemma DisconnectParts(w: World, s: nat)
    requires Inv(w) && Enabled(w, OnDiscnct(s))
    ensures var v := OnDiscnctNext(w, s); Next(w, OnDiscnct(s)) == v && Inv(v) && Parted(v, w.wire[s].from)
  {
    NextKeepsInv(w, OnDiscnct(s));
    Partners(w, s);
    FarewellOwner(w, s);
    hide Inv, Shape;
  }

  lemma AcknowledgedParts(w: World, s: nat)
    requires Inv(w) && Enabled(w, OnDiscntAck(s))
    ensures var v := OnDiscntAckNext(w, s);
            && Next(w, OnDiscntAck(s)) == v && Inv(v) && Parted(v, w.wire[s].to)
            && At(v, w.wire[s].to).state.Disconnected?
  {
    NextKeepsInv(w, OnDiscntAck(s));
    AckedNews(w, s);
    hide Inv, Shape;
  }

  lemma AckedNews(w: World, s: nat)
    requires Inv(w) && s in w.wire && w.wire[s].DiscntAck?
    ensures Parted(w, w.wire[s].to)
  {
    hide Shape, TokenInv, ActiveInv;
    var e := w.wire[s].to;
    FarewellOwner(w, s);
    Departing(w, e);
    ShapeOf(w, At(w, e).remoteEp);
    assert NewsAt(w, At(w, e).remoteEp);
  }

  // ------------------------------------------------ flushes

  /** A flushed listener is CLLISTEN and stays on mi_listen; a flushed connection will be looked for. */
  lemma FlushMarks(w: World, e: Ep)
    requires Inv(w) && Enabled(w, FlushBegin(e))
    ensures var x, v := At(w, e), FlushBeginNext(w, e);
            && Next(w, FlushBegin(e)) == v && Inv(v) && v.listen == w.listen && At(v, e).conlist == x.conlist
            && if x.state.Listening? then At(v, e).state.ClListen? else At(v, e).looks == x.looks + 1
  {
    NextKeepsInv(w, FlushBegin(e));
    hide Inv;
  }

  /** On none of the four lists. */
  ghost predicate Unlisted(w: World, e: Ep) {
    w.listen[e] == 0 && w.connected[e] == 0 && w.disconnected[e] == 0 && w.zombie[e] == 0
  }

  /**
   The search of a flush leaves the endpoint on no list.  If it was on mi_connected, the peer is
   told; if the peer's disconnect came first, nothing is sent.
   */
  lemma FlushTakesOff(w: World, e: Ep)
    requires Inv(w) && Enabled(w, FlushLookup(e))
    ensures var v := FlushLookupNext(w, e);
            && Next(w, FlushLookup(e)) == v && Inv(v) && Unlisted(v, e)
            && if w.connected[e] == 1
               then At(v, e).flushing && v.wire == w.wire[w.next := Discnct(At(w, e).remoteEp, e)]
               else v.wire == w.wire
  {
    NextKeepsInv(w, FlushLookup(e));
    LookerShape(w, e);
    hide Inv, Active;
  }

  lemma LookerShape(w: World, e: Ep)
    requires Inv(w) && At(w, e).looks > 0
    ensures w.listen[e] == 0 && w.zombie[e] == 0 && w.connected[e] <= 1 && w.connected[e] + w.disconnected[e] <= 1
  {
    hide Shape;
    assert ShapeAt(w, e);
    LookingShape(At(w, e), w.listen[e], w.connected[e], w.disconnected[e], w.zombie[e]);
  }

  lemma LookingShape(x: Endpoint, l: nat, c: nat, d: nat, z: nat)
    requires Shape(x, l, c, d, z) && x.looks > 0
    ensures l == 0 && z == 0 && c + d <= 1
  {
  }

  /** In the end it is DISCONNECTED, on mi_disconnected alone, and its peer is off mi_connected too. */
  lemma FlushFiles(w: World, e: Ep)
    requires Inv(w) && Enabled(w, FlushEnd(e))
    ensures var v := FlushEndNext(w, e);
            && Next(w, FlushEnd(e)) == v && Inv(v) && At(v, e).state.Disconnected? && !At(v, e).flushing
            && v.disconnected[e] == 1 && v.listen[e] + v.connected[e] + v.zombie[e] == 0 && Parted(v, e)
  {
    NextKeepsInv(w, FlushEnd(e));
    FlushedParted(w, e);
    hide Inv, Shape;
  }

  lemma FlushedParted(w: World, e: Ep)
    requires Inv(w) && At(w, e).flushing && At(w, e).state.Disconnected?
    ensures Parted(w, e) && Unlisted(w, e)
  {
    hide TokenInv, ActiveInv, Shape;
    assert ShapeAt(w, e) && PairAt(w, e) && NewsAt(w, At(w, e).remoteEp);
    FlushedShape(At(w, e), w.listen[e], w.connected[e], w.disconnected[e], w.zombie[e]);
    Know(w, At(w, e).remoteEp);
  }

  lemma FlushedShape(x: Endpoint, l: nat, c: nat, d: nat, z: nat)
    requires Shape(x, l, c, d, z) && x.flushing && x.state.Disconnected?
    ensures l + c + d + z == 0 && x.joins == 1 && x.farewell.NoFarewell? && !x.link.AckSent?
  {
  }

  /** The peer a disconnect finds on mi_connected ends DISCONNECTED, on mi_disconnected alone. */
  lemma DisconnectFiles(w: World, s: nat)
    requires Inv(w) && Enabled(w, OnDiscnct(s)) && w.connected[w.wire[s].to] == 1
    ensures var v, e := OnDiscnctNext(w, s), w.wire[s].to;
            At(v, e).state.Disconnected? && v.disconnected[e] == 1 && v.listen[e] + v.connected[e] + v.zombie[e] == 0
  {
    ShapeOf(w, w.wire[s].to);
    FarewellOwner(w, s);
    Departing(w, w.wire[s].from);
    hide Inv, Shape, Active;
  }

  /** A connect call that fails before it sends anything leaves a BOUND endpoint with the port it has. */
  lemma FailureFrees(w: World, e: Ep)
    requires Inv(w) && Enabled(w, ConnectFail(e))
    ensures var v := Next(w, ConnectFail(e));
            && Inv(v) && At(v, e).state.Bound? && At(v, e).call.Idle? && At(v, e).port == At(w, e).port
            && Settled(v, e) && v.wire == w.wire
  {
    var v := Put(w, e, At(w, e).(state := Bound, call := Idle));
    assert Next(w, ConnectFail(e)) == v;
    NextKeepsInv(w, ConnectFail(e));
    Know(w, e);
    hide Inv, Shape, Settled, Next;
    SettledEndpoint(v, e);
  }
}
