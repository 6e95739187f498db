/**
 What holds in every run of connects, accepts, interrupts, flushes and closes on any
 number of nodes, as long as every termination that finds a request finds its sender's.
 */
module ConnectionTheorems {
  import opened ConnectionSpec
  import opened ConnectionInv
  import opened ConnectionShapes
  import opened ConnectionTokens
  import opened ConnectionGrants
  import opened ConnectionFarewells
  import opened ConnectionSteps
  import opened ConnectionAim

  // ------------------------------------------------ every run keeps the invariant

  lemma EmptyShapes()
    ensures ShapeInv(EMPTY)
  {
    hide Shape;
    UnopenedShape(UNOPENED);
  }

  lemma EmptyActive()
    ensures ActiveInv(EMPTY)
  {
    forall n, r ensures ActiveAt(EMPTY, n, r) {
      assert Members(EMPTY, n, r) == {};
    }
  }

  lemma EmptyInv()
    ensures Inv(EMPTY)
  {
    EmptyShapes();
    EmptyActive();
    hide Shape, ShapeInv, ActiveInv;
  }

  lemma CallKeepsInv(w: World, op: Step)
    requires Inv(w) && Enabled(w, op)
    requires op.Open? || op.Bind? || op.ListenBegin? || op.ListenEnd? || op.ConnectBegin? || op.ConnectFail?
             || op.ConnectSend? || op.ConnectInterrupt? || op.ConnectFinish?
    ensures Inv(Next(w, op))
  {
    hide Inv;
    match op
    case Open(e) => OpenKeeps(w, e);
    case Bind(e, port) => BindKeeps(w, e, port);
    case ListenBegin(e, backlog) => ListenBeginKeeps(w, e, backlog);
    case ListenEnd(e) => ListenEndKeeps(w, e);
    case ConnectBegin(e, dst, port) => ConnectBeginKeeps(w, e, dst, port);
    case ConnectFail(e) => ConnectFailKeeps(w, e);
    case ConnectSend(e) => ConnectSendKeeps(w, e);
    case ConnectInterrupt(e) => ConnectInterruptKeeps(w, e);
    case ConnectFinish(e, mapped) =>
      if At(w, e).state.Mapping? {
        ConnectDoneKeeps(w, e);
        ConnectRefuseKeeps(w, e);
      } else {
        ConnectEndKeeps(w, e, mapped);
      }
  }

  lemma ServeKeepsInv(w: World, op: Step)
    requires Inv(w) && Enabled(w, op)
    requires op.AcceptBegin? || op.AcceptFail? || op.AcceptGrant? || op.AcceptFinish? || op.FlushBegin?
             || op.FlushLookup? || op.FlushEnd? || op.CloseBegin? || op.CloseLookup? || op.CloseRejectOne?
             || op.CloseAcked? || op.CloseFinish?
    ensures Inv(Next(w, op))
  {
    hide Inv;
    match op
    case AcceptBegin(l, c) => AcceptBeginKeeps(w, l, c);
    case AcceptFail(c) => AcceptFailKeeps(w, c);
    case AcceptGrant(c) => AcceptGrantKeeps(w, c);
    case AcceptFinish(c) => AcceptFinishKeeps(w, c);
    case FlushBegin(e) => FlushBeginKeeps(w, e);
    case FlushLookup(e) => if e in w.connected { FlushKeeps(w, e); } else { FlushLateKeeps(w, e); }
    case FlushEnd(e) => FlushEndKeeps(w, e);
    case CloseBegin(e) => CloseBeginKeeps(w, e);
    case CloseLookup(e) =>
      if At(w, e).call.origin.FromConnected? && e in w.connected { CloseKeeps(w, e); } else { CloseLookKeeps(w, e); }
    case CloseRejectOne(e) => if At(w, e).conlist == [] { CloseRejectedKeeps(w, e); } else { CloseRejectKeeps(w, e); }
    case CloseAcked(e) => CloseAckedKeeps(w, e);
    case CloseFinish(e) => CloseFinishKeeps(w, e);
  }

  lemma HandlerKeepsInv(w: World, op: Step)
    requires Inv(w) && Enabled(w, op) && Sure(w, op)
    requires op.OnReq? || op.OnTerm? || op.OnGnt? || op.OnGntAck? || op.OnGntNack? || op.OnRej? || op.OnTermAck?
             || op.OnDiscnct? || op.OnDiscntAck?
    ensures Inv(Next(w, op))
  {
    hide Inv, FindsOwn, At, OnReqNext, OnGntNext, OnGntAckNext, OnGntNackNext, OnRejNext, OnTermAckNext,
         OnDiscnctNext, OnDiscntAckNext;
    match op
    case OnReq(s, l, queued) =>
      if queued && At(w, l).conreqcnt < At(w, l).backlog {
        OnReqQueuedKeeps(w, s, l);
      } else {
        OnReqRejectedKeeps(w, s, l, queued);
      }
    case OnTerm(s, l, found) =>
      if found && FindRequest(At(w, l).conlist, w.wire[s].from.addr) < |At(w, l).conlist| {
        OnTermFoundKeeps(w, s, l);
      } else {
        OnTermLateKeeps(w, s);
      }
    case OnGnt(s) => OnGntKeeps(w, s);
    case OnGntAck(s) => OnGntAckKeeps(w, s);
    case OnGntNack(s) => OnGntNackKeeps(w, s);
    case OnRej(s) => OnRejKeeps(w, s);
    case OnTermAck(s) => OnTermAckKeeps(w, s);
    case OnDiscnct(s) => OnDiscnctKeeps(w, s);
    case OnDiscntAck(s) => OnDiscntAckKeeps(w, s);
  }

  lemma NextKeepsInv(w: World, op: Step)
    requires Inv(w) && Enabled(w, op) && Sure(w, op)
    ensures Inv(Next(w, op))
  {
    hide Inv, Enabled, Next, Sure;
    match op
    case Open(_) => CallKeepsInv(w, op);
    case Bind(_, _) => CallKeepsInv(w, op);
    case ListenBegin(_, _) => CallKeepsInv(w, op);
    case ListenEnd(_) => CallKeepsInv(w, op);
    case ConnectBegin(_, _, _) => CallKeepsInv(w, op);
    case ConnectFail(_) => CallKeepsInv(w, op);
    case ConnectSend(_) => CallKeepsInv(w, op);
    case ConnectInterrupt(_) => CallKeepsInv(w, op);
    case ConnectFinish(_, _) => CallKeepsInv(w, op);
    case OnReq(_, _, _) => HandlerKeepsInv(w, op);
    case OnTerm(_, _, _) => HandlerKeepsInv(w, op);
    case OnGnt(_) => HandlerKeepsInv(w, op);
    case OnGntAck(_) => HandlerKeepsInv(w, op);
    case OnGntNack(_) => HandlerKeepsInv(w, op);
    case OnRej(_) => HandlerKeepsInv(w, op);
    case OnTermAck(_) => HandlerKeepsInv(w, op);
    case OnDiscnct(_) => HandlerKeepsInv(w, op);
    case OnDiscntAck(_) => HandlerKeepsInv(w, op);
    case _ => ServeKeepsInv(w, op);
  }

  /** Every termination of the run that finds a request finds its sender's. */
  predicate FoundOwn(ops: seq<Step>) {
    ops == [] ||
      var w, op := Run(ops[..|ops| - 1]), ops[|ops| - 1];
      FoundOwn(ops[..|ops| - 1]) && (Enabled(w, op) ==> Sure(w, op))
  }

  lemma {:induction false} RunKeepsInv(ops: seq<Step>)
    requires FoundOwn(ops)
    ensures Inv(Run(ops))
  {
    hide Inv, Enabled, Next, Sure;
    if ops == [] {
      EmptyInv();
    } else {
      var w, op := Run(ops[..|ops| - 1]), ops[|ops| - 1];
      RunKeepsInv(ops[..|ops| - 1]);
      if Enabled(w, op) { NextKeepsInv(w, op); }
    }
  }

  // ------------------------------------------------ where a connect call leads

  lemma {:induction false} RunKeepsAim(ops: seq<Step>)
    requires FoundOwn(ops)
    ensures AimInv(Run(ops))
  {
    hide Inv, Enabled, Next, Sure;
    if ops != [] {
      var w, op := Run(ops[..|ops| - 1]), ops[|ops| - 1];
      hide AimInv;
      RunKeepsInv(ops[..|ops| - 1]);
      RunKeepsAim(ops[..|ops| - 1]);
      if Enabled(w, op) { NextKeepsAim(w, op); }
    }
  }

  /** The port the endpoint's last connect call was made for. */
  function LastAsked(ops: seq<Step>, e: Ep): PortId {
    if ops == [] then NOBODY
    else
      var op := ops[|ops| - 1];
      if op.ConnectBegin? && op.e == e && Enabled(Run(ops[..|ops| - 1]), op) then op.dst
      else LastAsked(ops[..|ops| - 1], e)
  }

  /** A connect call under way is for port `d`, and so is a grant or a connection that has come of it. */
  ghost predicate LeadsTo(w: World, e: Ep, d: PortId) {
    var x := At(w, e);
    && (Dialing(x) ==> x.call.dst == d)
    && (!x.accepted && (x.state.Mapping? || x.joins == 1) ==> x.peer == d)
  }

  lemma LeadsOn(w: World, op: Step, v: World, e: Ep, d: PortId)
    requires LeadsTo(w, e, d) && Tells(w, op, v, e) && Directed(v, e)
    ensures LeadsTo(v, e, if op.ConnectBegin? && op.e == e then op.dst else d)
  {
    hide At;
  }

  lemma {:induction false} RunLeadsTo(ops: seq<Step>, e: Ep)
    requires FoundOwn(ops)
    ensures LeadsTo(Run(ops), e, LastAsked(ops, e))
  {
    if ops != [] {
      var before, op := ops[..|ops| - 1], ops[|ops| - 1];
      RunLeadsTo(before, e);
      RunKeepsInv(before);
      RunKeepsAim(before);
      RunKeepsAim(ops);
      hide Inv, LeadsTo, Enabled, Next, Directed, Tells;
      if Enabled(Run(before), op) {
        NextKeepsAim(Run(before), op);
        LeadsOn(Run(before), op, Run(ops), e, LastAsked(before, e));
      }
    }
  }

  /**
   In every run a connection is with the port that was asked for: the connecting side has it as
   its peer, and the accepted side is an endpoint of it.
   */
  lemma ConnectsWhereAsked(ops: seq<Step>, e: Ep)
    requires FoundOwn(ops) && At(Run(ops), e).state.Connected?
    ensures var x := At(Run(ops), e);
            if x.accepted then PortId(e.node, x.port) == LastAsked(ops, x.remoteEp) else x.peer == LastAsked(ops, e)
  {
    var w := Run(ops);
    RunKeepsInv(ops);
    ShapeOf(w, e);
    JoinedAgrees(w, e);
    if At(w, e).accepted { JoinedAsker(w, e); }
    RunLeadsTo(ops, e);
    RunLeadsTo(ops, At(w, e).remoteEp);
    hide Inv, Run, LastAsked;
  }

  /** The connecting side joins first. */
  lemma JoinedAsker(w: World, c: Ep)
    requires Inv(w) && At(w, c).joins == 1 && At(w, c).accepted
    ensures At(w, At(w, c).remoteEp).joins == 1 && !At(w, At(w, c).remoteEp).accepted
  {
    hide Shape, TokenInv, FarewellInv, ActiveInv;
    Know(w, At(w, c).remoteEp);
    assert PairAt(w, c);
  }

  // ------------------------------------------------ requests

  /** Where a connecting endpoint's request, or the reply to it, can be found. */
  datatype Place = Message(s: nat) | InQueue(l: Ep, i: nat) | InAccept(c: Ep)

  ghost predicate FoundAt(w: World, e: Ep, p: Place) {
    match p
    case Message(s) => s in w.wire && IsRequest(w.wire[s]) && Party(w.wire[s]) == e
    case InQueue(l, i) => i < |At(w, l).conlist| && At(w, l).conlist[i].from == e
    case InAccept(c) => At(w, c).call.AcceptTake? && At(w, c).call.req.from == e
  }

  /** Where the endpoint's bookkeeping says it is. */
  lemma FoundWhereSaid(w: World, e: Ep, p: Place)
    requires Inv(w) && FoundAt(w, e, p)
    ensures match p
            case Message(s) => At(w, e).token == OnWire(s)
            case InQueue(l, i) => At(w, e).token == Queued(l, At(w, l).conlist[i])
            case InAccept(c) => At(w, e).token == Held(c)
    ensures !At(w, e).token.NoToken?
  {
    hide Shape, GrantInv, FarewellInv, ActiveInv;
    match p
    case Message(s) => assert RequestPacket(w, s);
    case InQueue(l, i) => assert RequestsAt(w, l);
    case InAccept(c) => assert RequestsAt(w, c);
  }

  lemma FoundSomewhere(w: World, e: Ep) returns (p: Place)
    requires Inv(w) && !At(w, e).token.NoToken?
    ensures FoundAt(w, e, p)
  {
    hide Shape, GrantInv, FarewellInv, ActiveInv;
    assert TokenAt(w, e);
    match At(w, e).token
    case OnWire(s) => p := Message(s);
    case Queued(l, r) =>
      var i :| 0 <= i < |At(w, l).conlist| && At(w, l).conlist[i] == r;
      p := InQueue(l, i);
    case Held(c) => p := InAccept(c);
  }

  lemma DistinctRequests(x: Endpoint, i: nat, j: nat)
    requires QueueShape(x) && i < |x.conlist| && j < |x.conlist| && x.conlist[i] == x.conlist[j]
    ensures i == j
  {
  }

  /** At most one request of the endpoint, or reply to it, exists anywhere. */
  ghost predicate Single(w: World, e: Ep) {
    forall p, q :: FoundAt(w, e, p) && FoundAt(w, e, q) ==> p == q
  }

  lemma OneOutstanding(ops: seq<Step>, e: Ep)
    requires FoundOwn(ops)
    ensures Single(Run(ops), e)
  {
    hide Inv, Single;
    RunKeepsInv(ops);
    InvSingle(Run(ops), e);
  }

  lemma InvSingle(w: World, e: Ep)
    requires Inv(w)
    ensures Single(w, e)
  {
    hide Inv, Shape, FoundAt;
    forall p, q | FoundAt(w, e, p) && FoundAt(w, e, q) ensures p == q {
      FoundWhereSaid(w, e, p);
      FoundWhereSaid(w, e, q);
      if p.InQueue? && q.InQueue? {
        SameSlot(w, e, p, q);
      }
    }
  }

  lemma SameSlot(w: World, e: Ep, p: Place, q: Place)
    requires Inv(w) && FoundAt(w, e, p) && FoundAt(w, e, q) && p.InQueue? && q.InQueue? && p.l == q.l
    requires At(w, p.l).conlist[p.i] == At(w, p.l).conlist[q.i]
    ensures p == q
  {
    hide Inv, Shape, Plays, QueueShape;
    Know(w, p.l);
    DistinctRequests(At(w, p.l), p.i, q.i);
  }

  /** A connect call waits exactly while its request or the reply to it exists. */
  ghost predicate Expects(w: World, e: Ep) {
    var x := At(w, e);
    !x.accepted && x.state.Connecting? && (x.call.ConnectWait? || x.call.ConnectTerm?) <==> exists p :: FoundAt(w, e, p)
  }

  lemma WaitsForSomething(ops: seq<Step>, e: Ep)
    requires FoundOwn(ops)
    ensures Expects(Run(ops), e)
  {
    hide Inv, Expects;
    RunKeepsInv(ops);
    InvExpects(Run(ops), e);
  }

  lemma InvExpects(w: World, e: Ep)
    requires Inv(w)
    ensures Expects(w, e)
  {
    hide Inv, Shape, FoundAt;
    ShapeOf(w, e);
    if At(w, e).token.NoToken? {
      forall p ensures !FoundAt(w, e, p) {
        if FoundAt(w, e, p) { FoundWhereSaid(w, e, p); }
      }
    } else {
      var p := FoundSomewhere(w, e);
    }
  }

  /**
   A reply in flight answers the attempt in progress, never a later one; a termination is
   acknowledged only if that attempt sent it.
   */
  ghost predicate Timely(w: World, s: nat) {
    s in w.wire && IsRequest(w.wire[s]) && !w.wire[s].Req? ==>
      var p := w.wire[s];
      var x := At(w, p.to);
      && x.state.Connecting? && x.attempt == p.id
      && if p.TermAck? then x.call.ConnectTerm? else x.call.ConnectWait? || x.call.ConnectTerm?
  }

  lemma RepliesAreTimely(ops: seq<Step>, s: nat)
    requires FoundOwn(ops)
    ensures Timely(Run(ops), s)
  {
    hide Inv, Timely;
    RunKeepsInv(ops);
    InvTimely(Run(ops), s);
  }

  lemma InvTimely(w: World, s: nat)
    requires Inv(w)
    ensures Timely(w, s)
  {
    hide Shape;
    if s in w.wire && IsRequest(w.wire[s]) {
      ShapeOf(w, Party(w.wire[s]));
      assert RequestPacket(w, s);
    }
  }

  /** Every request of the endpoint delivered was answered, but for one that a queue or an accept call holds. */
  ghost predicate Served(w: World, e: Ep) {
    var waiting := exists p :: FoundAt(w, e, p) && !p.Message?;
    At(w, e).asked == At(w, e).answered + if waiting then 1 else 0
  }

  lemma InvServed(w: World, e: Ep)
    requires Inv(w)
    ensures Served(w, e)
  {
    hide Inv, Shape, FoundAt;
    ShapeOf(w, e);
    if At(w, e).token.Queued? || At(w, e).token.Held? {
      var p := FoundSomewhere(w, e);
      FoundWhereSaid(w, e, p);
    } else {
      forall p ensures !(FoundAt(w, e, p) && !p.Message?) {
        if FoundAt(w, e, p) { FoundWhereSaid(w, e, p); }
      }
    }
  }

  /** Each request delivered is answered exactly once, or still waits in one queue or one accept call. */
  lemma AnsweredOrWaiting(ops: seq<Step>, e: Ep)
    requires FoundOwn(ops)
    ensures Served(Run(ops), e)
  {
    hide Inv, Served;
    RunKeepsInv(ops);
    InvServed(Run(ops), e);
  }

  /** A queue holds what its count says, within the backlog, in order of arrival; a closed listener holds nothing. */
  ghost predicate Bounded(w: World, l: Ep) {
    var x := At(w, l);
    && x.conreqcnt == |x.conlist| && (x.conlist != [] ==> |x.conlist| <= x.backlog)
    && (forall i, j :: 0 <= i < j < |x.conlist| ==> x.conlist[i].stamp < x.conlist[j].stamp)
    && (x.call.CloseDone? || x.call.Gone? ==> x.conlist == [])
  }

  lemma QueueBounded(ops: seq<Step>, l: Ep)
    requires FoundOwn(ops)
    ensures Bounded(Run(ops), l)
  {
    hide Inv, Shape;
    RunKeepsInv(ops);
    ShapeOf(Run(ops), l);
  }

  // ------------------------------------------------ agreement

  /** The endpoints at the two ends of a connection name each other. */
  ghost predicate Agree(w: World, c: Ep) {
    var x := At(w, c);
    var y := At(w, x.remoteEp);
    && y.remoteEp == c && y.accepted != x.accepted
    && x.peer == PortId(x.remoteEp.node, y.port) && y.peer == PortId(c.node, x.port)
    && x.remoteDev == x.remoteEp.node && y.remoteDev == c.node
  }

  lemma PairAgrees(w: World, c: Ep)
    requires PairAt(w, c) && PairAt(w, At(w, c).remoteEp) && AcceptedAt(w, At(w, c).remoteEp)
    requires At(w, c).joins == 1 && Roles(w, At(w, c).remoteEp)
    ensures Agree(w, c)
  {
    hide At;
  }

  lemma JoinedAgrees(w: World, c: Ep)
    requires Inv(w) && At(w, c).joins == 1
    ensures Agree(w, c)
  {
    hide Shape, Plays, At, Agree, TokenInv, FarewellInv, ActiveInv;
    Know(w, At(w, c).remoteEp);
    assert PairAt(w, c) && PairAt(w, At(w, c).remoteEp) && AcceptedAt(w, At(w, c).remoteEp);
    PairAgrees(w, c);
  }

  /** Whenever an endpoint is connected, whichever side asked, it and its peer name each other. */
  lemma ConnectedAgree(ops: seq<Step>, c: Ep)
    requires FoundOwn(ops)
    ensures At(Run(ops), c).state.Connected? ==> Agree(Run(ops), c)
  {
    hide Inv, Agree, Shape;
    RunKeepsInv(ops);
    ShapeOf(Run(ops), c);
    if At(Run(ops), c).state.Connected? { JoinedAgrees(Run(ops), c); }
  }

  /** Whoever is on mi_connected has a peer that is too, or a message that will tell either of them is in flight. */
  ghost predicate Accompanied(w: World, e: Ep) {
    var f := At(w, e).remoteEp;
    e in w.connected ==>
      f in w.connected || exists s :: s in w.wire && (w.wire[s] == Discnct(e, f) || w.wire[s] == GntAck(f, e.node))
  }

  lemma NoneLeftBehind(ops: seq<Step>, e: Ep)
    requires FoundOwn(ops)
    ensures Accompanied(Run(ops), e)
  {
    hide Inv, Accompanied;
    RunKeepsInv(ops);
    InvAccompanied(Run(ops), e);
  }

  lemma InvAccompanied(w: World, e: Ep)
    requires Inv(w)
    ensures Accompanied(w, e)
  {
    hide Shape, At, TokenInv, ActiveInv;
    Know(w, e);
    var f := At(w, e).remoteEp;
    assert NewsAt(w, e) && PairAt(w, e) && FarewellAt(w, f) && GrantAt(w, f);
    if At(w, f).link.AckSent? { assert GrantPacket(w, At(w, f).link.serial); }
  }

  // ------------------------------------------------ teardown

  /** Each endpoint is on at most one list, joins mi_connected at most once and has left it when it is closed. */
  ghost predicate Filed(w: World, e: Ep) {
    && w.listen[e] + w.connected[e] + w.disconnected[e] + w.zombie[e] <= 1
    && At(w, e).joins <= 1 && w.connected[e] == At(w, e).joins - At(w, e).leaves
    && (At(w, e).state.Zombie? ==> w.zombie[e] == 1 && At(w, e).leaves == At(w, e).joins)
    && (At(w, e).state.Disconnected? ==> At(w, e).leaves == 1)
  }

  lemma ListsDisjoint(ops: seq<Step>, e: Ep)
    requires FoundOwn(ops)
    ensures Filed(Run(ops), e)
  {
    hide Inv, Shape;
    RunKeepsInv(ops);
    ShapeOf(Run(ops), e);
  }

  /** A device's connection count is the number of endpoints connected through it. */
  lemma ActiveIsConnected(ops: seq<Step>, n: nat, r: nat)
    requires FoundOwn(ops)
    ensures ActiveAt(Run(ops), n, r)
  {
    RunKeepsInv(ops);
  }

  /** No message in flight is for an endpoint that is gone, so its memory may be freed. */
  ghost predicate Awaited(w: World, s: nat) {
    s in w.wire && !w.wire[s].Req? && !w.wire[s].Term? ==> !At(w, w.wire[s].to).call.Gone?
  }

  lemma NothingForTheDead(ops: seq<Step>, s: nat)
    requires FoundOwn(ops)
    ensures Awaited(Run(ops), s)
  {
    hide Inv, Awaited;
    RunKeepsInv(ops);
    InvAwaited(Run(ops), s);
  }

  lemma InvAwaited(w: World, s: nat)
    requires Inv(w)
    ensures Awaited(w, s)
  {
    hide Shape, ActiveInv;
    if s in w.wire && !w.wire[s].Req? && !w.wire[s].Term? {
      var e := w.wire[s].to;
      ShapeOf(w, e);
      Know(w, e);
      assert RequestPacket(w, s) && GrantPacket(w, s) && FarewellPacket(w, s);
      if w.wire[s].Discnct? {
        assert NewsAt(w, w.wire[s].from);
      }
    }
  }

  /** All of these at once. */
  ghost predicate Sound(w: World) {
    && (forall e :: Single(w, e) && Expects(w, e) && Served(w, e))
    && (forall e :: Bounded(w, e)) && (forall e :: Accompanied(w, e)) && (forall e :: Filed(w, e))
    && (forall e :: At(w, e).state.Connected? ==> Agree(w, e))
    && (forall s :: Timely(w, s)) && (forall s :: Awaited(w, s)) && (forall n, r :: ActiveAt(w, n, r))
    && (forall e :: Directed(w, e))
  }

  lemma RunIsSound(ops: seq<Step>)
    requires FoundOwn(ops)
    ensures Sound(Run(ops))
  {
    var w := Run(ops);
    assert forall e :: Directed(w, e) by { RunKeepsAim(ops); }
    hide Single, Expects, Served, Bounded, Accompanied, Filed, Agree, Timely, Awaited, ActiveAt, Directed, Run,
         FoundOwn, At;
    forall e ensures Single(w, e) && Expects(w, e) && Served(w, e) {
      OneOutstanding(ops, e);
      WaitsForSomething(ops, e);
      AnsweredOrWaiting(ops, e);
    }
    forall e ensures Bounded(w, e) { QueueBounded(ops, e); }
    forall e ensures Accompanied(w, e) { NoneLeftBehind(ops, e); }
    forall e ensures Filed(w, e) { ListsDisjoint(ops, e); }
    forall e | At(w, e).state.Connected? ensures Agree(w, e) { ConnectedAgree(ops, e); }
    forall s ensures Timely(w, s) { RepliesAreTimely(ops, s); }
    forall s ensures Awaited(w, s) { NothingForTheDead(ops, s); }
    forall n, r ensures ActiveAt(w, n, r) { ActiveIsConnected(ops, n, r); }
  }

  /** What the shape of an endpoint says in these terms. */
  lemma ShapeSays(x: Endpoint, l: nat, c: nat, d: nat, z: nat)
    requires Shape(x, l, c, d, z)
    ensures QueueShape(x) && TokenShape(x) && (x.call.CloseDone? || x.call.Gone? ==> x.conlist == [])
    ensures l + c + d + z <= 1 && x.leaves <= x.joins <= 1 && c == x.joins - x.leaves
    ensures x.state.Zombie? ==> z == 1
    ensures x.state.Disconnected? ==> x.leaves == 1
    ensures x.state.Connected? ==> x.joins == 1
    ensures x.call.Gone? ==> c == 0 && x.farewell.NoFarewell? && x.token.NoToken? && !Linking(x)
  {
  }

  lemma ShapeOf(w: World, e: Ep)
    requires Inv(w)
    ensures var x := At(w, e);
            && QueueShape(x) && TokenShape(x) && (x.call.CloseDone? || x.call.Gone? ==> x.conlist == [])
            && w.listen[e] + w.connected[e] + w.disconnected[e] + w.zombie[e] <= 1
            && x.leaves <= x.joins <= 1 && w.connected[e] == x.joins - x.leaves
            && (x.state.Zombie? ==> w.zombie[e] == 1) && (x.state.Disconnected? ==> x.leaves == 1)
            && (x.state.Connected? ==> x.joins == 1)
            && (x.call.Gone? ==> w.connected[e] == 0 && x.farewell.NoFarewell? && x.token.NoToken? && !Linking(x))
  {
    hide At, Shape, QueueShape, TokenShape;
    assert ShapeAt(w, e);
    ShapeSays(At(w, e), w.listen[e], w.connected[e], w.disconnected[e], w.zombie[e]);
  }
}
