/**
 Every step of every call and handler keeps the invariant.
 */
module ConnectionSteps {
  import opened ConnectionSpec
  import opened ConnectionInv
  import opened ConnectionShapes
  import opened ConnectionTokens
  import opened ConnectionGrants
  import opened ConnectionFarewells

  // ------------------------------------------------ connection counts

  /** The endpoints of node `n` on its mi_connected whose device is `r`. */
  ghost function Members(w: World, n: nat, r: nat): set<Ep> {
    set e | e in w.connected && e.node == n && At(w, e).remoteDev == r
  }

  ghost predicate ActiveAt(w: World, n: nat, r: nat) {
    Active(w, n, r) == |Members(w, n, r)|
  }

  ghost predicate ActiveInv(w: World) {
    forall n, r :: ActiveAt(w, n, r)
  }

  lemma ActiveFrame(w: World, v: World)
    requires ActiveInv(w) && v.active == w.active && v.connected == w.connected
    requires forall e :: e in w.connected ==> At(v, e).remoteDev == At(w, e).remoteDev
    ensures ActiveInv(v)
  {
    forall n, r ensures ActiveAt(v, n, r) {
      assert ActiveAt(w, n, r);
      assert Members(v, n, r) == Members(w, n, r);
    }
  }

  /** `v` has one more endpoint on mi_connected than `w`. */
  ghost predicate OneMore(w: World, v: World, e: Ep, dev: nat) {
    && w.connected[e] == 0 && At(v, e).remoteDev == dev && v.connected == w.connected + multiset{e}
    && forall z :: z in w.connected ==> At(v, z).remoteDev == At(w, z).remoteDev
  }

  lemma MemberJoins(w: World, v: World, e: Ep, dev: nat, n: nat, r: nat)
    requires OneMore(w, v, e, dev)
    ensures |Members(v, n, r)| == |Members(w, n, r)| + if n == e.node && r == dev then 1 else 0
  {
    hide At;
    if n == e.node && r == dev {
      assert Members(v, n, r) == Members(w, n, r) + {e};
    } else {
      assert Members(v, n, r) == Members(w, n, r);
    }
  }

  lemma ActiveJoin(w: World, v: World, e: Ep, dev: nat)
    requires ActiveInv(w) && OneMore(w, v, e, dev) && v.active == Join(w, e, dev).active
    ensures ActiveInv(v)
  {
    forall n, r ensures ActiveAt(v, n, r) {
      assert ActiveAt(w, n, r);
      MemberJoins(w, v, e, dev, n, r);
      hide Members, OneMore;
    }
  }

  lemma ActiveLeave(w: World, v: World, e: Ep, dev: nat)
    requires ActiveInv(w) && OneMore(v, w, e, dev) && v.active == Leave(w, e, dev).active
    ensures ActiveInv(v)
  {
    forall n, r ensures ActiveAt(v, n, r) {
      assert ActiveAt(w, n, r);
      MemberJoins(v, w, e, dev, n, r);
      hide Members, OneMore;
    }
  }

  // ------------------------------------------------ the invariant

  ghost predicate ShapeInv(w: World) {
    forall e :: ShapeAt(w, e)
  }

  ghost predicate Inv(w: World) {
    ShapeInv(w) && TokenInv(w) && GrantInv(w) && FarewellInv(w) && ActiveInv(w)
  }

  /** Endpoints outside `ex` are untouched, and so are their places on the lists. */
  ghost predicate OnlyAt(w: World, v: World, e: Ep) {
    && At(v, e) == At(w, e) && (e in v.eps <==> e in w.eps)
    && v.listen[e] == w.listen[e] && v.connected[e] == w.connected[e]
    && v.disconnected[e] == w.disconnected[e] && v.zombie[e] == w.zombie[e]
  }

  lemma ShapeStep(w: World, v: World, ex: set<Ep>)
    requires ShapeInv(w) && (forall e :: e !in ex ==> OnlyAt(w, v, e)) && (forall e :: e in ex ==> ShapeAt(v, e))
    ensures ShapeInv(v)
  {
    hide Shape, At;
    forall e ensures ShapeAt(v, e) {
      assert ShapeAt(w, e);
      if e !in ex { assert OnlyAt(w, v, e); }
    }
  }

  lemma RolesOf(w: World, e: Ep)
    requires ShapeInv(w)
    ensures Roles(w, e) && ShapeAt(w, e)
  {
    hide Shape, Plays;
    assert ShapeAt(w, e);
    ShapeRoles(w, e);
  }

  /** A step that changes one endpoint, and its places on the lists but mi_connected, unnoticed by all others. */
  ghost predicate QuietChange(w: World, v: World, e: Ep) {
    && v == w.(eps := w.eps[e := At(v, e)], listen := v.listen, disconnected := v.disconnected, zombie := v.zombie)
    && Quietly(At(w, e), At(v, e), v.listen[e], w.connected[e], v.disconnected[e], v.zombie[e])
    && forall z :: z != e ==>
         v.listen[z] == w.listen[z] && v.disconnected[z] == w.disconnected[z] && v.zombie[z] == w.zombie[z]
  }

  lemma QuietCalm(w: World, v: World, e: Ep, z: Ep)
    requires QuietChange(w, v, e) && Roles(w, e)
    ensures TokenCalm(w, v, z) && GrantCalm(w, v, z) && FarewellCalm(w, v, z)
    ensures z != e ==> OnlyAt(w, v, z)
    ensures z in w.connected ==> At(v, z).remoteDev == At(w, z).remoteDev
  {
    hide Shape;
  }

  lemma QuietStep(w: World, v: World, e: Ep)
    requires Inv(w) && QuietChange(w, v, e)
    ensures Inv(v)
  {
    RolesOf(w, e);
    forall z ensures TokenCalm(w, v, z) && GrantCalm(w, v, z) && FarewellCalm(w, v, z)
      && (z != e ==> OnlyAt(w, v, z)) && (z in w.connected ==> At(v, z).remoteDev == At(w, z).remoteDev)
    {
      QuietCalm(w, v, e, z);
    }
    hide At, Shape, Unnoticed, Plays;
    ShapeStep(w, v, {e});
    ActiveFrame(w, v);
    CalmStep(w, v);
  }

  /** Nobody's part in anything changes. */
  lemma CalmStep(w: World, v: World)
    requires Inv(w) && v.next == w.next && v.clock == w.clock && v.wire == w.wire
    requires forall z :: TokenCalm(w, v, z)
    requires forall z :: GrantCalm(w, v, z)
    requires forall z :: FarewellCalm(w, v, z)
    ensures TokenInv(v) && GrantInv(v) && FarewellInv(v)
  {
    hide At, Shape, Plays, TokenCalm, GrantCalm, FarewellCalm;
    forall z ensures Roles(w, z) { RolesOf(w, z); }
    TokenStep(w, v, {}, {}, {});
    GrantStep(w, v, {}, {}, {});
    FarewellStep(w, v, {}, {}, {});
  }

  // ------------------------------------------------ quiet steps

  lemma OpenKeeps(w: World, e: Ep)
    requires Inv(w) && e !in w.eps && At(w, e).state.Unopened?
    ensures Inv(Put(w, e, At(w, e).(state := Unbound)))
  {
    hide Shape, Plays, Unnoticed, TokenInv, GrantInv, FarewellInv, ActiveInv;
    RolesOf(w, e);
    OpenShape(At(w, e), w.listen[e], w.connected[e], w.disconnected[e], w.zombie[e]);
    QuietStep(w, Put(w, e, At(w, e).(state := Unbound)), e);
  }

  lemma BindKeeps(w: World, e: Ep, port: nat)
    requires Inv(w) && At(w, e).state.Unbound? && At(w, e).call.Idle?
    ensures Inv(Put(w, e, At(w, e).(state := Bound, port := port)))
  {
    hide Shape, Plays, Unnoticed, TokenInv, GrantInv, FarewellInv, ActiveInv;
    RolesOf(w, e);
    BindShape(At(w, e), w.listen[e], w.connected[e], w.disconnected[e], w.zombie[e], port);
    QuietStep(w, Put(w, e, At(w, e).(state := Bound, port := port)), e);
  }

  lemma ListenBeginKeeps(w: World, e: Ep, backlog: int)
    requires Inv(w) && At(w, e).state.Bound? && At(w, e).call.Idle?
    ensures Inv(Put(w, e, At(w, e).(state := Listening, call := ListenAdd, backlog := backlog, conreqcnt := 0,
                                    conlist := [])))
  {
    hide Shape, Plays, Unnoticed, TokenInv, GrantInv, FarewellInv, ActiveInv;
    RolesOf(w, e);
    ListenBeginShape(At(w, e), w.listen[e], w.connected[e], w.disconnected[e], w.zombie[e], backlog);
    QuietStep(w, Put(w, e, At(w, e).(state := Listening, call := ListenAdd, backlog := backlog, conreqcnt := 0,
                                     conlist := [])), e);
  }

  lemma ListenEndKeeps(w: World, e: Ep)
    requires Inv(w) && At(w, e).call.ListenAdd?
    ensures Inv(Put(w, e, At(w, e).(call := Idle)).(listen := w.listen + multiset{e}))
  {
    hide Shape, Plays, Unnoticed, TokenInv, GrantInv, FarewellInv, ActiveInv;
    RolesOf(w, e);
    ListenEndShape(At(w, e), w.listen[e], w.connected[e], w.disconnected[e], w.zombie[e]);
    QuietStep(w, Put(w, e, At(w, e).(call := Idle)).(listen := w.listen + multiset{e}), e);
  }

  lemma ConnectBeginKeeps(w: World, e: Ep, dst: PortId, port: nat)
    requires Inv(w) && At(w, e).call.Idle?
    requires At(w, e).state.Unbound? || (At(w, e).state.Bound? && port == At(w, e).port)
    ensures Inv(Put(w, e,
                    At(w, e).(state := Connecting, call := ConnectPrep(dst), port := port, remoteDev := dst.node)))
  {
    hide Shape, Plays, Unnoticed, TokenInv, GrantInv, FarewellInv, ActiveInv;
    RolesOf(w, e);
    ConnectBeginShape(At(w, e), w.listen[e], w.connected[e], w.disconnected[e], w.zombie[e], dst, port);
    QuietStep(w, Put(w, e, At(w, e).(state := Connecting, call := ConnectPrep(dst), port := port,
                                     remoteDev := dst.node)), e);
  }

  lemma ConnectFailKeeps(w: World, e: Ep)
    requires Inv(w) && At(w, e).call.ConnectPrep?
    ensures Inv(Put(w, e, At(w, e).(state := Bound, call := Idle)))
  {
    hide Shape, Plays, Unnoticed, TokenInv, GrantInv, FarewellInv, ActiveInv;
    RolesOf(w, e);
    ConnectPrepShape(At(w, e), w.listen[e], w.connected[e], w.disconnected[e], w.zombie[e], 0);
    QuietStep(w, Put(w, e, At(w, e).(state := Bound, call := Idle)), e);
  }

  lemma ConnectEndKeeps(w: World, e: Ep, mapped: bool)
    requires Inv(w) && (At(w, e).call.ConnectWait? || At(w, e).call.ConnectTerm?)
    requires !At(w, e).state.Connecting? && !At(w, e).state.Mapping?
    ensures Inv(ConnectFinishNext(w, e, mapped))
  {
    hide Shape, Plays, Unnoticed, TokenInv, GrantInv, FarewellInv, ActiveInv;
    RolesOf(w, e);
    ConnectWaitShape(At(w, e), w.listen[e], w.connected[e], w.disconnected[e], w.zombie[e]);
    QuietStep(w, ConnectFinishNext(w, e, mapped), e);
  }

  lemma AcceptFinishKeeps(w: World, e: Ep)
    requires Inv(w) && At(w, e).call.AcceptWait? && !At(w, e).state.Connecting?
    ensures Inv(AcceptFinishNext(w, e))
  {
    hide Shape, Plays, Unnoticed, TokenInv, GrantInv, FarewellInv, ActiveInv;
    RolesOf(w, e);
    AcceptFinishShape(At(w, e), w.listen[e], w.connected[e], w.disconnected[e], w.zombie[e]);
    QuietStep(w, AcceptFinishNext(w, e), e);
  }

  lemma FlushBeginKeeps(w: World, e: Ep)
    requires Inv(w) && ((At(w, e).call.Idle? && At(w, e).state.Connected?) || At(w, e).state.Listening?)
    ensures Inv(FlushBeginNext(w, e))
  {
    hide Shape, Plays, Unnoticed, TokenInv, GrantInv, FarewellInv, ActiveInv;
    RolesOf(w, e);
    if At(w, e).state.Listening? {
      ClListenShape(At(w, e), w.listen[e], w.connected[e], w.disconnected[e], w.zombie[e]);
    } else {
      FlushBeginShape(At(w, e), w.listen[e], w.connected[e], w.disconnected[e], w.zombie[e]);
    }
    QuietStep(w, FlushBeginNext(w, e), e);
  }

  lemma FlushLateKeeps(w: World, e: Ep)
    requires Inv(w) && At(w, e).looks > 0 && e !in w.connected
    ensures Inv(FlushLookupNext(w, e))
  {
    hide Shape, Plays, Unnoticed, TokenInv, GrantInv, FarewellInv, ActiveInv;
    RolesOf(w, e);
    FlushLateShape(At(w, e), w.listen[e], w.connected[e], w.disconnected[e], w.zombie[e]);
    QuietStep(w, FlushLookupNext(w, e), e);
  }

  lemma FlushEndKeeps(w: World, e: Ep)
    requires Inv(w) && At(w, e).flushing && At(w, e).state.Disconnected?
    ensures Inv(FlushEndNext(w, e))
  {
    hide Shape, Plays, Unnoticed, TokenInv, GrantInv, FarewellInv, ActiveInv;
    RolesOf(w, e);
    FlushEndShape(At(w, e), w.listen[e], w.connected[e], w.disconnected[e], w.zombie[e]);
    QuietStep(w, FlushEndNext(w, e), e);
  }

  lemma CloseBeginKeeps(w: World, e: Ep)
    requires Inv(w) && At(w, e).call.Idle? && At(w, e).looks == 0 && !At(w, e).flushing && !At(w, e).state.Unopened?
    ensures Inv(Put(w, e, ClosingFrom(At(w, e))))
  {
    hide Shape, Plays, Unnoticed, TokenInv, GrantInv, FarewellInv, ActiveInv;
    RolesOf(w, e);
    CloseBeginShape(At(w, e), w.listen[e], w.connected[e], w.disconnected[e], w.zombie[e]);
    QuietStep(w, Put(w, e, ClosingFrom(At(w, e))), e);
  }

  lemma CloseLookKeeps(w: World, e: Ep)
    requires Inv(w) && At(w, e).call.CloseLook? && (At(w, e).call.origin.FromConnected? ==> e !in w.connected)
    ensures Inv(CloseLookupNext(w, e))
  {
    hide Shape, Plays, Unnoticed, TokenInv, GrantInv, FarewellInv, ActiveInv;
    RolesOf(w, e);
    CloseLookShape(At(w, e), w.listen[e], w.connected[e], w.disconnected[e], w.zombie[e], 0);
    QuietStep(w, CloseLookupNext(w, e), e);
  }

  lemma CloseRejectedKeeps(w: World, e: Ep)
    requires Inv(w) && At(w, e).call.CloseReject? && At(w, e).conlist == []
    ensures Inv(CloseRejectNext(w, e))
  {
    hide Shape, Plays, Unnoticed, TokenInv, GrantInv, FarewellInv, ActiveInv;
    RolesOf(w, e);
    CloseEndShape(At(w, e), w.listen[e], w.connected[e], w.disconnected[e], w.zombie[e]);
    QuietStep(w, CloseRejectNext(w, e), e);
  }

  lemma CloseAckedKeeps(w: World, e: Ep)
    requires Inv(w) && At(w, e).call.CloseWait? && At(w, e).state.Disconnected?
    ensures Inv(Put(w, e, At(w, e).(call := CloseDone)))
  {
    hide Shape, Plays, Unnoticed, TokenInv, GrantInv, FarewellInv, ActiveInv;
    RolesOf(w, e);
    CloseEndShape(At(w, e), w.listen[e], w.connected[e], w.disconnected[e], w.zombie[e]);
    QuietStep(w, Put(w, e, At(w, e).(call := CloseDone)), e);
  }

  lemma CloseFinishKeeps(w: World, e: Ep)
    requires Inv(w) && At(w, e).call.CloseDone?
    ensures Inv(CloseFinishNext(w, e))
  {
    hide Shape, Plays, Unnoticed, TokenInv, GrantInv, FarewellInv, ActiveInv;
    RolesOf(w, e);
    CloseEndShape(At(w, e), w.listen[e], w.connected[e], w.disconnected[e], w.zombie[e]);
    QuietStep(w, CloseFinishNext(w, e), e);
  }

  // ------------------------------------------------ steps that move a request or a reply

  /** The endpoint's part in a handshake or a connection does not change. */
  ghost predicate TokenOnly(a: Endpoint, b: Endpoint) {
    && b.link == a.link && b.accepted == a.accepted && b.joins == a.joins && b.remoteEp == a.remoteEp
    && b.peer == a.peer && b.grant == a.grant && b.port == a.port && b.remoteDev == a.remoteDev
    && b.farewell == a.farewell
    && b.state.Mapping? == a.state.Mapping? && !b.state.Unopened? && !b.state.Unbound?
  }

  /** The message is neither part of a grant nor of a disconnect. */
  predicate RequestKind(p: Packet) {
    p.Req? || p.Term? || p.Rej? || p.TermAck?
  }

  ghost predicate RequestWire(w: World, v: World, s: nat) {
    && (s in v.wire ==> (s in w.wire && w.wire[s] == v.wire[s]) || RequestKind(v.wire[s]))
    && (s in w.wire ==> (s in v.wire && w.wire[s] == v.wire[s]) || RequestKind(w.wire[s]))
  }

  ghost predicate SameLists(w: World, v: World) {
    && v.listen == w.listen && v.connected == w.connected && v.disconnected == w.disconnected && v.zombie == w.zombie
    && v.active == w.active
  }

  lemma RequestStep(w: World, v: World, ex: set<Ep>)
    requires Inv(w) && TokenInv(v) && SameLists(w, v)
    requires forall e :: e !in ex ==> OnlyAt(w, v, e)
    requires forall e :: e in ex ==> ShapeAt(v, e) && TokenOnly(At(w, e), At(v, e))
    requires forall s :: RequestWire(w, v, s)
    ensures Inv(v)
  {
    hide At, Shape, Plays, TokenInv;
    ShapeStep(w, v, ex);
    forall z ensures Roles(w, z) { RolesOf(w, z); }
    forall z ensures GrantCalm(w, v, z) && FarewellCalm(w, v, z) && At(v, z).remoteDev == At(w, z).remoteDev {
      if z !in ex { assert OnlyAt(w, v, z); }
    }
    forall s ensures GrantWire(w, v, s) && FarewellWire(w, v, s) { assert RequestWire(w, v, s); }
    GrantStep(w, v, {}, {}, {});
    FarewellStep(w, v, {}, {}, {});
    ActiveFrame(w, v);
  }

  /** Whom a message, a queue or an accept call speaks for. */
  lemma RequestOwner(w: World, s: nat)
    requires TokenInv(w) && s in w.wire && IsRequest(w.wire[s])
    ensures At(w, Party(w.wire[s])).token == OnWire(s)
  {
    assert RequestPacket(w, s);
  }

  lemma QueueOwners(w: World, l: Ep)
    requires TokenInv(w)
    ensures forall r :: r in At(w, l).conlist ==> At(w, r.from).token == Queued(l, r) && r.stamp < w.clock
  {
    assert RequestsAt(w, l);
  }

  lemma HoldOwner(w: World, c: Ep)
    requires TokenInv(w) && At(w, c).call.AcceptTake?
    ensures At(w, At(w, c).call.req.from).token == Held(c) && At(w, c).remoteEp == At(w, c).call.req.from
  {
    assert RequestsAt(w, c);
  }

  /** The endpoint takes part in something. */
  predicate Engaged(x: Endpoint, l: int) {
    x.call.ConnectPrep? || x.call.ConnectWait? || !x.token.NoToken? || x.conlist != [] || x.call.AcceptTake? || l > 0
  }

  /** What the fields of an endpoint say of its state. */
  lemma StateSays(x: Endpoint, l: nat, c: nat, d: nat, z: nat)
    requires Shape(x, l, c, d, z)
    ensures Engaged(x, l) || c > 0 ==> !x.state.Unopened? && !x.state.Unbound?
    ensures !x.token.NoToken? ==> x.state.Connecting? && l == 0
    ensures x.state.Unopened? ==> l + c + d + z == 0
    ensures QueueShape(x)
  {
  }

  /** What every step may know of an endpoint it touches. */
  ghost predicate Known(w: World, e: Ep) {
    var x := At(w, e);
    && (Engaged(x, w.listen[e]) || w.connected[e] > 0 ==> !x.state.Unopened? && !x.state.Unbound?)
    && (!x.token.NoToken? ==> x.state.Connecting? && w.listen[e] == 0)
    && (e !in w.eps ==> w.listen[e] + w.connected[e] + w.disconnected[e] + w.zombie[e] == 0)
    && Roles(w, e) && ShapeAt(w, e) && QueueShape(x)
  }

  lemma Know(w: World, e: Ep)
    requires Inv(w)
    ensures Known(w, e) && w.next !in w.wire
  {
    hide Shape, Plays, QueueShape, Engaged;
    RolesOf(w, e);
    StateSays(At(w, e), w.listen[e], w.connected[e], w.disconnected[e], w.zombie[e]);
  }

  lemma ConnectSendKeeps(w: World, e: Ep)
    requires Inv(w) && At(w, e).call.ConnectPrep?
    ensures Inv(ConnectSendNext(w, e))
  {
    hide Shape, Plays, TokenInv, GrantInv, FarewellInv, ActiveInv;
    Know(w, e);
    ConnectSendTokens(w, e);
    ConnectPrepShape(At(w, e), w.listen[e], w.connected[e], w.disconnected[e], w.zombie[e], w.next);
    RequestStep(w, ConnectSendNext(w, e), {e});
  }

  lemma ConnectInterruptKeeps(w: World, e: Ep)
    requires Inv(w) && At(w, e).call.ConnectWait?
    ensures Inv(ConnectInterruptNext(w, e))
  {
    hide Shape, Plays, TokenInv, GrantInv, FarewellInv, ActiveInv;
    Know(w, e);
    ConnectInterruptTokens(w, e);
    ConnectWaitShape(At(w, e), w.listen[e], w.connected[e], w.disconnected[e], w.zombie[e]);
    RequestStep(w, ConnectInterruptNext(w, e), {e});
  }

  lemma AcceptFailKeeps(w: World, c: Ep)
    requires Inv(w) && At(w, c).call.AcceptTake?
    ensures Inv(AcceptFailNext(w, c))
  {
    hide Shape, Plays, TokenInv, GrantInv, FarewellInv, ActiveInv;
    var e := At(w, c).call.req.from;
    Know(w, c);
    Know(w, e);
    HoldOwner(w, c);
    AcceptFailTokens(w, c);
    AcceptTakeShape(At(w, c), w.listen[c], w.connected[c], w.disconnected[c], w.zombie[c], 0);
    TokenMoveShape(At(w, e), w.listen[e], w.connected[e], w.disconnected[e], w.zombie[e], w.next, NoToken);
    RequestStep(w, AcceptFailNext(w, c), {c, e});
  }

  lemma AnswerQueuedKeeps(w: World, l: Ep, i: nat, p: Packet)
    requires Inv(w) && Answers(w, l, i, p)
    ensures Inv(AnswerQueued(w, l, i, p))
  {
    hide Shape, Plays, TokenInv, GrantInv, FarewellInv, ActiveInv;
    Know(w, l);
    Know(w, p.to);
    AnswersAnother(w, l, i, p);
    AnswerQueuedTokens(w, l, i, p);
    AnswerQueuedAt(w, l, i, p);
    var v := AnswerQueued(w, l, i, p);
    hide Unqueued;
    UnqueuedShape(At(w, l), w.listen[l], w.connected[l], w.disconnected[l], w.zombie[l], i);
    TokenMoveShape(At(w, p.to), w.listen[p.to], w.connected[p.to], w.disconnected[p.to], w.zombie[p.to], w.next,
                   NoToken);
    RequestStep(w, v, {l, p.to});
  }

  lemma CloseRejectKeeps(w: World, e: Ep)
    requires Inv(w) && At(w, e).conlist != []
    ensures Inv(CloseRejectNext(w, e))
  {
    hide Shape, Plays, TokenInv, GrantInv, FarewellInv, ActiveInv;
    var r := At(w, e).conlist[0];
    QueueOwners(w, e);
    Know(w, e);
    Know(w, r.from);
    AnswerQueuedKeeps(w, e, 0, Rej(r.from, e.node, r.id));
  }

  lemma OnReqQueuedKeeps(w: World, s: nat, l: Ep)
    requires Inv(w) && Deliverable(w, s) && w.wire[s].Req? && OnListen(w, l, w.wire[s].dst)
    requires At(w, l).conreqcnt < At(w, l).backlog
    ensures Inv(OnReqNext(w, s, l, true))
  {
    hide Shape, Plays, TokenInv, GrantInv, FarewellInv, ActiveInv;
    var e := w.wire[s].from;
    var r := Request(e, w.wire[s].src, s, w.clock);
    Know(w, l);
    Know(w, e);
    RequestOwner(w, s);
    QueueOwners(w, l);
    OnReqQueuedTokens(w, s, l);
    QueuedShape(At(w, l), w.listen[l], w.connected[l], w.disconnected[l], w.zombie[l], r);
    TokenMoveShape(At(w, e), w.listen[e], w.connected[e], w.disconnected[e], w.zombie[e], w.next, Queued(l, r));
    RequestStep(w, OnReqNext(w, s, l, true), {l, e});
  }

  lemma OnReqRejectedKeeps(w: World, s: nat, l: Ep, queued: bool)
    requires Inv(w) && Deliverable(w, s) && w.wire[s].Req? && !(queued && At(w, l).conreqcnt < At(w, l).backlog)
    ensures Inv(OnReqNext(w, s, l, queued))
  {
    hide Shape, Plays, TokenInv, GrantInv, FarewellInv, ActiveInv;
    var e := w.wire[s].from;
    Know(w, e);
    RequestOwner(w, s);
    OnReqRejectedTokens(w, s, l, queued);
    TokenMoveShape(At(w, e), w.listen[e], w.connected[e], w.disconnected[e], w.zombie[e], w.next, NoToken);
    RequestStep(w, OnReqNext(w, s, l, queued), {e});
  }

  lemma OnTermLateKeeps(w: World, s: nat)
    requires Inv(w) && s in w.wire && w.wire[s].Term?
    ensures Inv(Taken(w, s))
  {
    hide Shape, Plays, TokenInv, GrantInv, FarewellInv, ActiveInv;
    OnTermLateTokens(w, s);
    RequestStep(w, Taken(w, s), {});
  }

  lemma OnTermFoundKeeps(w: World, s: nat, l: Ep)
    requires Inv(w) && s in w.wire && w.wire[s].Term? && OnListen(w, l, w.wire[s].dst) && FindsOwn(w, s, l)
    requires FindRequest(At(w, l).conlist, w.wire[s].from.addr) < |At(w, l).conlist|
    ensures Inv(OnTermNext(w, s, l, true))
  {
    hide Shape, Plays, TokenInv, GrantInv, FarewellInv, ActiveInv;
    var p := TermAck(w.wire[s].from, w.wire[s].dst.node, w.wire[s].id);
    Know(w, l);
    Know(w, p.to);
    TermFindsOwnRequest(w, s, l);
    OnTermLateKeeps(w, s);
    AnswerQueuedKeeps(Taken(w, s), l, FindRequest(At(w, l).conlist, p.to.addr), p);
  }

  lemma OnRejKeeps(w: World, s: nat)
    requires Inv(w) && Deliverable(w, s) && w.wire[s].Rej?
    ensures Inv(OnRejNext(w, s))
  {
    hide Shape, Plays, TokenInv, GrantInv, FarewellInv, ActiveInv;
    var e := w.wire[s].to;
    Know(w, e);
    RequestOwner(w, s);
    OnRejTokens(w, s);
    TokenEndShape(At(w, e), w.listen[e], w.connected[e], w.disconnected[e], w.zombie[e], NOBODY, NOWHERE);
    RequestStep(w, OnRejNext(w, s), {e});
  }

  lemma OnTermAckKeeps(w: World, s: nat)
    requires Inv(w) && Deliverable(w, s) && w.wire[s].TermAck?
    ensures Inv(OnTermAckNext(w, s))
  {
    hide Shape, Plays, TokenInv, GrantInv, FarewellInv, ActiveInv;
    var e := w.wire[s].to;
    Know(w, e);
    RequestOwner(w, s);
    OnTermAckTokens(w, s);
    TokenEndShape(At(w, e), w.listen[e], w.connected[e], w.disconnected[e], w.zombie[e], NOBODY, NOWHERE);
    RequestStep(w, OnTermAckNext(w, s), {e});
  }

  // ------------------------------------------------ steps of a handshake or a disconnect

  lemma TokensKeep(w: World, v: World, ex: set<Ep>)
    requires Inv(w) && v.next >= w.next && v.clock == w.clock
    requires forall e :: e !in ex ==> OnlyAt(w, v, e)
    requires forall e :: e in ex ==> TokenCalm(w, v, e)
    requires (forall s :: TokenWire(w, v, s)) && (forall s :: s in v.wire ==> s < v.next)
    ensures TokenInv(v)
  {
    hide At;
    forall e ensures TokenCalm(w, v, e) {
      if e !in ex { assert OnlyAt(w, v, e); }
    }
    TokenStep(w, v, {}, {}, {});
  }

  lemma GrantsKeep(w: World, v: World, ex: set<Ep>)
    requires Inv(w)
    requires forall e :: e !in ex ==> OnlyAt(w, v, e)
    requires forall e :: e in ex ==> GrantCalm(w, v, e)
    requires forall s :: GrantWire(w, v, s)
    ensures GrantInv(v)
  {
    hide At;
    forall e ensures GrantCalm(w, v, e) {
      if e !in ex { assert OnlyAt(w, v, e); }
    }
    GrantStep(w, v, {}, {}, {});
  }

  lemma FarewellsKeep(w: World, v: World, ex: set<Ep>)
    requires Inv(w)
    requires forall e :: e !in ex ==> OnlyAt(w, v, e)
    requires forall e :: e in ex ==> FarewellCalm(w, v, e)
    requires forall s :: FarewellWire(w, v, s)
    ensures FarewellInv(v)
  {
    hide At, Shape, Plays;
    forall e ensures FarewellCalm(w, v, e) && Roles(w, e) {
      RolesOf(w, e);
      if e !in ex { assert OnlyAt(w, v, e); }
    }
    FarewellStep(w, v, {}, {}, {});
  }

  lemma PairedInv(w: World)
    requires Inv(w)
    ensures Paired(w)
  {
    hide At, Shape, Plays;
    forall e ensures Roles(w, e) { RolesOf(w, e); }
  }

  lemma AcceptBeginKeeps(w: World, l: Ep, c: Ep)
    requires Inv(w) && At(w, l).conlist != [] && c.node == l.node && c !in w.eps
    ensures Inv(AcceptBeginNext(w, l, c))
  {
    hide Shape, TokenInv, GrantInv, FarewellInv, ActiveInv;
    var r := At(w, l).conlist[0];
    var v := AcceptBeginNext(w, l, c);
    QueueOwners(w, l);
    Know(w, l);
    Know(w, c);
    Know(w, r.from);
    AcceptBeginTokens(w, l, c);
    FirstRequest(w, l);
    AcceptBeginGrants(w, l, c);
    UnqueuedShape(At(w, l), w.listen[l], w.connected[l], w.disconnected[l], w.zombie[l], 0);
    TokenMoveShape(At(w, r.from), w.listen[r.from], w.connected[r.from], w.disconnected[r.from], w.zombie[r.from], 0,
                   Held(c));
    NewEndpointShape(At(w, l).port, r);
    ShapeStep(w, v, {l, c, r.from});
    FarewellsKeep(w, v, {l, c, r.from});
    ActiveFrame(w, v);
  }

  lemma FirstRequest(w: World, l: Ep)
    requires TokenInv(w) && At(w, l).conlist != []
    ensures var r := At(w, l).conlist[0]; r.src == PortId(r.from.node, At(w, r.from).port)
  {
    assert RequestsAt(w, l);
  }

  lemma AcceptGrantKeeps(w: World, c: Ep)
    requires Inv(w) && At(w, c).call.AcceptTake?
    ensures Inv(AcceptGrantNext(w, c))
  {
    hide Shape, TokenInv, GrantInv, FarewellInv, ActiveInv;
    var e := At(w, c).call.req.from;
    var v := AcceptGrantNext(w, c);
    HoldOwner(w, c);
    Know(w, c);
    Know(w, e);
    AcceptGrantTokens(w, c);
    NumbersGrow(w);
    AcceptGrantGrants(w, c);
    AcceptTakeShape(At(w, c), w.listen[c], w.connected[c], w.disconnected[c], w.zombie[c], w.next);
    TokenMoveShape(At(w, e), w.listen[e], w.connected[e], w.disconnected[e], w.zombie[e], w.next, NoToken);
    ShapeStep(w, v, {c, e});
    FarewellsKeep(w, v, {c, e});
    ActiveFrame(w, v);
  }

  lemma NumbersGrow(w: World)
    requires TokenInv(w)
    ensures forall s :: s in w.wire ==> s < w.next
  {
  }

  /** What a grant message, or a mapped grant, says of its two endpoints. */
  lemma GrantOwner(w: World, s: nat)
    requires GrantInv(w) && s in w.wire
    ensures w.wire[s].Gnt? ==> At(w, w.wire[s].cep).link == GrantSent(s)
    ensures w.wire[s].GntAck? ==> At(w, w.wire[s].to).link == AckSent(s)
                                  && w.wire[s].node == At(w, w.wire[s].to).remoteEp.node
    ensures w.wire[s].GntNack? ==> At(w, w.wire[s].to).link == NackSent(s)
  {
    assert GrantPacket(w, s);
  }

  lemma MappedGrant(w: World, e: Ep)
    requires GrantInv(w)
    ensures At(w, e).state.Mapping? ==> At(w, At(w, e).grant).link.Granted? && At(w, At(w, e).grant).remoteEp == e
    ensures At(w, e).accepted ==> At(w, e).remoteDev == At(w, e).remoteEp.node
    ensures At(w, e).joins == 1 ==>
              && At(w, e).remoteDev == At(w, e).remoteEp.node && At(w, At(w, e).remoteEp).remoteEp == e
              && At(w, e).accepted != At(w, At(w, e).remoteEp).accepted
  {
    assert GrantAt(w, e) && AcceptedAt(w, e) && PairAt(w, e);
  }

  lemma RequestDevice(w: World, s: nat)
    requires TokenInv(w) && s in w.wire && w.wire[s].Gnt?
    ensures At(w, w.wire[s].to).remoteDev == w.wire[s].src.node
  {
    assert RequestPacket(w, s);
  }

  lemma OnGntKeeps(w: World, s: nat)
    requires Inv(w) && Deliverable(w, s) && w.wire[s].Gnt?
    ensures Inv(OnGntNext(w, s))
  {
    hide Shape, TokenInv, GrantInv, FarewellInv, ActiveInv;
    var e, c := w.wire[s].to, w.wire[s].cep;
    var v := OnGntNext(w, s);
    RequestOwner(w, s);
    GrantOwner(w, s);
    RequestDevice(w, s);
    Know(w, e);
    Know(w, c);
    OnGntTokens(w, s);
    OnGntGrants(w, s);
    TokenEndShape(At(w, e), w.listen[e], w.connected[e], w.disconnected[e], w.zombie[e], w.wire[s].src, c);
    LinkMoveShape(At(w, c), w.listen[c], w.connected[c], w.disconnected[c], w.zombie[c], Granted);
    ShapeStep(w, v, {e, c});
    FarewellsKeep(w, v, {e, c});
    ActiveFrame(w, v);
  }

  lemma ConnectDoneKeeps(w: World, e: Ep)
    requires Inv(w) && At(w, e).state.Mapping?
    ensures Inv(ConnectDone(w, e))
  {
    hide *;
    ConnectDonePairs(w, e);
    ConnectDoneRest(w, e);
    InvOf(ConnectDone(w, e));
  }

  lemma InvOf(w: World)
    requires ShapeInv(w) && TokenInv(w) && GrantInv(w) && FarewellInv(w) && ActiveInv(w)
    ensures Inv(w)
  {
  }

  lemma ConnectDonePairs(w: World, e: Ep)
    requires Inv(w) && At(w, e).state.Mapping?
    ensures GrantInv(ConnectDone(w, e)) && FarewellInv(ConnectDone(w, e))
  {
    hide Shape, TokenInv, GrantInv, FarewellInv, ActiveInv;
    MappedGrant(w, e);
    Know(w, e);
    Know(w, At(w, e).grant);
    NumbersGrow(w);
    PairedInv(w);
    ConnectDoneGrants(w, e);
    ConnectDoneFarewells(w, e);
  }

  lemma ConnectDoneRest(w: World, e: Ep)
    requires Inv(w) && At(w, e).state.Mapping?
    ensures ShapeInv(ConnectDone(w, e)) && TokenInv(ConnectDone(w, e)) && ActiveInv(ConnectDone(w, e))
  {
    hide Shape, TokenInv, GrantInv, FarewellInv, ActiveInv;
    var c := At(w, e).grant;
    var v := ConnectDone(w, e);
    MappedGrant(w, e);
    Know(w, e);
    Know(w, c);
    NumbersGrow(w);
    MappingShape(At(w, e), w.listen[e], w.connected[e], w.disconnected[e], w.zombie[e]);
    LinkMoveShape(At(w, c), w.listen[c], w.connected[c], w.disconnected[c], w.zombie[c], AckSent(w.next));
    ShapeStep(w, v, {e, c});
    TokensKeep(w, v, {e, c});
    ActiveJoin(w, v, e, At(w, e).remoteDev);
  }

  lemma ConnectRefuseKeeps(w: World, e: Ep)
    requires Inv(w) && At(w, e).state.Mapping?
    ensures Inv(ConnectRefuse(w, e))
  {
    hide Shape, TokenInv, GrantInv, FarewellInv, ActiveInv;
    var c := At(w, e).grant;
    var v := ConnectRefuse(w, e);
    MappedGrant(w, e);
    Know(w, e);
    Know(w, c);
    NumbersGrow(w);
    ConnectRefuseGrants(w, e);
    MappingShape(At(w, e), w.listen[e], w.connected[e], w.disconnected[e], w.zombie[e]);
    LinkMoveShape(At(w, c), w.listen[c], w.connected[c], w.disconnected[c], w.zombie[c], NackSent(w.next));
    ShapeStep(w, v, {e, c});
    TokensKeep(w, v, {e, c});
    FarewellsKeep(w, v, {e, c});
    ActiveFrame(w, v);
  }

  lemma OnGntAckKeeps(w: World, s: nat)
    requires Inv(w) && s in w.wire && w.wire[s].GntAck?
    ensures Inv(OnGntAckNext(w, s))
  {
    hide Shape, TokenInv, GrantInv, FarewellInv, ActiveInv;
    var c := w.wire[s].to;
    var v := OnGntAckNext(w, s);
    GrantOwner(w, s);
    Know(w, c);
    MappedGrant(w, c);
    NumbersGrow(w);
    PairedInv(w);
    OnGntAckGrants(w, s);
    OnGntAckFarewells(w, s);
    LinkMoveShape(At(w, c), w.listen[c], w.connected[c], w.disconnected[c], w.zombie[c], Linked);
    ShapeStep(w, v, {c});
    TokensKeep(w, v, {c});
    ActiveJoin(w, v, c, w.wire[s].node);
  }

  lemma OnGntNackKeeps(w: World, s: nat)
    requires Inv(w) && s in w.wire && w.wire[s].GntNack?
    ensures Inv(OnGntNackNext(w, s))
  {
    hide Shape, TokenInv, GrantInv, FarewellInv, ActiveInv;
    var c := w.wire[s].to;
    var v := OnGntNackNext(w, s);
    GrantOwner(w, s);
    Know(w, c);
    NumbersGrow(w);
    OnGntNackGrants(w, s);
    LinkMoveShape(At(w, c), w.listen[c], w.connected[c], w.disconnected[c], w.zombie[c], Refused);
    ShapeStep(w, v, {c});
    TokensKeep(w, v, {c});
    FarewellsKeep(w, v, {c});
    ActiveFrame(w, v);
  }

  /** The endpoint has left mi_connected and said so to its peer. */
  ghost predicate Departs(w: World, v: World, e: Ep) {
    && v.wire == w.wire[w.next := Discnct(At(w, e).remoteEp, e)] && v.next == w.next + 1 && v.clock == w.clock
    && v.connected == w.connected - multiset{e} && v.active == Leave(w, e, At(w, e).remoteDev).active
    && At(v, e).farewell == DiscnctSent(w.next) && At(v, e).remoteDev == At(w, e).remoteDev
    && TokenCalm(w, v, e) && GrantCalm(w, v, e)
    && forall z :: z != e ==> OnlyAt(w, v, z)
  }

  lemma DepartKeeps(w: World, v: World, e: Ep)
    requires Inv(w) && w.connected[e] == 1 && ShapeAt(v, e) && Departs(w, v, e)
    ensures Inv(v)
  {
    hide At, Shape, Plays, TokenInv, GrantInv, FarewellInv, ActiveInv;
    NumbersGrow(w);
    PairedInv(w);
    forall z | z != e ensures At(v, z) == At(w, z) && v.connected[z] == w.connected[z] { assert OnlyAt(w, v, z); }
    DepartFarewells(w, v, e);
    ShapeStep(w, v, {e});
    TokensKeep(w, v, {e});
    GrantsKeep(w, v, {e});
    ActiveLeave(w, v, e, At(w, e).remoteDev);
  }

  lemma FlushKeeps(w: World, e: Ep)
    requires Inv(w) && At(w, e).looks > 0 && e in w.connected
    ensures Inv(FlushLookupNext(w, e))
  {
    hide Shape, TokenInv, GrantInv, FarewellInv, ActiveInv;
    Know(w, e);
    FlushFoundShape(At(w, e), w.listen[e], w.connected[e], w.disconnected[e], w.zombie[e], w.next);
    DepartKeeps(w, FlushLookupNext(w, e), e);
  }

  lemma CloseKeeps(w: World, e: Ep)
    requires Inv(w) && At(w, e).call == CloseLook(FromConnected) && e in w.connected
    ensures Inv(CloseLookupNext(w, e))
  {
    hide Shape, TokenInv, GrantInv, FarewellInv, ActiveInv;
    Know(w, e);
    CloseLookShape(At(w, e), w.listen[e], w.connected[e], w.disconnected[e], w.zombie[e], w.next);
    DepartKeeps(w, CloseLookupNext(w, e), e);
  }

  lemma FarewellOwner(w: World, s: nat)
    requires FarewellInv(w) && s in w.wire
    ensures w.wire[s].Discnct? ==>
              At(w, w.wire[s].from).farewell == DiscnctSent(s) && At(w, w.wire[s].from).remoteEp == w.wire[s].to
    ensures w.wire[s].DiscntAck? ==> At(w, w.wire[s].to).farewell == DiscntAckSent(s)
  {
    assert FarewellPacket(w, s);
  }

  /** The disconnect of `e` has reached `f`, which is off mi_connected now, and is acknowledged. */
  ghost predicate Acknowledged(w: World, v: World, s: nat, e: Ep, f: Ep) {
    && v.wire == (w.wire - {s})[w.next := DiscntAck(e, f.node)] && v.next == w.next + 1 && v.clock == w.clock
    && At(v, e) == At(w, e).(farewell := DiscntAckSent(w.next)) && v.connected[e] == w.connected[e]
    && v.connected[f] == 0
    && At(v, f).farewell == At(w, f).farewell && TokenCalm(w, v, f) && GrantCalm(w, v, f)
    && forall z :: z != e && z != f ==> OnlyAt(w, v, z)
  }

  lemma AcknowledgeKeeps(w: World, v: World, s: nat, e: Ep, f: Ep)
    requires Inv(w) && Deliverable(w, s) && w.wire[s] == Discnct(f, e) && Acknowledged(w, v, s, e, f)
    requires ShapeAt(v, e) && ShapeAt(v, f) && ActiveInv(v) && (e in w.eps ==> e in v.eps)
    ensures Inv(v)
  {
    hide At, Shape, Plays, TokenInv, GrantInv, FarewellInv, ActiveInv;
    NumbersGrow(w);
    PairedInv(w);
    Know(w, e);
    forall z | z != e && z != f ensures At(v, z) == At(w, z) && v.connected[z] == w.connected[z] {
      assert OnlyAt(w, v, z);
    }
    AnswerFarewells(w, v, s, e, f);
    ShapeStep(w, v, {e, f});
    TokensKeep(w, v, {e, f});
    GrantsKeep(w, v, {e, f});
  }

  /** The two ends of a disconnect in flight. */
  lemma Partners(w: World, s: nat)
    requires Inv(w) && s in w.wire && w.wire[s].Discnct?
    ensures var e, f := w.wire[s].from, w.wire[s].to;
            && e != f && At(w, e).farewell == DiscnctSent(s) && At(w, f).remoteDev == e.node && w.connected[f] <= 1
            && w.connected[e] == 0 && ShapeAt(w, e) && ShapeAt(w, f) && e in w.eps && f in w.eps
            && (w.connected[f] > 0 ==> At(w, f).joins == 1 && !At(w, f).state.Unopened? && !At(w, f).state.Unbound?)
            && !At(w, f).state.Mapping?
  {
    hide Shape;
    var e := w.wire[s].from;
    FarewellOwner(w, s);
    Know(w, e);
    Know(w, w.wire[s].to);
    assert PairAt(w, e) && PairAt(w, w.wire[s].to) && AcceptedAt(w, w.wire[s].to);
  }

  lemma OnDiscnctShapes(w: World, s: nat)
    requires Inv(w) && s in w.wire && w.wire[s].Discnct?
    ensures ShapeAt(OnDiscnctNext(w, s), w.wire[s].from) && ShapeAt(OnDiscnctNext(w, s), w.wire[s].to)
  {
    hide Shape, TokenInv, GrantInv, FarewellInv, ActiveInv;
    var e, f := w.wire[s].from, w.wire[s].to;
    Partners(w, s);
    DisconnectShape(At(w, e), w.listen[e], w.connected[e], w.disconnected[e], w.zombie[e], w.next);
    DisconnectShape(At(w, f), w.listen[f], w.connected[f], w.disconnected[f], w.zombie[f], w.next);
  }

  lemma OnDiscnctDevices(w: World, s: nat, z: Ep)
    requires s in w.wire && w.wire[s].Discnct?
    ensures At(OnDiscnctNext(w, s), z).remoteDev == At(w, z).remoteDev
  {
  }

  lemma OnDiscnctActive(w: World, s: nat)
    requires Inv(w) && s in w.wire && w.wire[s].Discnct?
    ensures ActiveInv(OnDiscnctNext(w, s))
  {
    hide At, Shape, Plays, TokenInv, GrantInv, FarewellInv, ActiveInv;
    var v := OnDiscnctNext(w, s);
    var f := w.wire[s].to;
    Partners(w, s);
    forall z ensures At(v, z).remoteDev == At(w, z).remoteDev { OnDiscnctDevices(w, s, z); }
    if f in w.connected {
      assert v.connected + multiset{f} == w.connected;
      ActiveLeave(w, v, f, w.wire[s].from.node);
    } else {
      ActiveFrame(w, v);
    }
  }

  lemma OnDiscnctEffect(w: World, s: nat)
    requires Inv(w) && s in w.wire && w.wire[s].Discnct?
    ensures Acknowledged(w, OnDiscnctNext(w, s), s, w.wire[s].from, w.wire[s].to)
  {
    hide Shape, TokenInv, GrantInv, FarewellInv, ActiveInv;
    Partners(w, s);
  }

  lemma OnDiscnctKeeps(w: World, s: nat)
    requires Inv(w) && Deliverable(w, s) && w.wire[s].Discnct?
    ensures Inv(OnDiscnctNext(w, s))
  {
    hide Shape, TokenInv, GrantInv, FarewellInv, ActiveInv;
    OnDiscnctShapes(w, s);
    OnDiscnctActive(w, s);
    OnDiscnctEffect(w, s);
    AcknowledgeKeeps(w, OnDiscnctNext(w, s), s, w.wire[s].from, w.wire[s].to);
  }

  lemma OnDiscntAckKeeps(w: World, s: nat)
    requires Inv(w) && Deliverable(w, s) && w.wire[s].DiscntAck?
    ensures Inv(OnDiscntAckNext(w, s))
  {
    hide Shape, TokenInv, GrantInv, FarewellInv, ActiveInv;
    var e := w.wire[s].to;
    var v := OnDiscntAckNext(w, s);
    FarewellOwner(w, s);
    Know(w, e);
    NumbersGrow(w);
    PairedInv(w);
    OnDiscntAckFarewells(w, s);
    DisconnectShape(At(w, e), w.listen[e], w.connected[e], w.disconnected[e], w.zombie[e], w.next);
    ShapeStep(w, v, {e});
    TokensKeep(w, v, {e});
    GrantsKeep(w, v, {e});
    ActiveFrame(w, v);
  }
}
