/**
 A connect call reaches the port it names: its request is queued, held and granted only
 where that port listens.
 */
module ConnectionAim {
  import opened ConnectionSpec
  import opened ConnectionInv
  import opened ConnectionTokens
  import opened ConnectionGrants
  import opened ConnectionFarewells
  import opened ConnectionSteps

  // ------------------------------------------------ what is kept

  predicate Dialing(x: Endpoint) {
    x.call.ConnectPrep? || x.call.ConnectWait? || x.call.ConnectTerm?
  }

  /** The endpoint's connect call is for port `d`. */
  predicate Wants(w: World, e: Ep, d: PortId) {
    Dialing(At(w, e)) && At(w, e).call.dst == d
  }

  /** Whoever is queued on the endpoint or held by it asked for its port, and a grant comes from the port asked for. */
  ghost predicate Directed(w: World, e: Ep) {
    var x := At(w, e);
    && (forall r :: r in x.conlist ==> Wants(w, r.from, PortId(e.node, x.port)))
    && (x.call.AcceptTake? ==> Wants(w, x.call.req.from, PortId(e.node, x.port)))
    && (x.state.Mapping? ==> Wants(w, e, x.peer))
  }

  /** A request goes where its call wants to, a grant comes from there, and so does a termination go there. */
  ghost predicate DirectedPacket(w: World, s: nat) {
    s in w.wire ==>
      match w.wire[s]
      case Req(from, _, dst) => Wants(w, from, dst)
      case Gnt(to, src, _, _) => Wants(w, to, src)
      case Term(from, _, dst, id) =>
        id < s && (At(w, from).call.ConnectTerm? && At(w, from).attempt == id ==> Wants(w, from, dst))
      case _ => true
  }

  ghost predicate AimInv(w: World) {
    (forall e :: Directed(w, e)) && (forall s :: DirectedPacket(w, s))
  }

  // ------------------------------------------------ what a step does to one endpoint

  /** A connect call with a request or a reply somewhere stays the call it is. */
  ghost predicate SameCall(x: Endpoint, y: Endpoint) {
    && (!x.token.NoToken? && Dialing(x) ==> Dialing(y) && y.call.dst == x.call.dst)
    && (y.call.ConnectTerm? ==>
          (x.call.ConnectTerm? || x.call.ConnectWait?) && y.call.dst == x.call.dst && y.attempt == x.attempt)
  }

  /** Nobody new is queued or held, and no grant has come. */
  ghost predicate NoneNew(x: Endpoint, y: Endpoint) {
    && (y.conlist != [] || y.call.AcceptTake? ==> y.port == x.port)
    && (forall r :: r in y.conlist ==> r in x.conlist)
    && (y.call.AcceptTake? ==> y.call == x.call)
    && (y.state.Mapping? ==>
          x.state.Mapping? && y.peer == x.peer && (Dialing(x) ==> Dialing(y) && y.call.dst == x.call.dst))
  }

  /** A call under way is the one that was, and a connection comes of the call that was under way. */
  ghost predicate SameStory(x: Endpoint, y: Endpoint) {
    && (Dialing(y) ==> Dialing(x) && y.call.dst == x.call.dst)
    && (y.joins == 1 && !y.accepted ==> y.peer == x.peer && !x.accepted && (x.joins == 1 || x.state.Mapping?))
  }

  ghost predicate Moved(w: World, v: World, e: Ep) {
    SameCall(At(w, e), At(v, e)) && (NoneNew(At(w, e), At(v, e)) || Directed(v, e))
  }

  /** The invariant holds afterwards, and no endpoint begins a connect call. */
  ghost predicate OnCourse(w: World, v: World) {
    AimInv(v) && forall e :: SameStory(At(w, e), At(v, e))
  }

  lemma SameMoved(w: World, v: World, e: Ep)
    requires At(v, e) == At(w, e)
    ensures Moved(w, v, e) && NoneNew(At(w, e), At(v, e))
  {
    hide At;
  }

  lemma StaysWanted(w: World, v: World, e: Ep, d: PortId)
    requires Moved(w, v, e) && Wants(w, e, d) && !At(w, e).token.NoToken?
    ensures Wants(v, e, d)
  {
    hide At, NoneNew, Directed;
  }

  lemma DirectedStays(w: World, v: World, e: Ep)
    requires RequestsAt(w, e) && Directed(w, e) && (forall f :: Moved(w, v, f))
    ensures Directed(v, e)
  {
    assert Moved(w, v, e);
    hide At, Moved;
    if NoneNew(At(w, e), At(v, e)) {
      forall r | r in At(v, e).conlist ensures Wants(v, r.from, PortId(e.node, At(v, e).port)) {
        StaysWanted(w, v, r.from, PortId(e.node, At(w, e).port));
      }
      if At(v, e).call.AcceptTake? {
        StaysWanted(w, v, At(w, e).call.req.from, PortId(e.node, At(w, e).port));
      }
    }
  }

  lemma PacketStays(w: World, v: World, s: nat)
    requires RequestPacket(w, s) && TermPacket(w, s) && DirectedPacket(w, s) && (forall f :: Moved(w, v, f))
    requires s in w.wire && s in v.wire && v.wire[s] == w.wire[s]
    ensures DirectedPacket(v, s)
  {
    hide At, Moved;
    match w.wire[s]
    case Req(from, _, dst) => StaysWanted(w, v, from, dst);
    case Gnt(to, src, _, _) => StaysWanted(w, v, to, src);
    case Term(from, _, _, _) =>
      assert SameCall(At(w, from), At(v, from)) by { assert Moved(w, v, from); UnfoldMoved(w, v, from); }
    case _ =>
  }

  lemma UnfoldMoved(w: World, v: World, e: Ep)
    requires Moved(w, v, e)
    ensures SameCall(At(w, e), At(v, e))
  {
  }

  ghost predicate Carried(w: World, v: World, s: nat) {
    s in v.wire ==> (s in w.wire && v.wire[s] == w.wire[s]) || DirectedPacket(v, s)
  }

  /** A step that changes the endpoints in `ex`. */
  lemma AimStep(w: World, v: World, ex: set<Ep>)
    requires TokenInv(w) && AimInv(w)
    requires (forall z :: z !in ex ==> At(v, z) == At(w, z)) && (forall z :: z in ex ==> Moved(w, v, z))
    requires forall s :: Carried(w, v, s)
    ensures AimInv(v)
    ensures (forall z :: z in ex ==> SameStory(At(w, z), At(v, z))) ==> OnCourse(w, v)
  {
    hide At, Moved, Directed;
    forall f ensures Moved(w, v, f) {
      if f !in ex { SameMoved(w, v, f); }
    }
    forall e ensures Directed(v, e) { DirectedStays(w, v, e); }
    forall s ensures DirectedPacket(v, s) {
      assert Carried(w, v, s);
      if s in v.wire && s in w.wire && v.wire[s] == w.wire[s] { PacketStays(w, v, s); }
    }
  }

  /** Nothing is sent but what nobody waits for. */
  ghost predicate AsksNothing(w: World, v: World, s: nat) {
    s in v.wire ==>
      (s in w.wire && v.wire[s] == w.wire[s]) || !(v.wire[s].Req? || v.wire[s].Gnt? || v.wire[s].Term?)
  }

  lemma PlainStep(w: World, v: World, ex: set<Ep>)
    requires TokenInv(w) && AimInv(w)
    requires (forall z :: z !in ex ==> At(v, z) == At(w, z)) && (forall z :: z in ex ==> Moved(w, v, z))
    requires forall z :: z in ex ==> SameStory(At(w, z), At(v, z))
    requires forall s :: AsksNothing(w, v, s)
    ensures OnCourse(w, v)
  {
    hide At, Moved, TokenInv, AimInv;
    forall s ensures Carried(w, v, s) { assert AsksNothing(w, v, s); }
    AimStep(w, v, ex);
  }

  // Two ways for an endpoint to change.

  ghost predicate Changes(x: Endpoint, y: Endpoint) {
    SameCall(x, y) && NoneNew(x, y) && SameStory(x, y)
  }

  /** Its call goes on, and its queue only shrinks. */
  lemma GoesOn(x: Endpoint, y: Endpoint)
    requires y.call == x.call && y.attempt == x.attempt && y.port == x.port && y.peer == x.peer
    requires (y.state.Mapping? ==> x.state.Mapping?) && forall r :: r in y.conlist ==> r in x.conlist
    requires y.accepted == x.accepted && (y.joins == x.joins || x.accepted)
    ensures Changes(x, y)
  {
  }

  /** It waits for nothing, and is not connecting afterwards. */
  lemma IsOver(x: Endpoint, y: Endpoint)
    requires x.token.NoToken? && !Dialing(y) && !y.call.AcceptTake? && !y.state.Mapping?
    requires y.conlist == [] || (y.conlist == x.conlist && y.port == x.port)
    requires y.accepted == x.accepted && y.peer == x.peer && (y.joins == x.joins || x.state.Mapping?)
    ensures Changes(x, y)
  {
  }

  lemma PutAims(w: World, v: World, e: Ep, y: Endpoint)
    requires TokenInv(w) && AimInv(w) && v.eps == w.eps[e := y] && Changes(At(w, e), y)
    requires forall s :: AsksNothing(w, v, s)
    ensures OnCourse(w, v)
  {
    hide TokenInv, AimInv, SameCall, NoneNew, SameStory, AsksNothing, Directed;
    PlainStep(w, v, {e});
  }

  lemma BothAims(w: World, v: World, e: Ep, y: Endpoint, f: Ep, z: Endpoint)
    requires TokenInv(w) && AimInv(w) && v.eps == w.eps[f := z][e := y]
    requires Changes(At(w, e), y)
    requires f != e ==> Changes(At(w, f), z)
    requires forall s :: AsksNothing(w, v, s)
    ensures OnCourse(w, v)
  {
    hide TokenInv, AimInv, SameCall, NoneNew, SameStory, AsksNothing, Directed;
    PlainStep(w, v, {e, f});
  }

  // ------------------------------------------------ every step keeps it

  /** What a step may take for granted. */
  lemma Grounds(w: World, e: Ep)
    requires Inv(w) && AimInv(w)
    ensures TokenInv(w) && Roles(w, e) && w.next !in w.wire && At(w, e).attempt < w.next
    ensures At(w, e).state.Mapping? ==> Dialing(At(w, e))
    ensures forall r :: r in At(w, e).conlist ==> At(w, r.from).token == Queued(e, r)
    ensures At(w, e).call.AcceptTake? ==> At(w, At(w, e).call.req.from).token == Held(e)
  {
    hide Shape, Plays;
    RolesOf(w, e);
    assert TokenAt(w, e) && RequestsAt(w, e) && Directed(w, e);
  }

  lemma OpenAims(w: World, e: Ep, y: Endpoint)
    requires Inv(w) && AimInv(w) && At(w, e).call.Idle? && (At(w, e).state.Unopened? || At(w, e).state.Unbound?)
    requires y == At(w, e).(state := y.state, port := y.port) && !y.state.Mapping?
    ensures OnCourse(w, Put(w, e, y))
  {
    Grounds(w, e);
    hide Inv, TokenInv, AimInv, Changes;
    IsOver(At(w, e), y);
    PutAims(w, Put(w, e, y), e, y);
  }

  lemma ListenAims(w: World, op: Step)
    requires Inv(w) && AimInv(w) && Enabled(w, op) && (op.ListenBegin? || op.ListenEnd?)
    ensures OnCourse(w, Next(w, op))
  {
    Grounds(w, op.e);
    hide Inv, TokenInv, AimInv, Changes;
    var v := Next(w, op);
    IsOver(At(w, op.e), At(v, op.e));
    PutAims(w, v, op.e, At(v, op.e));
  }

  function Called(x: Endpoint, dst: PortId, port: nat): Endpoint {
    x.(state := Connecting, call := ConnectPrep(dst), port := port, remoteDev := dst.node)
  }

  /** The one step that begins a connect call. */
  lemma ConnectBeginAims(w: World, e: Ep, dst: PortId, port: nat)
    requires Inv(w) && AimInv(w) && Enabled(w, ConnectBegin(e, dst, port))
    ensures var v := Next(w, ConnectBegin(e, dst, port));
            && AimInv(v) && Wants(v, e, dst) && At(v, e).joins == 0
            && forall z :: z != e ==> SameStory(At(w, z), At(v, z))
  {
    var y := Called(At(w, e), dst, port);
    assert Next(w, ConnectBegin(e, dst, port)) == Put(w, e, y);
    CalledChanges(w, e, dst, port);
    hide Inv, AimInv, Next, Enabled, SameStory;
    DialAims(w, e, y);
  }

  lemma CalledChanges(w: World, e: Ep, dst: PortId, port: nat)
    requires Inv(w) && At(w, e).call.Idle?
    requires At(w, e).state.Unbound? || (At(w, e).state.Bound? && port == At(w, e).port)
    ensures var y := Called(At(w, e), dst, port);
            TokenInv(w) && SameCall(At(w, e), y) && NoneNew(At(w, e), y) && y.joins == 0
  {
    hide Shape, SameCall, NoneNew, TokenInv;
    assert ShapeAt(w, e);
    FreeToCall(At(w, e), w.listen[e], w.connected[e], w.disconnected[e], w.zombie[e], dst, port);
  }

  lemma FreeToCall(x: Endpoint, l: nat, c: nat, d: nat, z: nat, dst: PortId, port: nat)
    requires Shape(x, l, c, d, z) && x.call.Idle? && (x.state.Unbound? || (x.state.Bound? && port == x.port))
    ensures x.joins == 0 && SameCall(x, Called(x, dst, port)) && NoneNew(x, Called(x, dst, port))
  {
  }

  lemma DialAims(w: World, e: Ep, y: Endpoint)
    requires TokenInv(w) && AimInv(w) && SameCall(At(w, e), y) && NoneNew(At(w, e), y)
    ensures AimInv(Put(w, e, y)) && forall z :: z != e ==> SameStory(At(w, z), At(Put(w, e, y), z))
  {
    hide TokenInv, AimInv, SameCall, NoneNew, Directed;
    var v := Put(w, e, y);
    forall s ensures Carried(w, v, s) { }
    AimStep(w, v, {e});
  }

  lemma ConnectFailAims(w: World, e: Ep)
    requires Inv(w) && AimInv(w) && At(w, e).call.ConnectPrep?
    ensures OnCourse(w, Put(w, e, At(w, e).(state := Bound, call := Idle)))
  {
    Grounds(w, e);
    hide Inv, TokenInv, AimInv;
    OneIsOver(w, Put(w, e, At(w, e).(state := Bound, call := Idle)), e, At(w, e).(state := Bound, call := Idle));
  }

  lemma ConnectSendAims(w: World, e: Ep)
    requires Inv(w) && AimInv(w) && At(w, e).call.ConnectPrep?
    ensures OnCourse(w, ConnectSendNext(w, e))
  {
    Grounds(w, e);
    hide Inv, TokenInv, AimInv;
    var v := ConnectSendNext(w, e);
    assert Moved(w, v, e);
    forall s ensures Carried(w, v, s) { }
    AimStep(w, v, {e});
  }

  lemma ConnectInterruptAims(w: World, e: Ep)
    requires Inv(w) && AimInv(w) && At(w, e).call.ConnectWait?
    ensures OnCourse(w, ConnectInterruptNext(w, e))
  {
    Grounds(w, e);
    hide Inv, TokenInv, AimInv;
    var v := ConnectInterruptNext(w, e);
    assert Moved(w, v, e);
    forall s ensures Carried(w, v, s) { }
    AimStep(w, v, {e});
  }

  lemma ConnectDoneAims(w: World, e: Ep)
    requires Inv(w) && AimInv(w) && At(w, e).state.Mapping?
    ensures OnCourse(w, ConnectDone(w, e)) && OnCourse(w, ConnectRefuse(w, e))
  {
    Grounds(w, e);
    hide Inv, TokenInv, AimInv, Changes, Active;
    var x := At(w, e);
    var c := x.grant;
    var done := x.(state := Connected, call := Idle, remoteEp := c, joins := x.joins + 1);
    var refused := x.(state := Bound, call := Idle, remoteEp := c);
    IsOver(x, done);
    IsOver(x, refused);
    GoesOn(At(w, c), At(w, c).(link := AckSent(w.next)));
    GoesOn(At(w, c), At(w, c).(link := NackSent(w.next)));
    BothAims(w, ConnectDone(w, e), e, done, c, At(w, c).(link := AckSent(w.next)));
    BothAims(w, ConnectRefuse(w, e), e, refused, c, At(w, c).(link := NackSent(w.next)));
  }

  lemma ConnectFinishAims(w: World, e: Ep, mapped: bool)
    requires Inv(w) && AimInv(w) && Enabled(w, ConnectFinish(e, mapped))
    ensures OnCourse(w, ConnectFinishNext(w, e, mapped))
  {
    Grounds(w, e);
    hide Inv, TokenInv, AimInv, ConnectDone, ConnectRefuse;
    var x := At(w, e);
    if x.state.Mapping? {
      ConnectDoneAims(w, e);
    } else {
      OneIsOver(w, ConnectFinishNext(w, e, mapped), e,
                x.(state := if x.call.ConnectTerm? then Bound else x.state, call := Idle));
    }
  }

  lemma AcceptBeginAims(w: World, l: Ep, c: Ep)
    requires Inv(w) && AimInv(w) && Enabled(w, AcceptBegin(l, c))
    ensures OnCourse(w, AcceptBeginNext(w, l, c))
  {
    var r := At(w, l).conlist[0];
    var v := AcceptBeginNext(w, l, c);
    Grounds(w, l);
    Grounds(w, r.from);
    assert Directed(w, l);
    hide Inv, TokenInv, AimInv, Changes, OnCourse;
    AcceptBeginAt(w, l, c);
    GoesOn(At(w, l), Unqueued(At(w, l), 0));
    GoesOn(At(w, r.from), At(w, r.from).(token := Held(c)));
    assert v.wire == w.wire;
    hide AcceptBeginNext, Unqueued, Plays;
    TakenUpAims(w, v, l, c, r.from);
  }

  /** A request of `e` goes from a queue of `l` to the new endpoint `c`. */
  lemma TakenUpAims(w: World, v: World, l: Ep, c: Ep, e: Ep)
    requires TokenInv(w) && AimInv(w) && c.node == l.node && e != c && l != c && v.wire == w.wire
    requires forall z :: z != l && z != c && z != e ==> At(v, z) == At(w, z)
    requires Changes(At(w, l), At(v, l)) && Changes(At(w, e), At(v, e)) && At(w, c) == UNOPENED
    requires Wants(w, e, PortId(l.node, At(w, l).port)) && !At(w, e).token.NoToken?
    requires var y := At(v, c);
             && y.state.Connecting? && y.call.AcceptTake? && y.call.req.from == e && y.accepted && y.conlist == []
             && y.port == At(w, l).port
    ensures OnCourse(w, v)
  {
    hide TokenInv, AimInv, NoneNew, OnCourse, At;
    assert Wants(v, e, PortId(l.node, At(w, l).port));
    assert Directed(v, c);
    forall s ensures Carried(w, v, s) { }
    AimStep(w, v, {l, c, e});
  }

  lemma AcceptGrantAims(w: World, c: Ep)
    requires Inv(w) && AimInv(w) && At(w, c).call.AcceptTake?
    ensures OnCourse(w, AcceptGrantNext(w, c))
  {
    var e := At(w, c).call.req.from;
    Grounds(w, c);
    Grounds(w, e);
    assert Directed(w, c);
    hide Inv, TokenInv, AimInv;
    var v := AcceptGrantNext(w, c);
    assert Moved(w, v, c) && Moved(w, v, e);
    forall s ensures Carried(w, v, s) { }
    AimStep(w, v, {c, e});
  }

  lemma AcceptFailAims(w: World, c: Ep)
    requires Inv(w) && AimInv(w) && At(w, c).call.AcceptTake?
    ensures OnCourse(w, AcceptFailNext(w, c))
  {
    var e := At(w, c).call.req.from;
    Grounds(w, c);
    Grounds(w, e);
    hide Inv, TokenInv, AimInv, Changes;
    var v := AcceptFailNext(w, c);
    IsOver(At(w, c), At(v, c));
    GoesOn(At(w, e), At(v, e));
    BothAims(w, v, c, At(v, c), e, At(v, e));
  }

  lemma AcceptFinishAims(w: World, c: Ep)
    requires Inv(w) && AimInv(w) && Enabled(w, AcceptFinish(c))
    ensures OnCourse(w, AcceptFinishNext(w, c))
  {
    Grounds(w, c);
    hide Inv, TokenInv, AimInv, Changes;
    var v := AcceptFinishNext(w, c);
    IsOver(At(w, c), At(v, c));
    PutAims(w, v, c, At(v, c));
  }

  /** A step that changes nothing about one endpoint that anybody waits for. */
  lemma OneGoesOn(w: World, v: World, e: Ep, y: Endpoint)
    requires TokenInv(w) && AimInv(w) && v.eps == w.eps[e := y] && (forall s :: AsksNothing(w, v, s))
    requires var x := At(w, e);
             && y.call == x.call && y.attempt == x.attempt && y.port == x.port && y.peer == x.peer
             && (y.state.Mapping? ==> x.state.Mapping?) && y.conlist == x.conlist
             && y.accepted == x.accepted && (y.joins == x.joins || x.accepted)
    ensures OnCourse(w, v)
  {
    hide TokenInv, AimInv, Changes, AsksNothing, At;
    GoesOn(At(w, e), y);
    PutAims(w, v, e, y);
  }

  lemma FlushBeginAims(w: World, e: Ep)
    requires Inv(w) && AimInv(w)
    ensures OnCourse(w, FlushBeginNext(w, e))
  {
    hide AimInv, Shape, TokenInv, GrantInv, FarewellInv, ActiveInv;
    var x := At(w, e);
    OneGoesOn(w, FlushBeginNext(w, e), e,
              if x.state.Listening? then x.(state := ClListen) else x.(looks := x.looks + 1));
  }

  lemma FlushLookupAims(w: World, e: Ep)
    requires Inv(w) && AimInv(w) && At(w, e).looks > 0
    ensures OnCourse(w, FlushLookupNext(w, e))
  {
    hide AimInv, Shape, TokenInv, GrantInv, FarewellInv, ActiveInv, Active;
    var x := At(w, e).(looks := At(w, e).looks - 1);
    OneGoesOn(w, FlushLookupNext(w, e), e, if e in w.connected then Departed(x.(flushing := true), w.next) else x);
  }

  lemma FlushEndAims(w: World, e: Ep)
    requires Inv(w) && AimInv(w)
    ensures OnCourse(w, FlushEndNext(w, e))
  {
    hide AimInv, Shape, TokenInv, GrantInv, FarewellInv, ActiveInv;
    OneGoesOn(w, FlushEndNext(w, e), e, At(w, e).(flushing := false, state := Disconnected));
  }

  /** A step of a close changes one endpoint that nobody waits for. */
  lemma OneIsOver(w: World, v: World, e: Ep, y: Endpoint)
    requires TokenInv(w) && AimInv(w) && v.eps == w.eps[e := y] && (forall s :: AsksNothing(w, v, s))
    requires At(w, e).token.NoToken? && !Dialing(y) && !y.call.AcceptTake? && !y.state.Mapping?
    requires y.conlist == At(w, e).conlist && y.port == At(w, e).port && y.peer == At(w, e).peer
    requires y.accepted == At(w, e).accepted && y.joins == At(w, e).joins
    ensures OnCourse(w, v)
  {
    hide TokenInv, AimInv, Changes, AsksNothing, At;
    IsOver(At(w, e), y);
    PutAims(w, v, e, y);
  }

  lemma CloseBeginAims(w: World, e: Ep)
    requires Inv(w) && AimInv(w) && At(w, e).call.Idle?
    ensures OnCourse(w, Put(w, e, ClosingFrom(At(w, e))))
  {
    Grounds(w, e);
    hide Inv, TokenInv, AimInv;
    OneIsOver(w, Put(w, e, ClosingFrom(At(w, e))), e, ClosingFrom(At(w, e)));
  }

  lemma CloseDepartAims(w: World, e: Ep)
    requires Inv(w) && AimInv(w) && At(w, e).call == CloseLook(FromConnected) && e in w.connected
    ensures OnCourse(w, CloseLookupNext(w, e))
  {
    Grounds(w, e);
    hide Inv, TokenInv, AimInv, Active;
    OneIsOver(w, CloseLookupNext(w, e), e, Departed(At(w, e).(call := CloseWait), w.next));
  }

  lemma CloseListenerAims(w: World, e: Ep)
    requires Inv(w) && AimInv(w) && At(w, e).call == CloseLook(FromListening)
    ensures OnCourse(w, CloseLookupNext(w, e))
  {
    Grounds(w, e);
    hide Inv, TokenInv, AimInv;
    OneIsOver(w, Put(w, e, At(w, e).(call := CloseReject)).(listen := w.listen - multiset{e}), e,
              At(w, e).(call := CloseReject));
  }

  lemma CloseOtherAims(w: World, e: Ep)
    requires Inv(w) && AimInv(w) && At(w, e).call.CloseLook? && !At(w, e).call.origin.FromListening?
    requires At(w, e).call.origin.FromConnected? ==> e !in w.connected
    ensures OnCourse(w, CloseLookupNext(w, e))
  {
    Grounds(w, e);
    hide Inv, TokenInv, AimInv, At;
    var y := At(w, e).(call := CloseDone);
    OneIsOver(w, Put(w, e, y), e, y);
    OneIsOver(w, Put(w, e, y).(disconnected := w.disconnected - multiset{e}), e, y);
  }

  lemma CloseEndAims(w: World, e: Ep)
    requires Inv(w) && AimInv(w) && (At(w, e).call.CloseWait? || At(w, e).call.CloseDone?)
    ensures OnCourse(w, Put(w, e, At(w, e).(call := CloseDone))) && OnCourse(w, CloseFinishNext(w, e))
  {
    Grounds(w, e);
    hide Inv, TokenInv, AimInv;
    OneIsOver(w, Put(w, e, At(w, e).(call := CloseDone)), e, At(w, e).(call := CloseDone));
    OneIsOver(w, CloseFinishNext(w, e), e, At(w, e).(state := Zombie, call := Gone));
  }

  lemma AnswerAims(w: World, l: Ep, i: nat, p: Packet)
    requires TokenInv(w) && AimInv(w) && i < |At(w, l).conlist| && (p.Rej? || p.TermAck?)
    ensures OnCourse(w, AnswerQueued(w, l, i, p))
  {
    hide TokenInv, AimInv, Changes;
    var v := AnswerQueued(w, l, i, p);
    GoesOn(At(w, l), At(v, l));
    GoesOn(At(w, p.to), At(v, p.to));
    BothAims(w, v, p.to, At(v, p.to), l, At(v, l));
  }

  lemma CloseRejectAims(w: World, e: Ep)
    requires Inv(w) && AimInv(w) && At(w, e).call.CloseReject?
    ensures OnCourse(w, CloseRejectNext(w, e))
  {
    Grounds(w, e);
    hide Inv, TokenInv, AimInv, Changes, AnswerQueued;
    if At(w, e).conlist == [] {
      var v := CloseRejectNext(w, e);
      IsOver(At(w, e), At(v, e));
      PutAims(w, v, e, At(v, e));
    } else {
      AnswerAims(w, e, 0, Rej(At(w, e).conlist[0].from, e.node, At(w, e).conlist[0].id));
    }
  }

  lemma OnReqQueuedAims(w: World, s: nat, l: Ep)
    requires Inv(w) && AimInv(w) && Enabled(w, OnReq(s, l, true)) && At(w, l).conreqcnt < At(w, l).backlog
    ensures OnCourse(w, OnReqNext(w, s, l, true))
  {
    var e := w.wire[s].from;
    Grounds(w, l);
    Grounds(w, e);
    RequestOwner(w, s);
    assert DirectedPacket(w, s) && Directed(w, l);
    hide Inv, TokenInv, AimInv;
    var v := OnReqNext(w, s, l, true);
    assert e != l;
    assert Moved(w, v, e);
    assert Directed(v, l);
    AimStep(w, v, {l, e});
  }

  lemma OnReqRejectedAims(w: World, s: nat, l: Ep, queued: bool)
    requires Inv(w) && AimInv(w) && Enabled(w, OnReq(s, l, queued))
    requires !(queued && At(w, l).conreqcnt < At(w, l).backlog)
    ensures OnCourse(w, OnReqNext(w, s, l, queued))
  {
    var e := w.wire[s].from;
    Grounds(w, e);
    hide Inv, TokenInv, AimInv, Changes;
    var v := OnReqNext(w, s, l, queued);
    GoesOn(At(w, e), At(v, e));
    PutAims(w, v, e, At(v, e));
  }

  lemma OnTermAims(w: World, s: nat, l: Ep, found: bool)
    requires Inv(w) && AimInv(w) && s in w.wire && w.wire[s].Term?
    ensures OnCourse(w, OnTermNext(w, s, l, found))
  {
    Grounds(w, l);
    hide Inv, TokenInv, AimInv;
    var p, list := w.wire[s], At(w, l).conlist;
    var i := FindRequest(list, p.from.addr);
    if found && i < |list| {
      AnswerTermAims(w, s, l, i);
    } else {
      PlainStep(w, OnTermNext(w, s, l, found), {});
    }
  }

  lemma AnswerTermAims(w: World, s: nat, l: Ep, i: nat)
    requires TokenInv(w) && AimInv(w) && s in w.wire && w.wire[s].Term? && i < |At(w, l).conlist|
    ensures OnCourse(w, AnswerQueued(Taken(w, s), l, i, TermAck(w.wire[s].from, w.wire[s].dst.node, w.wire[s].id)))
  {
    hide TokenInv, AimInv, Changes;
    var p := w.wire[s];
    var v := AnswerQueued(Taken(w, s), l, i, TermAck(p.from, p.dst.node, p.id));
    GoesOn(At(w, l), At(v, l));
    GoesOn(At(w, p.from), At(v, p.from));
    BothAims(w, v, p.from, At(v, p.from), l, At(v, l));
  }

  lemma OnGntAims(w: World, s: nat)
    requires Inv(w) && AimInv(w) && s in w.wire && w.wire[s].Gnt?
    ensures OnCourse(w, OnGntNext(w, s))
  {
    var e, c := w.wire[s].to, w.wire[s].cep;
    Grounds(w, e);
    RequestOwner(w, s);
    assert DirectedPacket(w, s) && Directed(w, e);
    hide Inv, TokenInv, AimInv;
    var v := OnGntNext(w, s);
    assert Moved(w, v, e) by { assert Directed(v, e); }
    if c != e { GoesOn(At(w, c), At(v, c)); }
    AimStep(w, v, {e, c});
  }

  lemma OnGntAckAims(w: World, s: nat)
    requires Inv(w) && AimInv(w) && s in w.wire && w.wire[s].GntAck?
    ensures OnCourse(w, OnGntAckNext(w, s))
  {
    assert GrantPacket(w, s);
    Grounds(w, w.wire[s].to);
    hide AimInv, Shape, TokenInv, GrantInv, FarewellInv, ActiveInv, Active;
    var e := w.wire[s].to;
    OneGoesOn(w, OnGntAckNext(w, s), e, At(w, e).(state := Connected, link := Linked, joins := At(w, e).joins + 1));
  }

  lemma OnGntNackAims(w: World, s: nat)
    requires Inv(w) && AimInv(w) && s in w.wire && w.wire[s].GntNack?
    ensures OnCourse(w, OnGntNackNext(w, s))
  {
    hide AimInv, Shape, TokenInv, GrantInv, FarewellInv, ActiveInv;
    var e := w.wire[s].to;
    OneGoesOn(w, OnGntNackNext(w, s), e, At(w, e).(state := Closing, link := Refused));
  }

  lemma BoundAims(w: World, s: nat)
    requires Inv(w) && AimInv(w) && s in w.wire
    ensures w.wire[s].Rej? ==> OnCourse(w, OnRejNext(w, s))
    ensures w.wire[s].TermAck? ==> OnCourse(w, OnTermAckNext(w, s))
  {
    if w.wire[s].Rej? || w.wire[s].TermAck? {
      hide AimInv, Shape, TokenInv, GrantInv, FarewellInv, ActiveInv;
      var e := w.wire[s].to;
      PlainStep(w, Taken(w, s), {});
      var y := At(w, e).(state := Bound, token := NoToken);
      OneGoesOn(w, Taken(Put(w, e, y), s), e, y);
    }
  }

  lemma OnDiscntAckAims(w: World, s: nat)
    requires Inv(w) && AimInv(w) && s in w.wire && w.wire[s].DiscntAck?
    ensures OnCourse(w, OnDiscntAckNext(w, s))
  {
    hide AimInv, Shape, TokenInv, GrantInv, FarewellInv, ActiveInv;
    var e := w.wire[s].to;
    OneGoesOn(w, OnDiscntAckNext(w, s), e, At(w, e).(state := Disconnected, farewell := NoFarewell));
  }

  lemma OnDiscnctAims(w: World, s: nat)
    requires Inv(w) && AimInv(w) && s in w.wire && w.wire[s].Discnct?
    ensures OnCourse(w, OnDiscnctNext(w, s))
  {
    hide AimInv, Shape, TokenInv, GrantInv, FarewellInv, ActiveInv, Changes, Active;
    var e, f := w.wire[s].to, w.wire[s].from;
    var x := At(w, f).(farewell := DiscntAckSent(w.next));
    var y := At(w, e).(state := Disconnected, leaves := At(w, e).leaves + 1);
    GoesOn(At(w, f), x);
    GoesOn(At(w, e), y);
    if e in w.connected {
      BothAims(w, OnDiscnctNext(w, s), f, x, e, y);
    } else {
      PutAims(w, OnDiscnctNext(w, s), f, x);
    }
  }

  lemma CallKeepsAim(w: World, op: Step)
    requires Inv(w) && AimInv(w) && Enabled(w, op)
    requires op.Open? || op.Bind? || op.ListenBegin? || op.ListenEnd? || op.ConnectFail?
             || op.ConnectSend? || op.ConnectInterrupt? || op.ConnectFinish? || op.AcceptBegin? || op.AcceptFail?
             || op.AcceptGrant? || op.AcceptFinish?
    ensures OnCourse(w, Next(w, op))
  {
    hide Inv, AimInv, OnCourse;
    match op
    case Open(e) => OpenAims(w, e, At(w, e).(state := Unbound));
    case Bind(e, port) => OpenAims(w, e, At(w, e).(state := Bound, port := port));
    case ListenBegin(_, _) => ListenAims(w, op);
    case ListenEnd(_) => ListenAims(w, op);
    case ConnectFail(e) => ConnectFailAims(w, e);
    case ConnectSend(e) => ConnectSendAims(w, e);
    case ConnectInterrupt(e) => ConnectInterruptAims(w, e);
    case ConnectFinish(e, mapped) => ConnectFinishAims(w, e, mapped);
    case AcceptBegin(l, c) => AcceptBeginAims(w, l, c);
    case AcceptFail(c) => AcceptFailAims(w, c);
    case AcceptGrant(c) => AcceptGrantAims(w, c);
    case AcceptFinish(c) => AcceptFinishAims(w, c);
  }

  lemma EndKeepsAim(w: World, op: Step)
    requires Inv(w) && AimInv(w) && Enabled(w, op)
    requires op.FlushBegin? || op.FlushLookup? || op.FlushEnd? || op.CloseBegin? || op.CloseLookup?
             || op.CloseRejectOne? || op.CloseAcked? || op.CloseFinish?
    ensures OnCourse(w, Next(w, op))
  {
    hide Inv, AimInv, OnCourse, FlushBeginNext, FlushLookupNext, FlushEndNext, ClosingFrom, CloseLookupNext,
         CloseRejectNext, CloseFinishNext;
    match op
    case FlushBegin(e) => FlushBeginAims(w, e);
    case FlushLookup(e) => FlushLookupAims(w, e);
    case FlushEnd(e) => FlushEndAims(w, e);
    case CloseBegin(e) => CloseBeginAims(w, e);
    case CloseLookup(e) =>
      if At(w, e).call.origin.FromConnected? && e in w.connected {
        CloseDepartAims(w, e);
      } else if At(w, e).call.origin.FromListening? {
        CloseListenerAims(w, e);
      } else {
        CloseOtherAims(w, e);
      }
    case CloseRejectOne(e) => CloseRejectAims(w, e);
    case CloseAcked(e) => CloseEndAims(w, e);
    case CloseFinish(e) => CloseEndAims(w, e);
  }

  lemma HandlerKeepsAim(w: World, op: Step)
    requires Inv(w) && AimInv(w) && Enabled(w, op)
    requires op.OnReq? || op.OnTerm? || op.OnGnt? || op.OnGntAck? || op.OnGntNack? || op.OnRej? || op.OnTermAck?
             || op.OnDiscnct? || op.OnDiscntAck?
    ensures OnCourse(w, Next(w, op))
  {
    hide Inv, AimInv, At, OnReqNext, OnTermNext, OnGntNext, OnGntAckNext, OnGntNackNext, OnRejNext, OnTermAckNext,
         OnDiscnctNext, OnDiscntAckNext;
    match op
    case OnReq(s, l, queued) =>
      if queued && At(w, l).conreqcnt < At(w, l).backlog {
        OnReqQueuedAims(w, s, l);
      } else {
        OnReqRejectedAims(w, s, l, queued);
      }
    case OnTerm(s, l, found) => OnTermAims(w, s, l, found);
    case OnGnt(s) => OnGntAims(w, s);
    case OnGntAck(s) => OnGntAckAims(w, s);
    case OnGntNack(s) => OnGntNackAims(w, s);
    case OnRej(s) => BoundAims(w, s);
    case OnTermAck(s) => BoundAims(w, s);
    case OnDiscnct(s) => OnDiscnctAims(w, s);
    case OnDiscntAck(s) => OnDiscntAckAims(w, s);
  }

  /** A step goes on with an endpoint's connect call, unless it begins one. */
  ghost predicate Tells(w: World, op: Step, v: World, e: Ep) {
    if op.ConnectBegin? && op.e == e then Wants(v, e, op.dst) && At(v, e).joins == 0
    else SameStory(At(w, e), At(v, e))
  }

  /** Every step, also one that takes another endpoint's request. */
  lemma NextKeepsAim(w: World, op: Step)
    requires Inv(w) && AimInv(w) && Enabled(w, op)
    ensures AimInv(Next(w, op)) && forall e :: Tells(w, op, Next(w, op), e)
  {
    hide Inv, AimInv, Enabled, Next, SameStory, Wants;
    if op.ConnectBegin? {
      ConnectBeginAims(w, op.e, op.dst, op.port);
    } else if op.Open? || op.Bind? || op.ListenBegin? || op.ListenEnd? || op.ConnectFail? || op.ConnectSend?
              || op.ConnectInterrupt? || op.ConnectFinish? || op.AcceptBegin? || op.AcceptFail? || op.AcceptGrant?
              || op.AcceptFinish? {
      CallKeepsAim(w, op);
    } else if op.FlushBegin? || op.FlushLookup? || op.FlushEnd? || op.CloseBegin? || op.CloseLookup?
              || op.CloseRejectOne? || op.CloseAcked? || op.CloseFinish? {
      EndKeepsAim(w, op);
    } else {
      HandlerKeepsAim(w, op);
    }
  }
}
