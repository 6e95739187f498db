/**
 What every step keeps: how an endpoint's own fields fit together, and how endpoints,
 queued requests and messages in flight name each other.
 */
module ConnectionInv {
  import opened ConnectionSpec

  // ------------------------------------------------ one endpoint

  /** Not yet, or not, part of a connection. */
  ghost predicate Quiet(x: Endpoint, listed: nat) {
    x.joins == 0 && listed == 0 && x.farewell.NoFarewell? && !x.flushing
  }

  ghost predicate QueueShape(x: Endpoint) {
    && x.conreqcnt == |x.conlist|
    && (x.conlist != [] ==>
          && |x.conlist| <= x.backlog
          && (x.state.Listening? || x.state.ClListen? || x.call == CloseLook(FromListening) || x.call.CloseReject?))
    && forall i, j :: 0 <= i < j < |x.conlist| ==> x.conlist[i].stamp < x.conlist[j].stamp
  }

  /** A connect call that waits is waiting for exactly one thing. */
  ghost predicate TokenShape(x: Endpoint) {
    && (!x.token.NoToken? <==> !x.accepted && x.state.Connecting? && (x.call.ConnectWait? || x.call.ConnectTerm?))
    && x.asked == x.answered + if x.token.Queued? || x.token.Held? then 1 else 0
  }

  /** A connect call goes to the device it names. */
  ghost predicate TargetShape(x: Endpoint) {
    x.call.ConnectPrep? || x.call.ConnectWait? || x.call.ConnectTerm? ==> x.remoteDev == x.call.dst.node
  }

  ghost predicate LinkShape(x: Endpoint) {
    && (x.link.GrantSent? || x.link.Granted? || x.link.AckSent? || x.link.NackSent?
        <==> x.accepted && x.state.Connecting? && x.call.AcceptWait?)
    && (x.link.Linked? <==> x.accepted && x.joins == 1)
  }

  /** Each endpoint waits for at most one disconnect of its own to be acknowledged. */
  ghost predicate FarewellShape(x: Endpoint) {
    && (!x.farewell.NoFarewell? ==> x.leaves == 1)
    && (!x.farewell.NoFarewell? <==> (x.flushing && x.state.Connected?) || (x.call.CloseWait? && x.state.Closing?))
    && (x.looks > 0 || x.flushing ==> x.call.Idle? && x.joins == 1)
  }

  /** Which calls and which lists go with which state; `l`, `c`, `d` and `z` count the four lists' entries. */
  ghost predicate StateShape(x: Endpoint, l: nat, c: nat, d: nat, z: nat) {
    match x.state
    case Unopened => x == UNOPENED && l + d + z == 0
    case Unbound => x.call.Idle? && !x.accepted && Quiet(x, l + d + z)
    case Bound => !x.accepted && (x.call.Idle? || x.call.ConnectWait? || x.call.ConnectTerm?) && Quiet(x, l + d + z)
    case Connecting =>
      && Quiet(x, l + d + z)
      && if x.accepted then x.call.AcceptTake? || x.call.AcceptWait? || x.call.Gone?
         else x.call.ConnectPrep? || x.call.ConnectWait? || x.call.ConnectTerm?
    case Mapping => !x.accepted && (x.call.ConnectWait? || x.call.ConnectTerm?) && Quiet(x, l + d + z)
    case Listening => !x.accepted && Quiet(x, d + z) && if l == 1 then x.call.Idle? else x.call.ListenAdd?
    case ClListen => !x.accepted && Quiet(x, d + z) && if l == 1 then x.call.Idle? else x.call.ListenAdd?
    case Connected =>
      && x.joins == 1 && l + d + z == 0 && (x.call.Idle? || x.call.AcceptWait?)
      && (c == 1 <==> !x.flushing)
    case Disconnected =>
      && x.leaves == 1 && l + z == 0
      && match x.call {
           case Idle => x.flushing ==> d == 0
           case AcceptWait => true
           case CloseLook(origin) => origin.FromConnected?
           case CloseWait => d == 0
           case CloseDone => d == 0
           case _ => false
         }
    case Closing =>
      match x.call {
        case CloseLook(FromQuiet) => Quiet(x, l + d + z)
        case CloseLook(FromListening) => !x.accepted && l == 1 && Quiet(x, d + z)
        case CloseLook(FromConnected) => c == 1
        case CloseLook(FromDisconnected) => x.leaves == 1 && l + z == 0
        case CloseReject => !x.accepted && Quiet(x, l + d + z)
        case CloseWait => x.leaves == 1 && l + d + z == 0
        case CloseDone => c + l + d + z == 0
        case AcceptWait => x.accepted && Quiet(x, l + d + z)
        case Gone => x.accepted && Quiet(x, l + d + z)
        case _ => false
      }
    case Zombie => x.call.Gone? && z == 1
  }

  ghost predicate Shape(x: Endpoint, l: nat, c: nat, d: nat, z: nat) {
    && l + c + d + z <= 1
    && x.leaves <= x.joins <= 1 && c == x.joins - x.leaves
    && QueueShape(x) && TokenShape(x) && TargetShape(x) && LinkShape(x) && FarewellShape(x)
    && StateShape(x, l, c, d, z)
  }

  ghost predicate ShapeAt(w: World, e: Ep) {
    && Shape(At(w, e), w.listen[e], w.connected[e], w.disconnected[e], w.zombie[e])
    && (e in w.eps ==> !At(w, e).state.Unopened?)
  }

  // ------------------------------------------------ requests and replies

  predicate IsRequest(p: Packet) {
    p.Req? || p.Rej? || p.TermAck? || p.Gnt?
  }

  /** The connecting endpoint a request or a reply belongs to. */
  function Party(p: Packet): Ep
    requires IsRequest(p)
  {
    if p.Req? then p.from else p.to
  }

  ghost predicate TokenAt(w: World, e: Ep) {
    var x := At(w, e);
    && (x.token.OnWire? ==>
          x.token.serial in w.wire && IsRequest(w.wire[x.token.serial]) && Party(w.wire[x.token.serial]) == e)
    && (x.token.Queued? ==> x.token.req.from == e && x.token.req in At(w, x.token.listener).conlist)
    && (x.token.Held? ==> At(w, x.token.acceptor).call.AcceptTake? && At(w, x.token.acceptor).call.req.from == e)
    && x.attempt < w.next
  }

  /** What a request says of its sender. */
  ghost predicate Names(w: World, r: Request, node: nat) {
    var x := At(w, r.from);
    r.id == x.attempt && r.src == PortId(r.from.node, x.port) && x.remoteDev == node
  }

  ghost predicate RequestsAt(w: World, e: Ep) {
    var x := At(w, e);
    && (forall r :: r in x.conlist ==> At(w, r.from).token == Queued(e, r) && Names(w, r, e.node) && r.stamp < w.clock)
    && (x.call.AcceptTake? ==> At(w, x.call.req.from).token == Held(e) && Names(w, x.call.req, e.node)
                               && x.remoteEp == x.call.req.from)
  }

  ghost predicate RequestPacket(w: World, s: nat) {
    s in w.wire && IsRequest(w.wire[s]) ==>
      var p := w.wire[s];
      var x := At(w, Party(p));
      && x.token == OnWire(s)
      && x.attempt == (if p.Req? then s else p.id)
      && (p.TermAck? ==> x.call.ConnectTerm?)
      && x.remoteDev == (if p.Req? then p.dst.node else Source(p))
      && (p.Req? ==> p.src == PortId(p.from.node, x.port))
  }

  /** A termination is handled before any later request of the same endpoint can be queued where it goes. */
  ghost predicate TermPacket(w: World, s: nat) {
    s in w.wire && w.wire[s].Term? ==>
      var p := w.wire[s];
      var x := At(w, p.from);
      && p.from in w.eps
      && (x.attempt > s || (x.attempt == p.id < s && !x.call.ConnectWait?))
      && (x.token.Queued? && x.token.listener.node == p.dst.node ==> x.attempt < s)
  }

  // ------------------------------------------------ grants

  ghost predicate GrantAt(w: World, c: Ep) {
    var x := At(w, c);
    && (x.link.GrantSent? ==> x.link.serial in w.wire && w.wire[x.link.serial].Gnt? && w.wire[x.link.serial].cep == c)
    && (x.link.Granted? ==> At(w, x.remoteEp).state.Mapping? && At(w, x.remoteEp).grant == c)
    && (x.link.AckSent? ==> x.link.serial in w.wire && w.wire[x.link.serial].GntAck? && w.wire[x.link.serial].to == c)
    && (x.link.NackSent? ==> x.link.serial in w.wire && w.wire[x.link.serial].GntNack? && w.wire[x.link.serial].to == c)
    && (x.state.Mapping? ==>
          && At(w, x.grant).link.Granted? && At(w, x.grant).remoteEp == c
          && x.peer == PortId(x.grant.node, At(w, x.grant).port) && x.remoteDev == x.grant.node)
  }

  ghost predicate GrantPacket(w: World, s: nat) {
    s in w.wire ==>
      match w.wire[s]
      case Gnt(to, src, _, cep) =>
        At(w, cep).link == GrantSent(s) && At(w, cep).remoteEp == to && src == PortId(cep.node, At(w, cep).port)
      case GntAck(to, node) => At(w, to).link == AckSent(s) && node == At(w, to).remoteEp.node
      case GntNack(to, _) => At(w, to).link == NackSent(s)
      case _ => true
  }

  /** An accepted endpoint knows who asked. */
  ghost predicate AcceptedAt(w: World, c: Ep) {
    var x := At(w, c);
    x.accepted ==>
      && x.peer == PortId(x.remoteEp.node, At(w, x.remoteEp).port) && x.remoteDev == x.remoteEp.node
      && !At(w, x.remoteEp).accepted && !At(w, x.remoteEp).state.Unopened? && !At(w, x.remoteEp).state.Unbound?
  }

  /** An endpoint that joined a connection and the one at the other end name each other. */
  ghost predicate PairAt(w: World, e: Ep) {
    var x := At(w, e);
    var y := At(w, x.remoteEp);
    && (x.joins == 1 ==>
          && y.remoteEp == e && x.accepted != y.accepted && x.remoteDev == x.remoteEp.node
          && x.peer == PortId(x.remoteEp.node, y.port)
          && (y.joins == 1 || y.link.AckSent?))
    && (x.link.AckSent? ==> y.joins == 1 && y.remoteEp == e)
  }

  // ------------------------------------------------ disconnects

  ghost predicate FarewellAt(w: World, e: Ep) {
    var x := At(w, e);
    && (x.farewell.DiscnctSent? ==>
          x.farewell.serial in w.wire && w.wire[x.farewell.serial] == Discnct(x.remoteEp, e))
    && (x.farewell.DiscntAckSent? ==>
          x.farewell.serial in w.wire && w.wire[x.farewell.serial] == DiscntAck(e, x.remoteEp.node))
  }

  ghost predicate FarewellPacket(w: World, s: nat) {
    s in w.wire ==>
      match w.wire[s]
      case Discnct(to, from) => At(w, from).farewell == DiscnctSent(s) && At(w, from).remoteEp == to
      case DiscntAck(to, node) => At(w, to).farewell == DiscntAckSent(s) && node == At(w, to).remoteEp.node
      case _ => true
  }

  /** Whoever is connected has a peer that is connected too, or news of it on the way. */
  ghost predicate NewsAt(w: World, e: Ep) {
    var x := At(w, e);
    var y := At(w, x.remoteEp);
    && (w.connected[e] == 1 ==> w.connected[x.remoteEp] == 1 || y.farewell.DiscnctSent? || y.link.AckSent?)
    && (x.farewell.DiscnctSent? ==>
          || w.connected[x.remoteEp] == 1
          || !y.farewell.NoFarewell?
          || (y.link.AckSent? && y.link.serial < x.farewell.serial))
    && (x.farewell.DiscnctSent? && y.farewell.DiscntAckSent? ==> x.farewell.serial < y.farewell.serial)
    && (x.link.AckSent? ==>
          w.connected[x.remoteEp] == 1 || (y.farewell.DiscnctSent? && x.link.serial < y.farewell.serial))
  }

  // ------------------------------------------------ what others rely on

  predicate Linking(x: Endpoint) {
    x.link.GrantSent? || x.link.Granted? || x.link.AckSent? || x.link.NackSent?
  }

  /** No message, queue or other endpoint depends on what this one does next. */
  predicate Loose(x: Endpoint) {
    x.token.NoToken? && x.conlist == [] && !x.call.AcceptTake? && !Linking(x) && !x.state.Mapping? && x.joins == 0
  }

  /** What a listening endpoint is not. */
  predicate Hosting(x: Endpoint) {
    x.token.NoToken? && !x.call.AcceptTake? && !Linking(x) && !x.state.Mapping? && x.joins == 0 && !x.accepted
  }

  /** The parts an endpoint can play for others exclude each other. */
  ghost predicate Plays(x: Endpoint, l: nat, c: nat) {
    && (!x.token.NoToken? ==> x.state.Connecting? && (x.call.ConnectWait? || x.call.ConnectTerm?))
    && (!x.token.NoToken? ==> x.conlist == [] && !x.call.AcceptTake? && !Linking(x) && x.joins == 0 && !x.accepted)
    && (x.conlist != [] || l > 0 ==> Hosting(x))
    && (x.call.AcceptTake? ==> x.state.Connecting? && !Linking(x) && x.joins == 0 && x.accepted)
    && (Linking(x) ==> x.state.Connecting? && x.joins == 0 && x.accepted)
    && (x.state.Mapping? ==> x.joins == 0 && !x.accepted)
    && (x.call.ConnectPrep? || x.state.Unopened? || x.state.Unbound? ==> Loose(x) && !x.accepted && c == 0)
    && (!x.farewell.NoFarewell? ==> x.joins == 1 && c == 0)
    && (c > 0 ==> x.joins == 1 && c == 1)
    && TargetShape(x) && x.joins <= 1 && (x.link.Linked? <==> x.accepted && x.joins == 1)
  }

  lemma ShapePlays(x: Endpoint, l: nat, c: nat, d: nat, z: nat)
    requires Shape(x, l, c, d, z)
    ensures Plays(x, l, c)
  {
  }

  ghost predicate Roles(w: World, e: Ep) {
    Plays(At(w, e), w.listen[e], w.connected[e])
  }

  lemma ShapeRoles(w: World, e: Ep)
    requires ShapeAt(w, e)
    ensures Roles(w, e)
  {
    hide Shape, Plays, At;
    ShapePlays(At(w, e), w.listen[e], w.connected[e], w.disconnected[e], w.zombie[e]);
  }

  /** What leaves a queue is one request; the rest stay in their order. */
  lemma UnqueuedMembers(x: Endpoint, i: nat)
    requires i < |x.conlist| && QueueShape(x)
    ensures QueueShape(Unqueued(x, i))
    ensures Unqueued(x, i) == x.(conlist := Unqueued(x, i).conlist, conreqcnt := x.conreqcnt - 1)
    ensures forall r :: r in Unqueued(x, i).conlist <==> r in x.conlist && r != x.conlist[i]
  {
    var rest := Unqueued(x, i).conlist;
    forall r ensures r in rest <==> r in x.conlist && r != x.conlist[i] {
      if r in x.conlist && r != x.conlist[i] {
        var j :| 0 <= j < |x.conlist| && x.conlist[j] == r;
        assert rest[if j < i then j else j - 1] == r;
      }
    }
  }

  // ------------------------------------------------ what the steps of a handshake change

  lemma ConnectDoneAt(w: World, e: Ep)
    requires e != At(w, e).grant
    ensures var c := At(w, e).grant;
            var v := ConnectDone(w, e);
            && At(v, c) == At(w, c).(link := AckSent(w.next))
            && At(v, e) == At(w, e).(state := Connected, call := Idle, remoteEp := c, joins := At(w, e).joins + 1)
            && v.wire == w.wire[w.next := GntAck(c, e.node)] && v.connected == w.connected + multiset{e}
            && (forall z :: z != e && z != c ==> At(v, z) == At(w, z)) && (forall z :: z in w.eps ==> z in v.eps)
  {
    hide Active;
  }

  lemma AcceptBeginAt(w: World, l: Ep, c: Ep)
    requires At(w, l).conlist != [] && c !in w.eps && c != l
    requires var e := At(w, l).conlist[0].from; e != l && e != c
    ensures var r := At(w, l).conlist[0];
            var v := AcceptBeginNext(w, l, c);
            && At(v, l) == Unqueued(At(w, l), 0) && At(v, r.from) == At(w, r.from).(token := Held(c))
            && At(v, c) == NewEndpoint(At(w, l).port, r)
            && (forall z :: z != l && z != c && z != r.from ==> At(v, z) == At(w, z))
            && (forall z :: z in w.eps ==> z in v.eps)
  {
    hide Unqueued, NewEndpoint;
  }

  lemma OnGntAckAt(w: World, s: nat)
    requires s in w.wire && w.wire[s].GntAck?
    ensures var c := w.wire[s].to;
            var v := OnGntAckNext(w, s);
            && At(v, c) == At(w, c).(state := Connected, link := Linked, joins := At(w, c).joins + 1)
            && v.wire == w.wire - {s} && v.connected == w.connected + multiset{c}
            && (forall z :: z != c ==> At(v, z) == At(w, z)) && (forall z :: z in w.eps ==> z in v.eps)
  {
    hide Active;
  }

  // ------------------------------------------------ all together

  /** The first request with the address of the termination's sender, if there is one, is the sender's. */
  predicate FindsOwn(w: World, s: nat, l: Ep)
    requires s in w.wire && w.wire[s].Term?
  {
    var list := At(w, l).conlist;
    var i := FindRequest(list, w.wire[s].from.addr);
    i < |list| ==> list[i].from == w.wire[s].from
  }

  /** If the step is a termination that finds a request, the request is its sender's. */
  predicate Sure(w: World, op: Step)
    requires Enabled(w, op)
  {
    op.OnTerm? && op.found ==> FindsOwn(w, op.s, op.l)
  }

  /** No two nodes use the same address for an endpoint. */
  ghost predicate DistinctAddresses(w: World) {
    forall e, f :: e in w.eps && f in w.eps && e.addr == f.addr ==> e == f
  }
}
