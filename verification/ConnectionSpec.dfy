/**
 Connections between endpoints of any number of nodes, step by step: the calls that
 open, bind, listen, connect, accept, flush and close endpoints, the handlers of the
 nine messages they exchange, and the node queues that carry those messages in order.

 A step is what a call or a handler does between taking and dropping its locks.
 */
module ConnectionSpec {

  /** A pointer to an endpoint, as one node's kernel knows it; messages carry the address alone. */
  datatype Ep = Ep(node: nat, addr: nat)

  /** struct scif_portID */
  datatype PortId = PortId(node: nat, port: nat)

  /** enum endptstate; Unopened is memory that holds no endpoint yet. */
  datatype EpState =
    | Unopened
    | Unbound
    | Bound
    | Listening
    | Connected
    | Connecting
    | Mapping
    | Closing
    | ClListen
    | Disconnected
    | Zombie

  /** struct conreq: a request from `from`, sent as message `id`, the `stamp`-th to be queued anywhere. */
  datatype Request = Request(from: Ep, src: PortId, id: nat, stamp: nat)

  /** What a close found the endpoint doing. */
  datatype Origin = FromDisconnected | FromQuiet | FromConnected | FromListening

  /** Where the call that owns the endpoint is. */
  datatype Call =
    | Idle
    | ListenAdd                 // __scif_listen: LISTENING, not yet on mi_listen
    | ConnectPrep(dst: PortId)  // __scif_connect: CONNECTING, request not sent
    | ConnectWait(dst: PortId)  // request sent
    | ConnectTerm(dst: PortId)  // interrupted, termination sent
    | AcceptTake(req: Request)  // __scif_accept: request taken off the queue
    | AcceptWait                // grant sent
    | CloseLook(origin: Origin) // __scif_close: CLOSING
    | CloseReject               // off mi_listen, rejecting what is queued
    | CloseWait                 // disconnect sent
    | CloseDone                 // about to join mi_zombie
    | Gone                      // zombie, or freed by an accept that failed

  // ------------------------------------------------ bookkeeping

  /** Where a connecting endpoint's one request, or the reply to it, is. */
  datatype Token =
    | NoToken
    | OnWire(serial: nat)
    | Queued(listener: Ep, req: Request)
    | Held(acceptor: Ep)

  /** How far the grant of an accepted endpoint has come. */
  datatype Link =
    | NoLink
    | GrantSent(serial: nat)
    | Granted           // the connecting endpoint is MAPPING
    | AckSent(serial: nat)
    | NackSent(serial: nat)
    | Linked
    | Refused

  /** Where an endpoint's disconnect, or the acknowledgement of it, is. */
  datatype Farewell = NoFarewell | DiscnctSent(serial: nat) | DiscntAckSent(serial: nat)

  datatype Endpoint = Endpoint(
    state: EpState,
    call: Call,
    port: nat,
    peer: PortId,
    remoteDev: nat,
    remoteEp: Ep,
    accepted: bool,
    grant: Ep,              // the endpoint behind cnct_gnt_payload
    backlog: int,
    conreqcnt: int,
    conlist: seq<Request>,
    looks: nat,             // flush calls that saw CONNECTED and will search mi_connected
    flushing: bool,         // a flush call that sent its disconnect
    joins: nat,             // times put on mi_connected
    leaves: nat,            // times taken off it
    token: Token,
    link: Link,
    farewell: Farewell,
    attempt: nat,           // message number of the last request
    asked: nat,             // requests of this endpoint delivered
    answered: nat)          // replies sent to it

  const NOWHERE := Ep(0, 0)
  const NOBODY := PortId(0, 0)
  const UNOPENED := Endpoint(Unopened, Idle, 0, NOBODY, 0, NOWHERE, false, NOWHERE, 0, 0, [], 0, false, 0, 0,
                             NoToken, NoLink, NoFarewell, 0, 0, 0)

  // ------------------------------------------------ messages

  datatype Packet =
    | Req(from: Ep, src: PortId, dst: PortId)
    | Term(from: Ep, src: PortId, dst: PortId, id: nat)
    | Rej(to: Ep, node: nat, id: nat)
    | TermAck(to: Ep, node: nat, id: nat)
    | Gnt(to: Ep, src: PortId, id: nat, cep: Ep)
    | GntAck(to: Ep, node: nat)
    | GntNack(to: Ep, node: nat)
    | Discnct(to: Ep, from: Ep)
    | DiscntAck(to: Ep, node: nat)

  function Source(p: Packet): nat {
    match p
    case Req(from, _, _) => from.node
    case Term(from, _, _, _) => from.node
    case Rej(_, node, _) => node
    case TermAck(_, node, _) => node
    case Gnt(_, src, _, _) => src.node
    case GntAck(_, node) => node
    case GntNack(_, node) => node
    case Discnct(_, from) => from.node
    case DiscntAck(_, node) => node
  }

  function Target(p: Packet): nat {
    match p
    case Req(_, _, dst) => dst.node
    case Term(_, _, dst, _) => dst.node
    case _ => p.to.node
  }

  /**
   Messages in flight by their number, which counts messages sent; the four global lists,
   each for all nodes together; the connection count of each node's view of each device.
   */
  datatype World = World(
    eps: map<Ep, Endpoint>,
    wire: map<nat, Packet>,
    next: nat,
    clock: nat,
    listen: multiset<Ep>,
    connected: multiset<Ep>,
    disconnected: multiset<Ep>,
    zombie: multiset<Ep>,
    active: map<(nat, nat), int>)

  function At(w: World, e: Ep): Endpoint {
    if e in w.eps then w.eps[e] else UNOPENED
  }

  /** One endpoint changed. */
  function Put(w: World, e: Ep, x: Endpoint): World {
    w.(eps := w.eps[e := x])
  }

  /** Two endpoints changed. */
  function Both(w: World, e: Ep, x: Endpoint, f: Ep, y: Endpoint): World {
    w.(eps := w.eps[f := y][e := x])
  }

  function Sent(w: World, p: Packet): World {
    w.(wire := w.wire[w.next := p], next := w.next + 1)
  }

  predicate SameQueue(p: Packet, q: Packet) {
    Source(p) == Source(q) && Target(p) == Target(q)
  }

  /** Each pair of nodes has one queue in each direction: its oldest message is the next to be handled. */
  predicate Deliverable(w: World, s: nat) {
    s in w.wire
    && forall t :: t in w.wire && SameQueue(w.wire[t], w.wire[s]) ==> s <= t
  }

  function Taken(w: World, s: nat): World {
    w.(wire := w.wire - {s})
  }

  function Active(w: World, n: nat, r: nat): int {
    if (n, r) in w.active then w.active[(n, r)] else 0
  }

  /** list_add_tail to mi_connected, get_conn_count */
  function Join(w: World, e: Ep, dev: nat): World {
    w.(connected := w.connected + multiset{e}, active := w.active[(e.node, dev) := Active(w, e.node, dev) + 1])
  }

  /** list_del from mi_connected, put_conn_count */
  function Leave(w: World, e: Ep, dev: nat): World {
    w.(connected := w.connected - multiset{e}, active := w.active[(e.node, dev) := Active(w, e.node, dev) - 1])
  }

  // ------------------------------------------------ steps

  datatype Step =
    | Open(e: Ep)
    | Bind(e: Ep, port: nat)
    | ListenBegin(e: Ep, backlog: int)
    | ListenEnd(e: Ep)
    | ConnectBegin(e: Ep, dst: PortId, port: nat)
    | ConnectFail(e: Ep)
    | ConnectSend(e: Ep)
    | ConnectInterrupt(e: Ep)
    | ConnectFinish(e: Ep, mapped: bool)
    | AcceptBegin(l: Ep, c: Ep)
    | AcceptFail(c: Ep)
    | AcceptGrant(c: Ep)
    | AcceptFinish(c: Ep)
    | FlushBegin(e: Ep)
    | FlushLookup(e: Ep)
    | FlushEnd(e: Ep)
    | CloseBegin(e: Ep)
    | CloseLookup(e: Ep)
    | CloseRejectOne(e: Ep)
    | CloseAcked(e: Ep)
    | CloseFinish(e: Ep)
    | OnReq(s: nat, l: Ep, queued: bool)
    | OnTerm(s: nat, l: Ep, found: bool)
    | OnGnt(s: nat)
    | OnGntAck(s: nat)
    | OnGntNack(s: nat)
    | OnRej(s: nat)
    | OnTermAck(s: nat)
    | OnDiscnct(s: nat)
    | OnDiscntAck(s: nat)

  predicate OnListen(w: World, l: Ep, dst: PortId) {
    l in w.listen && l.node == dst.node && At(w, l).port == dst.port
  }

  /** micscif_get_connection_request compares addresses only. */
  function FindRequest(list: seq<Request>, addr: nat): (i: nat)
    ensures i <= |list| && (i < |list| ==> list[i].from.addr == addr)
    ensures forall j :: 0 <= j < i ==> list[j].from.addr != addr
  {
    if list == [] || list[0].from.addr == addr then 0 else FindRequest(list[1..], addr) + 1
  }

  predicate Enabled(w: World, op: Step) {
    match op
    case Open(e) => At(w, e).state.Unopened? && e !in w.eps
    case Bind(e, port) => At(w, e).state.Unbound? && At(w, e).call.Idle? && port > 0
    case ListenBegin(e, _) => At(w, e).state.Bound? && At(w, e).call.Idle?
    case ListenEnd(e) => At(w, e).call.ListenAdd?
    case ConnectBegin(e, _, port) =>
      At(w, e).call.Idle? && ((At(w, e).state.Unbound? && port > 0) || (At(w, e).state.Bound? && port == At(w, e).port))
    case ConnectFail(e) => At(w, e).call.ConnectPrep?
    case ConnectSend(e) => At(w, e).call.ConnectPrep?
    case ConnectInterrupt(e) => At(w, e).call.ConnectWait?
    case ConnectFinish(e, _) =>
      (At(w, e).call.ConnectWait? || At(w, e).call.ConnectTerm?) && !At(w, e).state.Connecting?
    case AcceptBegin(l, c) => // the state is tested before the lock is taken, so a flush can come in between
      && (At(w, l).state.Listening? || At(w, l).state.ClListen?) && At(w, l).call.Idle? && At(w, l).conlist != []
      && c.node == l.node && c !in w.eps
    case AcceptFail(c) => At(w, c).call.AcceptTake?
    case AcceptGrant(c) => At(w, c).call.AcceptTake?
    case AcceptFinish(c) => At(w, c).call.AcceptWait? && !At(w, c).state.Connecting?
    case FlushBegin(e) =>
      (At(w, e).call.Idle? && At(w, e).state.Connected?)
      || ((At(w, e).call.Idle? || At(w, e).call.ListenAdd?) && At(w, e).state.Listening?)
    case FlushLookup(e) => At(w, e).looks > 0
    case FlushEnd(e) => At(w, e).flushing && At(w, e).state.Disconnected?
    case CloseBegin(e) =>
      At(w, e).call.Idle? && At(w, e).looks == 0 && !At(w, e).flushing && !At(w, e).state.Unopened?
    case CloseLookup(e) => At(w, e).call.CloseLook?
    case CloseRejectOne(e) => At(w, e).call.CloseReject?
    case CloseAcked(e) => At(w, e).call.CloseWait? && At(w, e).state.Disconnected?
    case CloseFinish(e) => At(w, e).call.CloseDone?
    case OnReq(s, l, queued) => Deliverable(w, s) && w.wire[s].Req? && (queued ==> OnListen(w, l, w.wire[s].dst))
    case OnTerm(s, l, found) =>
      Deliverable(w, s) && w.wire[s].Term?
      && if found then OnListen(w, l, w.wire[s].dst) else forall k :: k in w.listen ==> !OnListen(w, k, w.wire[s].dst)
    case OnGnt(s) => Deliverable(w, s) && w.wire[s].Gnt?
    case OnGntAck(s) => Deliverable(w, s) && w.wire[s].GntAck?
    case OnGntNack(s) => Deliverable(w, s) && w.wire[s].GntNack?
    case OnRej(s) => Deliverable(w, s) && w.wire[s].Rej?
    case OnTermAck(s) => Deliverable(w, s) && w.wire[s].TermAck?
    case OnDiscnct(s) => Deliverable(w, s) && w.wire[s].Discnct?
    case OnDiscntAck(s) => Deliverable(w, s) && w.wire[s].DiscntAck?
  }

  // ------------------------------------------------ what a step does to one endpoint

  /** A reply to this endpoint's request goes out as message `n`. */
  function Replied(x: Endpoint, n: nat): Endpoint {
    x.(token := OnWire(n), answered := x.answered + 1)
  }

  /** Request `i` leaves the queue. */
  function Unqueued(x: Endpoint, i: nat): Endpoint
    requires i < |x.conlist|
  {
    x.(conlist := x.conlist[..i] + x.conlist[i + 1..], conreqcnt := x.conreqcnt - 1)
  }

  /** The endpoint leaves mi_connected and says so in message `n`. */
  function Departed(x: Endpoint, n: nat): Endpoint {
    x.(leaves := x.leaves + 1, farewell := DiscnctSent(n))
  }

  /** A close moves on by what it found the endpoint doing. */
  function ClosingFrom(x: Endpoint): Endpoint {
    var origin :=
      match x.state
      case Disconnected => FromDisconnected
      case Listening => FromListening
      case ClListen => FromListening
      case Connected => FromConnected
      case Closing => FromConnected
      case Mapping => FromConnected
      case _ => FromQuiet;
    x.(state := Closing, call := CloseLook(origin))
  }

  // ------------------------------------------------ calls

  /** __scif_connect up to the first wait. */
  function ConnectSendNext(w: World, e: Ep): World
    requires At(w, e).call.ConnectPrep?
  {
    var x := At(w, e);
    Sent(Put(w, e, x.(call := ConnectWait(x.call.dst), attempt := w.next, token := OnWire(w.next))),
         Req(e, PortId(e.node, x.port), x.call.dst))
  }

  function ConnectInterruptNext(w: World, e: Ep): World
    requires At(w, e).call.ConnectWait?
  {
    var x := At(w, e);
    Sent(Put(w, e, x.(call := ConnectTerm(x.call.dst))), Term(e, PortId(e.node, x.port), x.call.dst, x.attempt))
  }

  /** The grant is acknowledged and the endpoint joins mi_connected. */
  function ConnectDone(w: World, e: Ep): World {
    var x := At(w, e);
    var y := At(w, x.grant);
    Join(Sent(Both(w, e, x.(state := Connected, call := Idle, remoteEp := x.grant, joins := x.joins + 1),
                   x.grant, y.(link := AckSent(w.next))),
              GntAck(x.grant, e.node)),
         e, x.remoteDev)
  }

  /** The grant is refused: its queue could not be mapped, or the call was interrupted. */
  function ConnectRefuse(w: World, e: Ep): World {
    var x := At(w, e);
    var y := At(w, x.grant);
    Sent(Both(w, e, x.(state := Bound, call := Idle, remoteEp := x.grant), x.grant, y.(link := NackSent(w.next))),
         GntNack(x.grant, e.node))
  }

  /** The rest of __scif_connect. */
  function ConnectFinishNext(w: World, e: Ep, mapped: bool): World {
    var x := At(w, e);
    if x.state.Mapping? then
      if x.call.ConnectWait? && mapped then ConnectDone(w, e) else ConnectRefuse(w, e)
    else
      Put(w, e, x.(state := if x.call.ConnectTerm? then Bound else x.state, call := Idle))
  }

  /** The endpoint __scif_accept allocates for request `r`. */
  function NewEndpoint(port: nat, r: Request): Endpoint {
    UNOPENED.(state := Connecting, call := AcceptTake(r), port := port, peer := r.src, remoteDev := r.from.node,
              remoteEp := r.from, accepted := true)
  }

  /** __scif_accept takes the first request. */
  function AcceptBeginNext(w: World, l: Ep, c: Ep): World
    requires At(w, l).conlist != []
  {
    var x := At(w, l);
    var r := x.conlist[0];
    w.(eps := w.eps[l := Unqueued(x, 0)][r.from := At(w, r.from).(token := Held(c))][c := NewEndpoint(x.port, r)])
  }

  function AcceptFailNext(w: World, c: Ep): World
    requires At(w, c).call.AcceptTake?
  {
    var r := At(w, c).call.req;
    Sent(Both(w, c, At(w, c).(call := Gone), r.from, Replied(At(w, r.from), w.next)), Rej(r.from, c.node, r.id))
  }

  function AcceptGrantNext(w: World, c: Ep): World
    requires At(w, c).call.AcceptTake?
  {
    var x := At(w, c);
    var r := x.call.req;
    Sent(Both(w, c, x.(call := AcceptWait, link := GrantSent(w.next)), r.from, Replied(At(w, r.from), w.next)),
         Gnt(r.from, PortId(c.node, x.port), r.id, c))
  }

  /** An endpoint whose grant was refused is freed; any other is handed to the caller. */
  function AcceptFinishNext(w: World, c: Ep): World {
    Put(w, c, At(w, c).(call := if At(w, c).state.Closing? then Gone else Idle))
  }

  function FlushBeginNext(w: World, e: Ep): World {
    var x := At(w, e);
    Put(w, e, if x.state.Listening? then x.(state := ClListen) else x.(looks := x.looks + 1))
  }

  function FlushLookupNext(w: World, e: Ep): World
    requires At(w, e).looks > 0
  {
    var x := At(w, e).(looks := At(w, e).looks - 1);
    if e in w.connected then
      Sent(Put(Leave(w, e, x.remoteDev), e, Departed(x.(flushing := true), w.next)), Discnct(x.remoteEp, e))
    else
      Put(w, e, x).(disconnected := w.disconnected - multiset{e})
  }

  function FlushEndNext(w: World, e: Ep): World {
    Put(w, e, At(w, e).(flushing := false, state := Disconnected)).(disconnected := w.disconnected + multiset{e})
  }

  function CloseLookupNext(w: World, e: Ep): World
    requires At(w, e).call.CloseLook?
  {
    var x := At(w, e);
    match x.call.origin
    case FromDisconnected => Put(w, e, x.(call := CloseDone)).(disconnected := w.disconnected - multiset{e})
    case FromQuiet => Put(w, e, x.(call := CloseDone))
    case FromListening => Put(w, e, x.(call := CloseReject)).(listen := w.listen - multiset{e})
    case FromConnected =>
      if e in w.connected then
        Sent(Put(Leave(w, e, x.remoteDev), e, Departed(x.(call := CloseWait), w.next)), Discnct(x.remoteEp, e))
      else
        Put(w, e, x.(call := CloseDone)).(disconnected := w.disconnected - multiset{e})
  }

  /** Request `i` of a queue is answered: it leaves the queue and the reply `p` goes out. */
  function AnswerQueued(w: World, l: Ep, i: nat, p: Packet): World
    requires i < |At(w, l).conlist| && (p.Rej? || p.TermAck?)
  {
    var u := Put(w, l, Unqueued(At(w, l), i));
    Sent(Put(u, p.to, Replied(At(u, p.to), w.next)), p)
  }

  /** One round of the loop that rejects what is queued. */
  function CloseRejectNext(w: World, e: Ep): World {
    var x := At(w, e);
    if x.conlist == [] then Put(w, e, x.(call := CloseDone))
    else
      var r := x.conlist[0];
      AnswerQueued(w, e, 0, Rej(r.from, e.node, r.id))
  }

  function CloseFinishNext(w: World, e: Ep): World {
    Put(w, e, At(w, e).(state := Zombie, call := Gone)).(zombie := w.zombie + multiset{e})
  }

  // ------------------------------------------------ handlers

  /** scif_cnctreq_resp */
  function OnReqNext(w: World, s: nat, l: Ep, queued: bool): World
    requires s in w.wire && w.wire[s].Req?
  {
    var p := w.wire[s];
    var x := At(w, p.from).(asked := At(w, p.from).asked + 1);
    var y := At(w, l);
    if queued && y.conreqcnt < y.backlog then
      var r := Request(p.from, p.src, s, w.clock);
      Taken(Both(w, p.from, x.(token := Queued(l, r)), l,
                 y.(conlist := y.conlist + [r], conreqcnt := y.conreqcnt + 1)), s)
      .(clock := w.clock + 1)
    else
      Sent(Taken(Put(w, p.from, Replied(x, w.next)), s), Rej(p.from, p.dst.node, s))
  }

  /** scif_cnctterm_resp: only a request found in the queue is acknowledged. */
  function OnTermNext(w: World, s: nat, l: Ep, found: bool): World
    requires s in w.wire && w.wire[s].Term?
  {
    var p := w.wire[s];
    var y := At(w, l);
    var i := FindRequest(y.conlist, p.from.addr);
    if found && i < |y.conlist| then
      AnswerQueued(Taken(w, s), l, i, TermAck(p.from, p.dst.node, p.id))
    else
      Taken(w, s)
  }

  /** scif_cnctgnt_resp */
  function OnGntNext(w: World, s: nat): World
    requires s in w.wire && w.wire[s].Gnt?
  {
    var p := w.wire[s];
    var x := At(w, p.to);
    if x.state.Connecting? then
      Taken(Both(w, p.to, x.(state := Mapping, peer := p.src, grant := p.cep, token := NoToken),
                 p.cep, At(w, p.cep).(link := Granted)), s)
    else
      Taken(w, s)
  }

  /** scif_cnctgntack_resp */
  function OnGntAckNext(w: World, s: nat): World
    requires s in w.wire && w.wire[s].GntAck?
  {
    var p := w.wire[s];
    var x := At(w, p.to);
    Join(Taken(Put(w, p.to, x.(state := Connected, link := Linked, joins := x.joins + 1)), s), p.to, p.node)
  }

  /** scif_cnctgntnack_resp */
  function OnGntNackNext(w: World, s: nat): World
    requires s in w.wire && w.wire[s].GntNack?
  {
    var e := w.wire[s].to;
    Taken(Put(w, e, At(w, e).(state := Closing, link := Refused)), s)
  }

  /** scif_cnctrej_resp */
  function OnRejNext(w: World, s: nat): World
    requires s in w.wire && w.wire[s].Rej?
  {
    var e := w.wire[s].to;
    if At(w, e).state.Connecting? then Taken(Put(w, e, At(w, e).(state := Bound, token := NoToken)), s) else Taken(w, s)
  }

  /** scif_termack_resp */
  function OnTermAckNext(w: World, s: nat): World
    requires s in w.wire && w.wire[s].TermAck?
  {
    var e := w.wire[s].to;
    if At(w, e).state.Bound? then Taken(w, s) else Taken(Put(w, e, At(w, e).(state := Bound, token := NoToken)), s)
  }

  /** scif_discnct_resp: whether or not the endpoint is still on the list, the sender is answered. */
  function OnDiscnctNext(w: World, s: nat): World
    requires s in w.wire && w.wire[s].Discnct?
  {
    var p := w.wire[s];
    var x := At(w, p.from).(farewell := DiscntAckSent(w.next));
    var y := At(w, p.to);
    if p.to in w.connected then
      Sent(Both(Leave(Taken(w, s), p.to, p.from.node).(disconnected := w.disconnected + multiset{p.to}),
                p.from, x, p.to, y.(state := Disconnected, leaves := y.leaves + 1)),
           DiscntAck(p.from, p.to.node))
    else
      Sent(Put(Taken(w, s), p.from, x), DiscntAck(p.from, p.to.node))
  }

  /** scif_discntack_resp */
  function OnDiscntAckNext(w: World, s: nat): World
    requires s in w.wire && w.wire[s].DiscntAck?
  {
    var e := w.wire[s].to;
    Taken(Put(w, e, At(w, e).(state := Disconnected, farewell := NoFarewell)), s)
  }

  // ------------------------------------------------ runs

  function Next(w: World, op: Step): World
    requires Enabled(w, op)
  {
    match op
    case Open(e) => Put(w, e, At(w, e).(state := Unbound))
    case Bind(e, port) => Put(w, e, At(w, e).(state := Bound, port := port))
    case ListenBegin(e, backlog) =>
      Put(w, e, At(w, e).(state := Listening, call := ListenAdd, backlog := backlog, conreqcnt := 0, conlist := []))
    case ListenEnd(e) => Put(w, e, At(w, e).(call := Idle)).(listen := w.listen + multiset{e})
    case ConnectBegin(e, dst, port) =>
      Put(w, e, At(w, e).(state := Connecting, call := ConnectPrep(dst), port := port, remoteDev := dst.node))
    case ConnectFail(e) => Put(w, e, At(w, e).(state := Bound, call := Idle))
    case ConnectSend(e) => ConnectSendNext(w, e)
    case ConnectInterrupt(e) => ConnectInterruptNext(w, e)
    case ConnectFinish(e, mapped) => ConnectFinishNext(w, e, mapped)
    case AcceptBegin(l, c) => AcceptBeginNext(w, l, c)
    case AcceptFail(c) => AcceptFailNext(w, c)
    case AcceptGrant(c) => AcceptGrantNext(w, c)
    case AcceptFinish(c) => AcceptFinishNext(w, c)
    case FlushBegin(e) => FlushBeginNext(w, e)
    case FlushLookup(e) => FlushLookupNext(w, e)
    case FlushEnd(e) => FlushEndNext(w, e)
    case CloseBegin(e) => Put(w, e, ClosingFrom(At(w, e)))
    case CloseLookup(e) => CloseLookupNext(w, e)
    case CloseRejectOne(e) => CloseRejectNext(w, e)
    case CloseAcked(e) => Put(w, e, At(w, e).(call := CloseDone))
    case CloseFinish(e) => CloseFinishNext(w, e)
    case OnReq(s, l, queued) => OnReqNext(w, s, l, queued)
    case OnTerm(s, l, found) => OnTermNext(w, s, l, found)
    case OnGnt(s) => OnGntNext(w, s)
    case OnGntAck(s) => OnGntAckNext(w, s)
    case OnGntNack(s) => OnGntNackNext(w, s)
    case OnRej(s) => OnRejNext(w, s)
    case OnTermAck(s) => OnTermAckNext(w, s)
    case OnDiscnct(s) => OnDiscnctNext(w, s)
    case OnDiscntAck(s) => OnDiscntAckNext(w, s)
  }

  const EMPTY := World(map[], map[], 1, 0, multiset{}, multiset{}, multiset{}, multiset{}, map[])

  /** The world after a run; a step that cannot happen is skipped. */
  function Run(ops: seq<Step>): World {
    if ops == [] then EMPTY
    else
      var w, op := Run(ops[..|ops| - 1]), ops[|ops| - 1];
      if Enabled(w, op) then Next(w, op) else w
  }
}
