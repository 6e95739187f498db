/**
 One endpoint at a time: every change a step makes to an endpoint keeps its fields and
 its places on the four lists in agreement.
 */
module ConnectionShapes {
  import opened ConnectionSpec
  import opened ConnectionInv

  /** A change that nobody but the endpoint's owner can notice. */
  ghost predicate Unnoticed(a: Endpoint, b: Endpoint) {
    && b.token == a.token && b.attempt == a.attempt && b.conlist == a.conlist && b.farewell == a.farewell
    && b.link == a.link && b.accepted == a.accepted && b.joins == a.joins && b.remoteEp == a.remoteEp
    && b.peer == a.peer && b.grant == a.grant && b.state.Mapping? == a.state.Mapping?
    && !a.call.AcceptTake? && !b.call.AcceptTake? && !b.state.Unopened?
    && (b.call.ConnectWait? ==> a.call.ConnectWait?) && (a.token.NoToken? || b.call == a.call)
    && (b.remoteDev == a.remoteDev || (Loose(a) && !a.accepted))
    && (b.port == a.port || (Loose(a) && (a.state.Unopened? || a.state.Unbound?)))
    && (b.state.Unbound? ==> a.state.Unopened? || a.state.Unbound?)
  }

  ghost predicate Quietly(a: Endpoint, b: Endpoint, l: nat, c: nat, d: nat, z: nat) {
    Unnoticed(a, b) && Shape(b, l, c, d, z)
  }

  // ------------------------------------------------ calls of an endpoint's owner

  lemma UnopenedShape(x: Endpoint)
    requires x == UNOPENED
    ensures Shape(x, 0, 0, 0, 0)
  {
  }

  lemma OpenShape(x: Endpoint, l: nat, c: nat, d: nat, z: nat)
    requires Shape(x, l, c, d, z) && x.state.Unopened?
    ensures Quietly(x, x.(state := Unbound), l, c, d, z)
  {
  }

  lemma BindShape(x: Endpoint, l: nat, c: nat, d: nat, z: nat, port: nat)
    requires Shape(x, l, c, d, z) && x.state.Unbound? && x.call.Idle?
    ensures Quietly(x, x.(state := Bound, port := port), l, c, d, z)
  {
  }

  lemma ListenBeginShape(x: Endpoint, l: nat, c: nat, d: nat, z: nat, backlog: int)
    requires Shape(x, l, c, d, z) && x.state.Bound? && x.call.Idle?
    ensures Quietly(x, x.(state := Listening, call := ListenAdd, backlog := backlog, conreqcnt := 0, conlist := []),
                    l, c, d, z)
  {
  }

  lemma ListenEndShape(x: Endpoint, l: nat, c: nat, d: nat, z: nat)
    requires Shape(x, l, c, d, z) && x.call.ListenAdd?
    ensures Quietly(x, x.(call := Idle), l + 1, c, d, z)
  {
  }

  lemma ClListenShape(x: Endpoint, l: nat, c: nat, d: nat, z: nat)
    requires Shape(x, l, c, d, z) && x.state.Listening?
    ensures Quietly(x, x.(state := ClListen), l, c, d, z)
  {
  }

  lemma ConnectBeginShape(x: Endpoint, l: nat, c: nat, d: nat, z: nat, dst: PortId, port: nat)
    requires Shape(x, l, c, d, z) && (x.state.Unbound? || (x.state.Bound? && port == x.port)) && x.call.Idle?
    ensures Quietly(x, x.(state := Connecting, call := ConnectPrep(dst), port := port, remoteDev := dst.node),
                    l, c, d, z)
  {
  }

  lemma ConnectPrepShape(x: Endpoint, l: nat, c: nat, d: nat, z: nat, n: nat)
    requires Shape(x, l, c, d, z) && x.call.ConnectPrep?
    ensures Quietly(x, x.(state := Bound, call := Idle), l, c, d, z)
    ensures Shape(x.(call := ConnectWait(x.call.dst), attempt := n, token := OnWire(n)), l, c, d, z)
  {
  }

  lemma ConnectWaitShape(x: Endpoint, l: nat, c: nat, d: nat, z: nat)
    requires Shape(x, l, c, d, z) && (x.call.ConnectWait? || x.call.ConnectTerm?)
    ensures x.call.ConnectWait? ==> Shape(x.(call := ConnectTerm(x.call.dst)), l, c, d, z)
    ensures x.state.Bound? ==> Quietly(x, x.(call := Idle), l, c, d, z)
    ensures !x.state.Connecting? && !x.state.Mapping? ==> x.state.Bound?
  {
  }

  lemma MappingShape(x: Endpoint, l: nat, c: nat, d: nat, z: nat)
    requires Shape(x, l, c, d, z) && x.state.Mapping?
    ensures Shape(x.(state := Connected, call := Idle, remoteEp := x.grant, joins := x.joins + 1), l, c + 1, d, z)
    ensures Shape(x.(state := Bound, call := Idle, remoteEp := x.grant), l, c, d, z)
  {
  }

  lemma FlushBeginShape(x: Endpoint, l: nat, c: nat, d: nat, z: nat)
    requires Shape(x, l, c, d, z) && x.state.Connected? && x.call.Idle?
    ensures Quietly(x, x.(looks := x.looks + 1), l, c, d, z)
  {
  }

  lemma FlushFoundShape(x: Endpoint, l: nat, c: nat, d: nat, z: nat, n: nat)
    requires Shape(x, l, c, d, z) && x.looks > 0 && c > 0
    ensures Shape(Departed(x.(looks := x.looks - 1, flushing := true), n), l, c - 1, d, z)
  {
  }

  lemma FlushLateShape(x: Endpoint, l: nat, c: nat, d: nat, z: nat)
    requires Shape(x, l, c, d, z) && x.looks > 0 && c == 0
    ensures Quietly(x, x.(looks := x.looks - 1), l, c, if d > 0 then d - 1 else 0, z)
  {
  }

  lemma FlushEndShape(x: Endpoint, l: nat, c: nat, d: nat, z: nat)
    requires Shape(x, l, c, d, z) && x.flushing && x.state.Disconnected?
    ensures Quietly(x, x.(flushing := false, state := Disconnected), l, c, d + 1, z)
  {
  }

  lemma CloseBeginShape(x: Endpoint, l: nat, c: nat, d: nat, z: nat)
    requires Shape(x, l, c, d, z) && x.call.Idle? && x.looks == 0 && !x.flushing && !x.state.Unopened?
    ensures Quietly(x, ClosingFrom(x), l, c, d, z)
  {
  }

  lemma CloseLookShape(x: Endpoint, l: nat, c: nat, d: nat, z: nat, n: nat)
    requires Shape(x, l, c, d, z) && x.call.CloseLook?
    ensures x.call.origin.FromQuiet? ==> Quietly(x, x.(call := CloseDone), l, c, d, z)
    ensures x.call.origin.FromListening? ==> Quietly(x, x.(call := CloseReject), if l > 0 then l - 1 else 0, c, d, z)
    ensures x.call.origin.FromDisconnected? ==> Quietly(x, x.(call := CloseDone), l, c, if d > 0 then d - 1 else 0, z)
    ensures x.call.origin.FromConnected? && c == 0 ==> Quietly(x, x.(call := CloseDone), l, c,
                                                               if d > 0 then d - 1 else 0, z)
    ensures x.call.origin.FromConnected? && c > 0 ==> Shape(Departed(x.(call := CloseWait), n), l, c - 1, d, z)
  {
  }

  lemma CloseEndShape(x: Endpoint, l: nat, c: nat, d: nat, z: nat)
    requires Shape(x, l, c, d, z)
    ensures x.call.CloseReject? && x.conlist == [] ==> Quietly(x, x.(call := CloseDone), l, c, d, z)
    ensures x.call.CloseWait? && x.state.Disconnected? ==> Quietly(x, x.(call := CloseDone), l, c, d, z)
    ensures x.call.CloseDone? ==> Quietly(x, x.(state := Zombie, call := Gone), l, c, d, z + 1)
  {
  }

  // ------------------------------------------------ accepting

  lemma AcceptTakeShape(x: Endpoint, l: nat, c: nat, d: nat, z: nat, n: nat)
    requires Shape(x, l, c, d, z) && x.call.AcceptTake?
    ensures Shape(x.(call := Gone), l, c, d, z)
    ensures Shape(x.(call := AcceptWait, link := GrantSent(n)), l, c, d, z)
  {
  }

  lemma AcceptFinishShape(x: Endpoint, l: nat, c: nat, d: nat, z: nat)
    requires Shape(x, l, c, d, z) && x.call.AcceptWait? && !x.state.Connecting?
    ensures Quietly(x, x.(call := if x.state.Closing? then Gone else Idle), l, c, d, z)
  {
  }

  lemma NewEndpointShape(port: nat, r: Request)
    ensures Shape(NewEndpoint(port, r), 0, 0, 0, 0)
  {
  }

  lemma LinkMoveShape(x: Endpoint, l: nat, c: nat, d: nat, z: nat, link: Link)
    requires Shape(x, l, c, d, z) && Linking(x)
    ensures link.GrantSent? || link.Granted? || link.AckSent? || link.NackSent? ==> Shape(x.(link := link), l, c, d, z)
    ensures Shape(x.(state := Connected, link := Linked, joins := x.joins + 1), l, c + 1, d, z)
    ensures Shape(x.(state := Closing, link := Refused), l, c, d, z)
  {
  }

  // ------------------------------------------------ requests and replies

  lemma UnqueuedShape(x: Endpoint, l: nat, c: nat, d: nat, z: nat, i: nat)
    requires Shape(x, l, c, d, z) && i < |x.conlist|
    ensures Shape(Unqueued(x, i), l, c, d, z)
  {
    UnqueuedMembers(x, i);
    hide Unqueued;
  }

  lemma QueuedShape(x: Endpoint, l: nat, c: nat, d: nat, z: nat, r: Request)
    requires Shape(x, l, c, d, z) && l > 0 && x.conreqcnt < x.backlog
    requires forall q :: q in x.conlist ==> q.stamp < r.stamp
    ensures Shape(x.(conlist := x.conlist + [r], conreqcnt := x.conreqcnt + 1), l, c, d, z)
  {
  }

  lemma TokenMoveShape(x: Endpoint, l: nat, c: nat, d: nat, z: nat, n: nat, token: Token)
    requires Shape(x, l, c, d, z) && !x.token.NoToken?
    ensures x.token.OnWire? ==> Shape(Replied(x.(asked := x.asked + 1), n), l, c, d, z)
    ensures x.token.OnWire? && token.Queued? ==> Shape(x.(asked := x.asked + 1, token := token), l, c, d, z)
    ensures x.token.Queued? && token.Held? ==> Shape(x.(token := token), l, c, d, z)
    ensures x.token.Queued? || x.token.Held? ==> Shape(Replied(x, n), l, c, d, z)
  {
  }

  lemma TokenEndShape(x: Endpoint, l: nat, c: nat, d: nat, z: nat, peer: PortId, grant: Ep)
    requires Shape(x, l, c, d, z) && x.token.OnWire?
    ensures Shape(x.(state := Mapping, peer := peer, grant := grant, token := NoToken), l, c, d, z)
    ensures Shape(x.(state := Bound, token := NoToken), l, c, d, z)
  {
  }

  // ------------------------------------------------ disconnects

  lemma DisconnectShape(x: Endpoint, l: nat, c: nat, d: nat, z: nat, n: nat)
    requires Shape(x, l, c, d, z)
    ensures c > 0 ==> Shape(x.(state := Disconnected, leaves := x.leaves + 1), l, c - 1, d + 1, z)
    ensures x.farewell.DiscnctSent? ==> Shape(x.(farewell := DiscntAckSent(n)), l, c, d, z)
    ensures x.farewell.DiscntAckSent? ==> Shape(x.(state := Disconnected, farewell := NoFarewell), l, c, d, z)
  {
  }
}
