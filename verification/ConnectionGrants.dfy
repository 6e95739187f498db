/**
 Grants: every step keeps the two endpoints of a handshake naming each other.
 */
module ConnectionGrants {
  import opened ConnectionSpec
  import opened ConnectionInv

  ghost predicate GrantInv(w: World) {
    && (forall e :: GrantAt(w, e)) && (forall e :: AcceptedAt(w, e)) && (forall e :: PairAt(w, e))
    && (forall s :: GrantPacket(w, s))
  }

  predicate GrantKind(p: Packet) {
    p.Gnt? || p.GntAck? || p.GntNack?
  }

  /** What an accepted endpoint may rely on once this endpoint has asked. */
  ghost predicate NameCalm(a: Endpoint, b: Endpoint) {
    !a.state.Unopened? && !a.state.Unbound? ==>
      b.port == a.port && b.accepted == a.accepted && !b.state.Unopened? && !b.state.Unbound?
  }

  /** Nothing about the endpoint's part in a handshake changes. */
  ghost predicate GrantCalm(w: World, v: World, e: Ep) {
    var a, b := At(w, e), At(v, e);
    && NameCalm(a, b) && b.link == a.link && b.accepted == a.accepted && b.joins == a.joins && b.remoteEp == a.remoteEp
    && (b.peer == a.peer && b.grant == a.grant && b.state.Mapping? == a.state.Mapping?)
    && (b.port == a.port || (!Linking(a) && a.joins == 0))
    && (b.remoteDev == a.remoteDev || (!a.accepted && a.joins == 0 && !a.state.Mapping?))
  }

  ghost predicate GrantWire(w: World, v: World, s: nat) {
    && (s in v.wire && GrantKind(v.wire[s]) ==> s in w.wire && w.wire[s] == v.wire[s])
    && (s in w.wire && GrantKind(w.wire[s]) ==> s in v.wire && w.wire[s] == v.wire[s])
  }

  /** What an endpoint that changes must leave to those that do not. */
  ghost predicate GrantRespects(w: World, v: World, e: Ep, ex: set<Ep>, gone: set<nat>) {
    var a, b := At(w, e), At(v, e);
    && GrantAt(v, e) && AcceptedAt(v, e) && PairAt(v, e) && NameCalm(a, b)
    && (a.state.Mapping? && a.grant !in ex ==> b.state.Mapping? && b.grant == a.grant)
    && match a.link {
         case Granted => a.remoteEp in ex || (b.link == a.link && b.remoteEp == a.remoteEp && b.port == a.port)
         case GrantSent(s) => s in gone || (b.link == a.link && b.remoteEp == a.remoteEp && b.port == a.port)
         case AckSent(s) => s in gone || (b.link == a.link && b.remoteEp == a.remoteEp && b.port == a.port)
         case NackSent(s) => s in gone || (b.link == a.link && b.remoteEp == a.remoteEp && b.port == a.port)
         case _ => true
       }
    && (a.joins == 1 || a.link.AckSent? ==> a.remoteEp in ex)
  }

  /** A step that changes the endpoints in `ex`, handles the messages in `gone` and sends those in `sent`. */
  lemma GrantStep(w: World, v: World, ex: set<Ep>, gone: set<nat>, sent: set<nat>)
    requires GrantInv(w)
    requires forall e :: e !in ex ==> GrantCalm(w, v, e)
    requires forall e :: e in ex ==> GrantRespects(w, v, e, ex, gone)
    requires forall s :: s !in gone && s !in sent ==> GrantWire(w, v, s)
    requires forall s :: s in gone && s in w.wire ==>
      (w.wire[s].Gnt? ==> w.wire[s].cep in ex) && (w.wire[s].GntAck? || w.wire[s].GntNack? ==> w.wire[s].to in ex)
    requires forall s :: s in gone ==> s !in v.wire
    requires forall s :: s in sent ==> s !in w.wire && GrantPacket(v, s)
    ensures GrantInv(v)
  {
    hide At;
    forall x ensures GrantAt(v, x) {
      if x !in ex {
        assert GrantAt(w, x) && GrantCalm(w, v, x);
        var a := At(w, x);
        if a.link.GrantSent? || a.link.AckSent? || a.link.NackSent? { assert GrantWire(w, v, a.link.serial); }
        if a.link.Granted? && a.remoteEp !in ex { assert GrantCalm(w, v, a.remoteEp); }
        if a.state.Mapping? && a.grant !in ex { assert GrantCalm(w, v, a.grant); }
      }
    }
    forall x ensures AcceptedAt(v, x) {
      if x !in ex {
        assert AcceptedAt(w, x) && GrantCalm(w, v, x);
        if At(w, x).remoteEp !in ex { assert GrantCalm(w, v, At(w, x).remoteEp); }
      }
    }
    forall x ensures PairAt(v, x) {
      if x !in ex {
        assert PairAt(w, x) && GrantCalm(w, v, x);
        if At(w, x).remoteEp !in ex { assert GrantCalm(w, v, At(w, x).remoteEp); }
      }
    }
    forall s ensures GrantPacket(v, s) {
      if s !in sent && s in v.wire && GrantKind(v.wire[s]) {
        assert GrantPacket(w, s) && GrantWire(w, v, s);
        var c := if v.wire[s].Gnt? then v.wire[s].cep else v.wire[s].to;
        if c !in ex { assert GrantCalm(w, v, c); }
      }
    }
  }

  // ------------------------------------------------ steps of a handshake

  lemma AcceptBeginGrants(w: World, l: Ep, c: Ep)
    requires GrantInv(w) && At(w, l).conlist != [] && c !in w.eps && l in w.eps
    requires Roles(w, l) && Roles(w, c) && Roles(w, At(w, l).conlist[0].from)
    requires var r := At(w, l).conlist[0];
             At(w, r.from).token.Queued? && r.src == PortId(r.from.node, At(w, r.from).port)
    ensures GrantInv(AcceptBeginNext(w, l, c))
  {
    assert GrantAt(w, c) && AcceptedAt(w, c) && PairAt(w, c);
    GrantStep(w, AcceptBeginNext(w, l, c), {c}, {}, {});
  }

  lemma AcceptGrantGrants(w: World, c: Ep)
    requires GrantInv(w) && At(w, c).call.AcceptTake? && Roles(w, c) && Roles(w, At(w, c).call.req.from)
    requires At(w, c).remoteEp == At(w, c).call.req.from && At(w, At(w, c).call.req.from).token.Held?
    requires forall s :: s in w.wire ==> s < w.next
    ensures GrantInv(AcceptGrantNext(w, c))
  {
    assert GrantAt(w, c) && AcceptedAt(w, c) && PairAt(w, c);
    GrantStep(w, AcceptGrantNext(w, c), {c}, {}, {w.next});
  }

  lemma OnGntGrants(w: World, s: nat)
    requires GrantInv(w) && s in w.wire && w.wire[s].Gnt? && At(w, w.wire[s].to).state.Connecting?
    requires Roles(w, w.wire[s].to) && Roles(w, w.wire[s].cep) && !At(w, w.wire[s].to).accepted
    requires At(w, w.wire[s].to).remoteDev == w.wire[s].src.node && !At(w, w.wire[s].to).token.NoToken?
    ensures GrantInv(OnGntNext(w, s))
  {
    var e, c := w.wire[s].to, w.wire[s].cep;
    assert GrantPacket(w, s) && GrantAt(w, c) && AcceptedAt(w, c);
    assert PairAt(w, c) && GrantAt(w, e) && AcceptedAt(w, e) && PairAt(w, e);
    GrantStep(w, OnGntNext(w, s), {e, c}, {s}, {});
  }

  lemma ConnectDoneGrants(w: World, e: Ep)
    requires GrantInv(w) && At(w, e).state.Mapping? && Roles(w, e) && Roles(w, At(w, e).grant)
    requires forall s :: s in w.wire ==> s < w.next
    ensures GrantInv(ConnectDone(w, e))
  {
    var c := At(w, e).grant;
    assert GrantAt(w, c) && AcceptedAt(w, c) && PairAt(w, c) && GrantAt(w, e) && AcceptedAt(w, e) && PairAt(w, e);
    ConnectDoneAt(w, e);
    hide ConnectDone, At;
    GrantStep(w, ConnectDone(w, e), {e, c}, {}, {w.next});
  }

  lemma ConnectRefuseGrants(w: World, e: Ep)
    requires GrantInv(w) && At(w, e).state.Mapping? && Roles(w, e) && Roles(w, At(w, e).grant)
    requires forall s :: s in w.wire ==> s < w.next
    ensures GrantInv(ConnectRefuse(w, e))
  {
    var c := At(w, e).grant;
    assert GrantAt(w, c) && AcceptedAt(w, c) && PairAt(w, c) && GrantAt(w, e) && AcceptedAt(w, e) && PairAt(w, e);
    GrantStep(w, ConnectRefuse(w, e), {e, c}, {}, {w.next});
  }

  lemma OnGntAckGrants(w: World, s: nat)
    requires GrantInv(w) && s in w.wire && w.wire[s].GntAck? && Roles(w, w.wire[s].to)
    ensures GrantInv(OnGntAckNext(w, s))
  {
    var c := w.wire[s].to;
    var e := At(w, c).remoteEp;
    assert GrantPacket(w, s) && GrantAt(w, c) && AcceptedAt(w, c);
    assert PairAt(w, c) && GrantAt(w, e) && AcceptedAt(w, e) && PairAt(w, e);
    OnGntAckAt(w, s);
    hide OnGntAckNext, At;
    GrantStep(w, OnGntAckNext(w, s), {e, c}, {s}, {});
  }

  lemma OnGntNackGrants(w: World, s: nat)
    requires GrantInv(w) && s in w.wire && w.wire[s].GntNack? && Roles(w, w.wire[s].to)
    ensures GrantInv(OnGntNackNext(w, s))
  {
    var c := w.wire[s].to;
    assert GrantPacket(w, s) && GrantAt(w, c) && AcceptedAt(w, c) && PairAt(w, c);
    GrantStep(w, OnGntNackNext(w, s), {c}, {s}, {});
  }
}
