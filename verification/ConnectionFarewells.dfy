/**
 Disconnects: every step keeps it so that whoever is connected has a connected peer, or
 news of it on the way, and that a disconnect overtakes nothing it depends on.
 */
module ConnectionFarewells {
  import opened ConnectionSpec
  import opened ConnectionInv

  ghost predicate FarewellInv(w: World) {
    && (forall e :: FarewellAt(w, e)) && (forall e :: NewsAt(w, e))
    && (forall s :: FarewellPacket(w, s))
  }

  predicate FarewellKind(p: Packet) {
    p.Discnct? || p.DiscntAck?
  }

  /** Nothing about the endpoint's part in a disconnect changes. */
  ghost predicate FarewellCalm(w: World, v: World, e: Ep) {
    var a, b := At(w, e), At(v, e);
    && b.farewell == a.farewell && v.connected[e] == w.connected[e]
    && (b.link == a.link || (!a.link.AckSent? && !b.link.AckSent?))
    && (b.remoteEp == a.remoteEp || (a.farewell.NoFarewell? && !a.link.AckSent? && w.connected[e] == 0))
  }

  ghost predicate FarewellWire(w: World, v: World, s: nat) {
    && (s in v.wire && FarewellKind(v.wire[s]) ==> s in w.wire && w.wire[s] == v.wire[s])
    && (s in w.wire && FarewellKind(w.wire[s]) ==> s in v.wire && w.wire[s] == v.wire[s])
  }

  /** What an endpoint that changes must leave to those that do not: nobody but its peer looks at it. */
  ghost predicate FarewellRespects(w: World, v: World, e: Ep, ex: set<Ep>, gone: set<nat>) {
    var a, b := At(w, e), At(v, e);
    && FarewellAt(v, e) && NewsAt(v, e)
    && match a.farewell {
         case NoFarewell => true
         case DiscnctSent(s) => s in gone || (b.farewell == a.farewell && b.remoteEp == a.remoteEp)
         case DiscntAckSent(s) => s in gone || (b.farewell == a.farewell && b.remoteEp == a.remoteEp)
       }
    && (a.joins == 1 || a.link.AckSent? ==> a.remoteEp in ex)
  }

  /** A step that changes the endpoints in `ex`, handles the messages in `gone` and sends those in `sent`. */
  lemma FarewellStep(w: World, v: World, ex: set<Ep>, gone: set<nat>, sent: set<nat>)
    requires FarewellInv(w) && (forall e :: PairAt(w, e)) && (forall e :: Roles(w, e))
    requires forall e :: e !in ex ==> FarewellCalm(w, v, e)
    requires forall e :: e in ex ==> FarewellRespects(w, v, e, ex, gone)
    requires forall s :: s !in gone && s !in sent ==> FarewellWire(w, v, s)
    requires forall s :: s in gone && s in w.wire ==>
      (w.wire[s].Discnct? ==> w.wire[s].from in ex) && (w.wire[s].DiscntAck? ==> w.wire[s].to in ex)
    requires forall s :: s in gone ==> s !in v.wire
    requires forall s :: s in sent ==> s !in w.wire && FarewellPacket(v, s)
    ensures FarewellInv(v)
  {
    hide At;
    forall x ensures FarewellAt(v, x) {
      if x !in ex {
        assert FarewellAt(w, x) && FarewellCalm(w, v, x);
        var a := At(w, x);
        if !a.farewell.NoFarewell? { assert FarewellWire(w, v, a.farewell.serial); }
      }
    }
    forall x ensures NewsAt(v, x) {
      if x !in ex {
        assert NewsAt(w, x) && FarewellCalm(w, v, x) && PairAt(w, x) && Roles(w, x);
        if At(w, x).remoteEp !in ex { assert FarewellCalm(w, v, At(w, x).remoteEp); }
      }
    }
    forall s ensures FarewellPacket(v, s) {
      if s !in sent && s in v.wire && FarewellKind(v.wire[s]) {
        assert FarewellPacket(w, s) && FarewellWire(w, v, s);
        var e := if v.wire[s].Discnct? then v.wire[s].from else v.wire[s].to;
        if e !in ex { assert FarewellCalm(w, v, e); }
      }
    }
  }

  // ------------------------------------------------ steps of a connection's life

  ghost predicate Paired(w: World) {
    && FarewellInv(w) && (forall e :: PairAt(w, e)) && (forall e :: GrantAt(w, e)) && (forall e :: Roles(w, e))
    && (forall s :: GrantPacket(w, s)) && (forall s :: s in w.wire ==> s < w.next)
  }

  lemma ConnectDoneFarewells(w: World, e: Ep)
    requires Paired(w) && At(w, e).state.Mapping? && At(w, At(w, e).grant).link.Granted?
    requires At(w, At(w, e).grant).remoteEp == e
    ensures FarewellInv(ConnectDone(w, e))
  {
    var c := At(w, e).grant;
    assert Roles(w, e) && Roles(w, c) && FarewellAt(w, e) && NewsAt(w, e) && FarewellAt(w, c) && NewsAt(w, c);
    ConnectDoneAt(w, e);
    hide ConnectDone, At;
    FarewellStep(w, ConnectDone(w, e), {e, c}, {}, {});
  }

  lemma OnGntAckFarewells(w: World, s: nat)
    requires Paired(w) && s in w.wire && w.wire[s].GntAck? && At(w, w.wire[s].to).link == AckSent(s)
    ensures FarewellInv(OnGntAckNext(w, s))
  {
    var c := w.wire[s].to;
    var e := At(w, c).remoteEp;
    assert Roles(w, e) && Roles(w, c) && FarewellAt(w, e) && NewsAt(w, e) && FarewellAt(w, c) && NewsAt(w, c);
    assert PairAt(w, e) && PairAt(w, c);
    OnGntAckAt(w, s);
    hide OnGntAckNext, At;
    FarewellStep(w, OnGntAckNext(w, s), {e, c}, {}, {});
  }

  /** The endpoint leaves mi_connected and tells its peer. */
  lemma DepartFarewells(w: World, v: World, e: Ep)
    requires Paired(w) && w.connected[e] == 1
    requires forall z :: z != e ==> At(v, z) == At(w, z) && v.connected[z] == w.connected[z]
    requires At(v, e).farewell == DiscnctSent(w.next)
    requires At(v, e).remoteEp == At(w, e).remoteEp && At(v, e).link == At(w, e).link
    requires v.connected[e] == 0 && v.wire == w.wire[w.next := Discnct(At(w, e).remoteEp, e)]
    ensures FarewellInv(v)
  {
    var f := At(w, e).remoteEp;
    assert Roles(w, e) && Roles(w, f) && FarewellAt(w, e) && NewsAt(w, e) && FarewellAt(w, f) && NewsAt(w, f);
    assert PairAt(w, e) && PairAt(w, f) && GrantAt(w, f);
    hide At;
    FarewellStep(w, v, {e, f}, {}, {w.next});
  }

  /** A disconnect that is delivered has no grant ack to its target behind it. */
  lemma NoAckBehind(w: World, s: nat, e: Ep, f: Ep)
    requires Paired(w) && Deliverable(w, s) && w.wire[s] == Discnct(f, e)
    ensures !At(w, f).link.AckSent?
  {
    hide At;
    assert FarewellPacket(w, s) && NewsAt(w, e) && NewsAt(w, f) && Roles(w, e) && Roles(w, f);
    assert PairAt(w, e) && PairAt(w, f) && GrantAt(w, f);
    assert GrantPacket(w, if At(w, f).link.AckSent? then At(w, f).link.serial else s);
  }

  /** A disconnect is acknowledged, and finds its target off mi_connected or takes it off. */
  lemma AnswerFarewells(w: World, v: World, s: nat, e: Ep, f: Ep)
    requires Paired(w) && Deliverable(w, s) && w.wire[s] == Discnct(f, e)
    requires forall z :: z != e && z != f ==> At(v, z) == At(w, z) && v.connected[z] == w.connected[z]
    requires At(v, e) == At(w, e).(farewell := DiscntAckSent(w.next)) && v.connected[e] == w.connected[e]
    requires At(v, f).farewell == At(w, f).farewell
    requires At(v, f).remoteEp == At(w, f).remoteEp && At(v, f).link == At(w, f).link
    requires v.connected[f] == 0 && v.wire == (w.wire - {s})[w.next := DiscntAck(e, f.node)]
    ensures FarewellInv(v) && !At(w, f).link.AckSent?
  {
    hide At;
    NoAckBehind(w, s, e, f);
    assert FarewellPacket(w, s);
    assert Roles(w, e) && Roles(w, f) && FarewellAt(w, e) && NewsAt(w, e) && FarewellAt(w, f) && NewsAt(w, f);
    assert PairAt(w, e) && PairAt(w, f) && GrantAt(w, f);
    FarewellStep(w, v, {e, f}, {s}, {w.next});
  }

  lemma OnDiscntAckFarewells(w: World, s: nat)
    requires Paired(w) && Deliverable(w, s) && w.wire[s].DiscntAck?
    ensures FarewellInv(OnDiscntAckNext(w, s))
  {
    var e := w.wire[s].to;
    var f := At(w, e).remoteEp;
    assert FarewellPacket(w, s);
    assert Roles(w, e) && Roles(w, f) && FarewellAt(w, e) && NewsAt(w, e) && FarewellAt(w, f) && NewsAt(w, f);
    assert PairAt(w, e) && PairAt(w, f);
    FarewellStep(w, OnDiscntAckNext(w, s), {e, f}, {s}, {});
  }
}
