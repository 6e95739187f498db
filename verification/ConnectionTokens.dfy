/**
 Requests and replies: every step keeps each connecting endpoint's one token where the
 endpoint, the queues and the messages in flight agree it is.
 */
module ConnectionTokens {
  import opened ConnectionSpec
  import opened ConnectionInv

  predicate TokenKind(p: Packet) {
    IsRequest(p) || p.Term?
  }

  /** Nothing about the endpoint's token, queue or held request changes. */
  ghost predicate TokenCalm(w: World, v: World, e: Ep) {
    var a, b := At(w, e), At(v, e);
    && b.token == a.token && b.attempt == a.attempt && b.conlist == a.conlist
    && (a.token.NoToken?
        || (b.port == a.port && b.remoteDev == a.remoteDev && (a.call.ConnectTerm? ==> b.call.ConnectTerm?)))
    && (a.call.AcceptTake? || b.call.AcceptTake? ==> b.call == a.call && b.remoteEp == a.remoteEp)
    && (b.call.ConnectWait? ==> a.call.ConnectWait?)
    && (e in w.eps ==> e in v.eps)
  }

  ghost predicate TokenWire(w: World, v: World, s: nat) {
    && (s in v.wire && TokenKind(v.wire[s]) ==> s in w.wire && w.wire[s] == v.wire[s])
    && (s in w.wire && TokenKind(w.wire[s]) ==> s in v.wire && w.wire[s] == v.wire[s])
  }

  ghost predicate TokenInv(w: World) {
    && (forall e :: TokenAt(w, e)) && (forall e :: RequestsAt(w, e))
    && (forall s :: RequestPacket(w, s)) && (forall s :: TermPacket(w, s))
    && (forall s :: s in w.wire ==> s < w.next)
  }

  /** Nothing a termination in flight relies on changes. */
  ghost predicate TermCalm(w: World, v: World, e: Ep) {
    var a, b := At(w, e), At(v, e);
    && (e in w.eps ==> e in v.eps)
    && (b.token.Queued? ==> b.token == a.token)
    && ((b.attempt == a.attempt && (b.call.ConnectWait? ==> a.call.ConnectWait?))
        || (b.attempt == w.next && !b.token.Queued?))
  }

  /** What an endpoint that changes must leave to those that do not. */
  ghost predicate TokenRespects(w: World, v: World, e: Ep, ex: set<Ep>, gone: set<nat>) {
    var a, b := At(w, e), At(v, e);
    && TokenAt(v, e) && RequestsAt(v, e)
    && (forall r :: r in a.conlist && r.from !in ex ==> r in b.conlist)
    && (a.call.AcceptTake? && a.call.req.from !in ex ==> b.call == a.call)
    && match a.token {
         case NoToken => true
         case OnWire(s) => s in gone || TokenCalm(w, v, e)
         case Queued(l, _) => l in ex || TokenCalm(w, v, e)
         case Held(c) => c in ex || TokenCalm(w, v, e)
       }
    && (TermCalm(w, v, e) || forall s :: s in v.wire && v.wire[s].Term? && v.wire[s].from == e ==> TermPacket(v, s))
  }

  /** A step that changes the endpoints in `ex`, handles the messages in `gone` and sends those in `sent`. */
  lemma TokenStep(w: World, v: World, ex: set<Ep>, gone: set<nat>, sent: set<nat>)
    requires TokenInv(w) && v.next >= w.next && v.clock >= w.clock
    requires forall e :: e !in ex ==> TokenCalm(w, v, e)
    requires forall e :: e in ex ==> TokenRespects(w, v, e, ex, gone)
    requires forall s :: s !in gone && s !in sent ==> TokenWire(w, v, s)
    requires forall s :: s in gone && s in w.wire && IsRequest(w.wire[s]) ==> Party(w.wire[s]) in ex
    requires forall s :: s in gone ==> s !in v.wire
    requires forall s :: s in sent ==> s !in w.wire && RequestPacket(v, s) && TermPacket(v, s)
    requires forall s :: s in v.wire ==> s < v.next
    ensures TokenInv(v)
  {
    hide At;
    forall x ensures TokenAt(v, x) {
      if x !in ex {
        assert TokenAt(w, x) && TokenCalm(w, v, x);
        var tok := At(w, x).token;
        if tok.OnWire? { assert TokenWire(w, v, tok.serial); }
        if tok.Queued? && tok.listener !in ex { assert TokenCalm(w, v, tok.listener); }
        if tok.Held? && tok.acceptor !in ex { assert TokenCalm(w, v, tok.acceptor); }
      }
    }
    forall x ensures RequestsAt(v, x) {
      if x !in ex {
        assert RequestsAt(w, x) && TokenCalm(w, v, x);
        forall r | r in At(v, x).conlist
          ensures At(v, r.from).token == Queued(x, r) && Names(v, r, x.node) && r.stamp < v.clock
        {
          assert TokenCalm(w, v, r.from);
        }
        if At(w, x).call.AcceptTake? { assert TokenCalm(w, v, At(w, x).call.req.from); }
      }
    }
    forall s ensures RequestPacket(v, s) {
      if s !in sent && s in v.wire && IsRequest(v.wire[s]) {
        assert RequestPacket(w, s) && TokenWire(w, v, s);
        assert TokenCalm(w, v, Party(v.wire[s]));
      }
    }
    forall s ensures TermPacket(v, s) {
      if s !in sent && s in v.wire && v.wire[s].Term? {
        assert TermPacket(w, s) && TokenWire(w, v, s);
        if v.wire[s].from !in ex { assert TokenCalm(w, v, v.wire[s].from); }
      }
    }
  }

  // ------------------------------------------------ steps that move a token

  lemma ConnectSendTokens(w: World, e: Ep)
    requires TokenInv(w) && Roles(w, e) && At(w, e).call.ConnectPrep?
    ensures TokenInv(ConnectSendNext(w, e))
  {
    var v := ConnectSendNext(w, e);
    assert TokenAt(w, e) && RequestsAt(w, e);
    TokenStep(w, v, {e}, {}, {w.next});
  }

  lemma ConnectInterruptTokens(w: World, e: Ep)
    requires TokenInv(w) && Roles(w, e) && At(w, e).call.ConnectWait?
    ensures TokenInv(ConnectInterruptNext(w, e))
  {
    var v := ConnectInterruptNext(w, e);
    assert TokenAt(w, e) && RequestsAt(w, e);
    TokenStep(w, v, {e}, {}, {w.next});
  }

  lemma AcceptBeginTokens(w: World, l: Ep, c: Ep)
    requires TokenInv(w) && At(w, l).conlist != [] && c.node == l.node && c !in w.eps
    requires Roles(w, l) && Roles(w, c) && Roles(w, At(w, l).conlist[0].from) && QueueShape(At(w, l))
    ensures TokenInv(AcceptBeginNext(w, l, c))
  {
    var v := AcceptBeginNext(w, l, c);
    var e := At(w, l).conlist[0].from;
    UnqueuedMembers(At(w, l), 0);
    assert TokenAt(w, e) && RequestsAt(w, e) && TokenAt(w, l) && RequestsAt(w, l) && TokenAt(w, c);
    AcceptBeginAt(w, l, c);
    hide Unqueued, QueueShape, AcceptBeginNext, At;
    TokenStep(w, v, {l, c, e}, {}, {});
  }

  lemma AcceptFailTokens(w: World, c: Ep)
    requires TokenInv(w) && At(w, c).call.AcceptTake? && Roles(w, c) && Roles(w, At(w, c).call.req.from)
    ensures TokenInv(AcceptFailNext(w, c))
  {
    var v := AcceptFailNext(w, c);
    var e := At(w, c).call.req.from;
    assert TokenAt(w, e) && RequestsAt(w, e) && TokenAt(w, c) && RequestsAt(w, c);
    TokenStep(w, v, {c, e}, {}, {w.next});
  }

  lemma AcceptGrantTokens(w: World, c: Ep)
    requires TokenInv(w) && At(w, c).call.AcceptTake? && Roles(w, c) && Roles(w, At(w, c).call.req.from)
    ensures TokenInv(AcceptGrantNext(w, c))
  {
    var v := AcceptGrantNext(w, c);
    var e := At(w, c).call.req.from;
    assert TokenAt(w, e) && RequestsAt(w, e) && TokenAt(w, c) && RequestsAt(w, c);
    TokenStep(w, v, {c, e}, {}, {w.next});
  }

  /** The reply `p` answers request `i` in the queue of `l`. */
  ghost predicate Answers(w: World, l: Ep, i: nat, p: Packet) {
    && i < |At(w, l).conlist| && (p.Rej? || p.TermAck?) && p.node == l.node
    && p.to == At(w, l).conlist[i].from && p.id == At(w, l).conlist[i].id
    && (p.TermAck? ==> At(w, p.to).call.ConnectTerm?)
    && Roles(w, l) && Roles(w, p.to) && QueueShape(At(w, l))
  }

  /** No listener queues a request of its own. */
  lemma AnswersAnother(w: World, l: Ep, i: nat, p: Packet)
    requires TokenInv(w) && Answers(w, l, i, p)
    ensures l != p.to && At(w, p.to).token.Queued?
  {
    assert RequestsAt(w, l);
  }

  lemma AnswerQueuedAt(w: World, l: Ep, i: nat, p: Packet)
    requires i < |At(w, l).conlist| && (p.Rej? || p.TermAck?) && l != p.to
    ensures var v := AnswerQueued(w, l, i, p);
            At(v, l) == Unqueued(At(w, l), i) && At(v, p.to) == Replied(At(w, p.to), w.next)
    ensures forall z :: z != l && z != p.to ==> At(AnswerQueued(w, l, i, p), z) == At(w, z)
  {
    hide Unqueued, Replied;
  }

  lemma AnsweringQueue(w: World, l: Ep, i: nat, p: Packet)
    requires TokenInv(w) && Answers(w, l, i, p)
    ensures TokenRespects(w, AnswerQueued(w, l, i, p), l, {l, p.to}, {})
  {
    var v := AnswerQueued(w, l, i, p);
    UnqueuedMembers(At(w, l), i);
    AnswersAnother(w, l, i, p);
    AnswerQueuedAt(w, l, i, p);
    hide Unqueued, QueueShape, AnswerQueued, Replied;
    assert TokenAt(w, l) && RequestsAt(w, l);
    forall r | r in At(v, l).conlist
      ensures At(v, r.from).token == Queued(l, r) && Names(v, r, l.node) && r.stamp < v.clock
    {
      assert r.from != p.to && r.from != l;
    }
  }

  lemma AnsweredRequest(w: World, l: Ep, i: nat, p: Packet)
    requires TokenInv(w) && Answers(w, l, i, p)
    ensures TokenRespects(w, AnswerQueued(w, l, i, p), p.to, {l, p.to}, {})
  {
    hide Unqueued, QueueShape;
    assert RequestsAt(w, l) && TokenAt(w, p.to) && RequestsAt(w, p.to);
  }

  lemma AnswerQueuedTokens(w: World, l: Ep, i: nat, p: Packet)
    requires TokenInv(w) && Answers(w, l, i, p)
    ensures TokenInv(AnswerQueued(w, l, i, p))
  {
    assert RequestsAt(w, l);
    AnsweringQueue(w, l, i, p);
    AnsweredRequest(w, l, i, p);
    hide TokenRespects, Unqueued, QueueShape;
    TokenStep(w, AnswerQueued(w, l, i, p), {l, p.to}, {}, {w.next});
  }

  lemma OnReqQueuedTokens(w: World, s: nat, l: Ep)
    requires TokenInv(w) && Deliverable(w, s) && w.wire[s].Req? && OnListen(w, l, w.wire[s].dst)
    requires Roles(w, l) && Roles(w, w.wire[s].from) && l != w.wire[s].from && At(w, l).conreqcnt < At(w, l).backlog
    ensures TokenInv(OnReqNext(w, s, l, true))
  {
    var v := OnReqNext(w, s, l, true);
    var e := w.wire[s].from;
    assert RequestPacket(w, s) && TokenAt(w, e) && RequestsAt(w, e) && TokenAt(w, l) && RequestsAt(w, l);
    forall t | t in v.wire && v.wire[t].Term? && v.wire[t].from in {l, e} ensures TermPacket(v, t) {
      assert TermPacket(w, t);
    }
    TokenStep(w, v, {l, e}, {s}, {});
  }

  lemma OnReqRejectedTokens(w: World, s: nat, l: Ep, queued: bool)
    requires TokenInv(w) && Deliverable(w, s) && w.wire[s].Req?
    requires Roles(w, w.wire[s].from) && !(queued && At(w, l).conreqcnt < At(w, l).backlog)
    ensures TokenInv(OnReqNext(w, s, l, queued))
  {
    var v := OnReqNext(w, s, l, queued);
    var e := w.wire[s].from;
    assert RequestPacket(w, s) && TokenAt(w, e) && RequestsAt(w, e);
    TokenStep(w, v, {e}, {s}, {w.next});
  }

  /** A request of the sender that a termination finds is that of the attempt that sent the termination. */
  lemma TermFindsOwnRequest(w: World, s: nat, l: Ep)
    requires TokenInv(w) && s in w.wire && w.wire[s].Term? && OnListen(w, l, w.wire[s].dst) && FindsOwn(w, s, l)
    requires FindRequest(At(w, l).conlist, w.wire[s].from.addr) < |At(w, l).conlist| && Roles(w, w.wire[s].from)
    ensures var e := w.wire[s].from;
            var r := At(w, l).conlist[FindRequest(At(w, l).conlist, e.addr)];
            r.from == e && r.id == w.wire[s].id
            && At(w, e).call.ConnectTerm?
  {
    var e := w.wire[s].from;
    var r := At(w, l).conlist[FindRequest(At(w, l).conlist, e.addr)];
    assert TermPacket(w, s) && RequestsAt(w, l) && r in At(w, l).conlist;
  }

  /** Addresses that tell endpoints apart are enough. */
  lemma DistinctFindsOwn(w: World, s: nat, l: Ep)
    requires TokenInv(w) && s in w.wire && w.wire[s].Term? && DistinctAddresses(w)
    ensures FindsOwn(w, s, l)
  {
    var list := At(w, l).conlist;
    var i := FindRequest(list, w.wire[s].from.addr);
    if i < |list| {
      assert TermPacket(w, s) && RequestsAt(w, l) && list[i] in list;
      assert list[i].from in w.eps;
    }
  }

  lemma OnTermLateTokens(w: World, s: nat)
    requires TokenInv(w) && s in w.wire && w.wire[s].Term?
    ensures TokenInv(Taken(w, s))
  {
    TokenStep(w, Taken(w, s), {}, {s}, {});
  }

  lemma OnGntTokens(w: World, s: nat)
    requires TokenInv(w) && Deliverable(w, s) && w.wire[s].Gnt?
    requires Roles(w, w.wire[s].to) && Roles(w, w.wire[s].cep) && At(w, w.wire[s].cep).link.GrantSent?
    ensures TokenInv(OnGntNext(w, s))
  {
    var v := OnGntNext(w, s);
    var e := w.wire[s].to;
    assert RequestPacket(w, s) && TokenAt(w, e) && RequestsAt(w, e);
    TokenStep(w, v, {e}, {s}, {});
  }

  lemma OnRejTokens(w: World, s: nat)
    requires TokenInv(w) && Deliverable(w, s) && w.wire[s].Rej? && Roles(w, w.wire[s].to)
    ensures TokenInv(OnRejNext(w, s))
  {
    var v := OnRejNext(w, s);
    var e := w.wire[s].to;
    assert RequestPacket(w, s) && TokenAt(w, e) && RequestsAt(w, e);
    TokenStep(w, v, {e}, {s}, {});
  }

  lemma OnTermAckTokens(w: World, s: nat)
    requires TokenInv(w) && Deliverable(w, s) && w.wire[s].TermAck? && Roles(w, w.wire[s].to)
    ensures TokenInv(OnTermAckNext(w, s))
  {
    var v := OnTermAckNext(w, s);
    var e := w.wire[s].to;
    assert RequestPacket(w, s) && TokenAt(w, e) && RequestsAt(w, e);
    TokenStep(w, v, {e}, {s}, {});
  }
}
