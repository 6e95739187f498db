/**
 Runs of connections, one stretch at a time: what the world is like after a call or a
 handler has had its turn, and nobody else.
 */
module ConnectionRuns {
  import opened ConnectionSpec

  // ------------------------------------------------ runs and their steps

  ghost predicate Leads(w: World, op: Step, v: World) {
    Enabled(w, op) && Next(w, op) == v
  }

  /** The run goes on by one step. */
  lemma Go(before: seq<Step>, w: World, op: Step, v: World) returns (ops: seq<Step>)
    requires Run(before) == w && Leads(w, op, v)
    ensures Run(ops) == v
  {
    ops := before + [op];
    assert ops[..|before|] == before;
  }

  lemma OwnerLeads(w: World, e: Ep)
    ensures e !in w.eps ==> Leads(w, Open(e), Put(w, e, UNOPENED.(state := Unbound)))
    ensures At(w, e).state.Unbound? && At(w, e).call.Idle? ==>
              Leads(w, Bind(e, 5), Put(w, e, At(w, e).(state := Bound, port := 5)))
    ensures At(w, e).state.Bound? && At(w, e).call.Idle? ==>
              Leads(w, ListenBegin(e, 4), Put(w, e, At(w, e).(state := Listening, call := ListenAdd, backlog := 4,
                                                              conreqcnt := 0, conlist := [])))
    ensures At(w, e).call.ListenAdd? ==>
              Leads(w, ListenEnd(e), Put(w, e, At(w, e).(call := Idle)).(listen := w.listen + multiset{e}))
  {
  }

  lemma ConnectLeads(w: World, e: Ep, dst: PortId)
    ensures At(w, e).call.Idle? && (At(w, e).state.Unbound? || (At(w, e).state.Bound? && At(w, e).port == 9)) ==>
              Leads(w, ConnectBegin(e, dst, 9), Put(w, e, At(w, e).(state := Connecting, call := ConnectPrep(dst),
                                                                    port := 9, remoteDev := dst.node)))
    ensures At(w, e).call.ConnectPrep? ==> Leads(w, ConnectSend(e), ConnectSendNext(w, e))
    ensures At(w, e).call.ConnectWait? ==> Leads(w, ConnectInterrupt(e), ConnectInterruptNext(w, e))
    ensures (At(w, e).call.ConnectWait? || At(w, e).call.ConnectTerm?) && !At(w, e).state.Connecting? ==>
              && Leads(w, ConnectFinish(e, true), ConnectFinishNext(w, e, true))
              && Leads(w, ConnectFinish(e, false), ConnectFinishNext(w, e, false))
  {
    hide ConnectFinishNext, ConnectSendNext, ConnectInterruptNext;
  }

  lemma AcceptLeads(w: World, l: Ep, c: Ep)
    ensures (At(w, l).state.Listening? && At(w, l).call.Idle? && At(w, l).conlist != []
             && c.node == l.node && c !in w.eps) ==> Leads(w, AcceptBegin(l, c), AcceptBeginNext(w, l, c))
    ensures At(w, c).call.AcceptTake? ==> Leads(w, AcceptGrant(c), AcceptGrantNext(w, c))
  {
    hide AcceptBeginNext, AcceptGrantNext;
  }

  lemma CloseLeads(w: World, e: Ep)
    ensures At(w, e).call.Idle? && At(w, e).looks == 0 && !At(w, e).flushing && !At(w, e).state.Unopened? ==>
              Leads(w, CloseBegin(e), Put(w, e, ClosingFrom(At(w, e))))
    ensures At(w, e).call.CloseLook? ==> Leads(w, CloseLookup(e), CloseLookupNext(w, e))
    ensures At(w, e).call.CloseDone? ==> Leads(w, CloseFinish(e), CloseFinishNext(w, e))
  {
    hide ClosingFrom, CloseLookupNext, CloseFinishNext;
  }

  lemma HandlerLeads(w: World, s: nat, l: Ep)
    requires Deliverable(w, s)
    ensures w.wire[s].Req? && OnListen(w, l, w.wire[s].dst) ==> Leads(w, OnReq(s, l, true), OnReqNext(w, s, l, true))
    ensures w.wire[s].Req? ==> Leads(w, OnReq(s, l, false), OnReqNext(w, s, l, false))
    ensures w.wire[s].Term? && OnListen(w, l, w.wire[s].dst) ==> Leads(w, OnTerm(s, l, true), OnTermNext(w, s, l, true))
    ensures w.wire[s].Gnt? ==> Leads(w, OnGnt(s), OnGntNext(w, s))
    ensures w.wire[s].Rej? ==> Leads(w, OnRej(s), OnRejNext(w, s))
    ensures w.wire[s].TermAck? ==> Leads(w, OnTermAck(s), OnTermAckNext(w, s))
  {
    hide At, Deliverable, OnListen, OnReqNext, OnTermNext, OnGntNext, OnRejNext, OnTermAckNext;
  }

  // ------------------------------------------------ stretches of a run

  /** Only the endpoints in `ex` differ. */
  ghost predicate Only(w: World, v: World, ex: set<Ep>) {
    && (forall z :: z !in ex ==> At(v, z) == At(w, z) && (z in v.eps <==> z in w.eps))
    && (forall z :: z in ex ==> z in v.eps)
  }

  /** No list and no count differs. */
  ghost predicate Lists(w: World, v: World) {
    v.listen == w.listen && v.connected == w.connected && v.zombie == w.zombie && v.active == w.active
  }

  lemma Opens(before: seq<Step>, w: World, e: Ep) returns (ops: seq<Step>, v: World)
    requires Run(before) == w && e !in w.eps
    ensures Run(ops) == v && Only(w, v, {e}) && Lists(w, v) && At(v, e) == UNOPENED.(state := Unbound)
    ensures v.wire == w.wire && v.next == w.next && v.clock == w.clock
  {
    hide Run, Leads;
    v := Put(w, e, UNOPENED.(state := Unbound));
    OwnerLeads(w, e);
    ops := Go(before, w, Open(e), v);
  }

  lemma Binds(before: seq<Step>, w: World, e: Ep) returns (ops: seq<Step>, v: World)
    requires Run(before) == w && At(w, e).call.Idle? && At(w, e).state.Unbound?
    ensures Run(ops) == v && Only(w, v, {e}) && Lists(w, v) && At(v, e) == At(w, e).(state := Bound, port := 5)
    ensures v.wire == w.wire && v.next == w.next && v.clock == w.clock
  {
    hide Run, Leads;
    v := Put(w, e, At(w, e).(state := Bound, port := 5));
    OwnerLeads(w, e);
    ops := Go(before, w, Bind(e, 5), v);
  }

  lemma Listens(before: seq<Step>, w: World, e: Ep) returns (ops: seq<Step>, v: World)
    requires Run(before) == w && At(w, e).call.Idle? && At(w, e).state.Bound?
    ensures Run(ops) == v && Only(w, v, {e}) && Lists(w, v.(listen := w.listen)) && v.listen == w.listen + multiset{e}
    ensures At(v, e) == At(w, e).(state := Listening, backlog := 4, conreqcnt := 0, conlist := [])
    ensures v.wire == w.wire && v.next == w.next && v.clock == w.clock
  {
    hide Run, Leads;
    var u := Put(w, e, At(w, e).(state := Listening, call := ListenAdd, backlog := 4, conreqcnt := 0, conlist := []));
    v := Put(u, e, At(u, e).(call := Idle)).(listen := w.listen + multiset{e});
    OwnerLeads(w, e);
    OwnerLeads(u, e);
    ops := Go(before, w, ListenBegin(e, 4), u);
    ops := Go(ops, u, ListenEnd(e), v);
  }

  /** A connect call sends its request as message `n`. */
  function Asking(x: Endpoint, dst: PortId, n: nat): Endpoint {
    x.(state := Connecting, call := ConnectWait(dst), port := 9, remoteDev := dst.node, attempt := n,
       token := OnWire(n))
  }

  lemma Asks(before: seq<Step>, w: World, e: Ep, dst: PortId) returns (ops: seq<Step>, v: World)
    requires Run(before) == w && At(w, e).call.Idle?
    requires At(w, e).state.Unbound? || (At(w, e).state.Bound? && At(w, e).port == 9)
    ensures Run(ops) == v && Only(w, v, {e}) && Lists(w, v) && At(v, e) == Asking(At(w, e), dst, w.next)
    ensures v.wire == w.wire[w.next := Req(e, PortId(e.node, 9), dst)] && v.next == w.next + 1 && v.clock == w.clock
  {
    hide Run, Leads;
    var u := Put(w, e, At(w, e).(state := Connecting, call := ConnectPrep(dst), port := 9, remoteDev := dst.node));
    v := ConnectSendNext(u, e);
    ConnectLeads(w, e, dst);
    ConnectLeads(u, e, dst);
    ops := Go(before, w, ConnectBegin(e, dst, 9), u);
    ops := Go(ops, u, ConnectSend(e), v);
  }

  lemma IsQueued(before: seq<Step>, w: World, s: nat, l: Ep) returns (ops: seq<Step>, v: World)
    requires Run(before) == w && Deliverable(w, s) && w.wire[s].Req? && OnListen(w, l, w.wire[s].dst)
    requires l != w.wire[s].from && At(w, l).conreqcnt < At(w, l).backlog
    ensures var e := w.wire[s].from;
            var r := Request(e, w.wire[s].src, s, w.clock);
            && Run(ops) == v && Only(w, v, {e, l}) && Lists(w, v)
            && At(v, e) == At(w, e).(asked := At(w, e).asked + 1, token := Queued(l, r))
            && At(v, l) == At(w, l).(conlist := At(w, l).conlist + [r], conreqcnt := At(w, l).conreqcnt + 1)
    ensures v.wire == w.wire - {s} && v.next == w.next && v.clock == w.clock + 1
  {
    hide Run, Leads;
    v := OnReqNext(w, s, l, true);
    HandlerLeads(w, s, l);
    ops := Go(before, w, OnReq(s, l, true), v);
  }

  /** A request is rejected for want of memory, and the rejection meets a call that was interrupted meanwhile. */
  lemma IsRejected(before: seq<Step>, w: World, s: nat, l: Ep) returns (ops: seq<Step>, v: World)
    requires Run(before) == w && Deliverable(w, s) && w.wire[s].Req?
    ensures var e := w.wire[s].from;
            && Run(ops) == v && Only(w, v, {e}) && Lists(w, v)
            && At(v, e) == Replied(At(w, e).(asked := At(w, e).asked + 1), w.next)
            && v.wire == (w.wire - {s})[w.next := Rej(e, w.wire[s].dst.node, s)]
    ensures v.next == w.next + 1 && v.clock == w.clock
  {
    hide Run, Leads;
    v := OnReqNext(w, s, l, false);
    HandlerLeads(w, s, l);
    ops := Go(before, w, OnReq(s, l, false), v);
  }

  lemma Interrupts(before: seq<Step>, w: World, e: Ep) returns (ops: seq<Step>, v: World)
    requires Run(before) == w && At(w, e).call.ConnectWait?
    ensures var x := At(w, e);
            && Run(ops) == v && Only(w, v, {e}) && Lists(w, v) && At(v, e) == x.(call := ConnectTerm(x.call.dst))
            && v.wire == w.wire[w.next := Term(e, PortId(e.node, x.port), x.call.dst, x.attempt)]
    ensures v.next == w.next + 1 && v.clock == w.clock
  {
    hide Run, Leads;
    v := ConnectInterruptNext(w, e);
    ConnectLeads(w, e, NOBODY);
    ops := Go(before, w, ConnectInterrupt(e), v);
  }

  /** A rejection, or an acknowledged termination, makes the endpoint BOUND, whatever it is doing in the second case. */
  lemma BecomesBound(before: seq<Step>, w: World, s: nat) returns (ops: seq<Step>, v: World)
    requires Run(before) == w && Deliverable(w, s) && (w.wire[s].Rej? || w.wire[s].TermAck?)
    requires At(w, w.wire[s].to).state.Connecting? || (w.wire[s].TermAck? && !At(w, w.wire[s].to).state.Bound?)
    ensures var e := w.wire[s].to;
            Run(ops) == v && Only(w, v, {e}) && Lists(w, v) && At(v, e) == At(w, e).(state := Bound, token := NoToken)
    ensures v.wire == w.wire - {s} && v.next == w.next && v.clock == w.clock
  {
    hide Run, Leads;
    HandlerLeads(w, s, NOWHERE);
    if w.wire[s].Rej? {
      v := OnRejNext(w, s);
      ops := Go(before, w, OnRej(s), v);
    } else {
      v := OnTermAckNext(w, s);
      ops := Go(before, w, OnTermAck(s), v);
    }
  }

  lemma ReturnsUnconnected(before: seq<Step>, w: World, e: Ep) returns (ops: seq<Step>, v: World)
    requires Run(before) == w && At(w, e).call.ConnectTerm? && At(w, e).state.Bound?
    ensures Run(ops) == v && Only(w, v, {e}) && Lists(w, v) && At(v, e) == At(w, e).(call := Idle)
    ensures v.wire == w.wire && v.next == w.next && v.clock == w.clock
  {
    hide Run, Leads;
    v := ConnectFinishNext(w, e, false);
    ConnectLeads(w, e, NOBODY);
    ops := Go(before, w, ConnectFinish(e, false), v);
  }

  /** The first request leaves the queue. */
  function Advanced(x: Endpoint): Endpoint
    requires x.conlist != []
  {
    x.(conlist := x.conlist[1..], conreqcnt := x.conreqcnt - 1)
  }

  lemma AdvancedIsUnqueued(x: Endpoint)
    requires x.conlist != []
    ensures Unqueued(x, 0) == Advanced(x)
  {
  }

  /** A termination takes the first request of the queue, which is another endpoint's at the same address. */
  lemma TakesAnother(before: seq<Step>, w: World, s: nat, l: Ep) returns (ops: seq<Step>, v: World)
    requires Run(before) == w && Deliverable(w, s) && w.wire[s].Term? && OnListen(w, l, w.wire[s].dst)
    requires l != w.wire[s].from && At(w, l).conlist != [] && At(w, l).conlist[0].from.addr == w.wire[s].from.addr
    ensures var p := w.wire[s];
            && Run(ops) == v && Only(w, v, {l, p.from}) && Lists(w, v) && At(v, l) == Advanced(At(w, l))
            && At(v, p.from) == Replied(At(w, p.from), w.next)
            && v.wire == (w.wire - {s})[w.next := TermAck(p.from, p.dst.node, p.id)]
    ensures v.next == w.next + 1 && v.clock == w.clock
  {
    hide Run, Leads, Unqueued, Advanced, Replied;
    AdvancedIsUnqueued(At(w, l));
    v := OnTermNext(w, s, l, true);
    HandlerLeads(w, s, l);
    ops := Go(before, w, OnTerm(s, l, true), v);
  }

  /** The first request of `l` is taken by the new endpoint `c` and granted. */
  lemma IsGranted(before: seq<Step>, w: World, l: Ep, c: Ep) returns (ops: seq<Step>, v: World)
    requires Run(before) == w && At(w, l).state.Listening? && At(w, l).call.Idle? && At(w, l).conlist != []
    requires c.node == l.node && c !in w.eps && c != l && At(w, l).conlist[0].from !in {l, c}
    ensures var r := At(w, l).conlist[0];
            && Run(ops) == v && Only(w, v, {l, c, r.from}) && Lists(w, v) && At(v, l) == Advanced(At(w, l))
            && At(v, r.from) == Replied(At(w, r.from), w.next)
            && At(v, c) == NewEndpoint(At(w, l).port, r).(call := AcceptWait, link := GrantSent(w.next))
            && v.wire == w.wire[w.next := Gnt(r.from, PortId(c.node, At(w, l).port), r.id, c)]
    ensures v.next == w.next + 1 && v.clock == w.clock
  {
    hide Run, Leads, Unqueued, Advanced;
    AdvancedIsUnqueued(At(w, l));
    var u := AcceptBeginNext(w, l, c);
    v := AcceptGrantNext(u, c);
    AcceptLeads(w, l, c);
    AcceptLeads(u, l, c);
    ops := Go(before, w, AcceptBegin(l, c), u);
    ops := Go(ops, u, AcceptGrant(c), v);
  }

  lemma Maps(before: seq<Step>, w: World, s: nat) returns (ops: seq<Step>, v: World)
    requires Run(before) == w && Deliverable(w, s) && w.wire[s].Gnt? && At(w, w.wire[s].to).state.Connecting?
    requires w.wire[s].to != w.wire[s].cep
    ensures var p := w.wire[s];
            && Run(ops) == v && Only(w, v, {p.to, p.cep}) && Lists(w, v)
            && At(v, p.cep) == At(w, p.cep).(link := Granted)
            && At(v, p.to) == At(w, p.to).(state := Mapping, peer := p.src, grant := p.cep, token := NoToken)
    ensures v.wire == w.wire - {s} && v.next == w.next && v.clock == w.clock
  {
    hide Run, Leads;
    v := OnGntNext(w, s);
    HandlerLeads(w, s, NOWHERE);
    ops := Go(before, w, OnGnt(s), v);
  }

  lemma Connects(before: seq<Step>, w: World, e: Ep) returns (ops: seq<Step>, v: World)
    requires Run(before) == w && At(w, e).call.ConnectWait? && At(w, e).state.Mapping? && At(w, e).grant != e
    ensures var x := At(w, e);
            && Run(ops) == v && Only(w, v, {e, x.grant}) && Lists(w, v.(connected := w.connected, active := w.active))
            && At(v, x.grant) == At(w, x.grant).(link := AckSent(w.next))
            && At(v, e) == x.(state := Connected, call := Idle, remoteEp := x.grant, joins := x.joins + 1)
            && v.connected == w.connected + multiset{e}
            && v.active == w.active[(e.node, x.remoteDev) := Active(w, e.node, x.remoteDev) + 1]
            && v.wire == w.wire[w.next := GntAck(x.grant, e.node)]
    ensures v.next == w.next + 1 && v.clock == w.clock
  {
    v := ConnectDone(w, e);
    assert v == ConnectFinishNext(w, e, true);
    hide Run, Leads, Enabled, Next, ConnectFinishNext;
    ConnectLeads(w, e, NOBODY);
    ops := Go(before, w, ConnectFinish(e, true), v);
  }

  lemma Refuses(before: seq<Step>, w: World, e: Ep) returns (ops: seq<Step>, v: World)
    requires Run(before) == w && At(w, e).call.ConnectWait? && At(w, e).state.Mapping? && At(w, e).grant != e
    ensures var x := At(w, e);
            && Run(ops) == v && Only(w, v, {e, x.grant}) && Lists(w, v)
            && At(v, e) == x.(state := Bound, call := Idle, remoteEp := x.grant)
            && v.wire == w.wire[w.next := GntNack(x.grant, e.node)]
  {
    hide Run, Leads;
    v := ConnectFinishNext(w, e, false);
    ConnectLeads(w, e, NOBODY);
    ops := Go(before, w, ConnectFinish(e, false), v);
  }

  /** A close that finds the endpoint BOUND. */
  lemma Closes(before: seq<Step>, w: World, e: Ep) returns (ops: seq<Step>, v: World)
    requires Run(before) == w && At(w, e).state.Bound? && At(w, e).call.Idle?
    requires At(w, e).looks == 0 && !At(w, e).flushing
    ensures Run(ops) == v && Only(w, v, {e}) && Lists(w, v.(zombie := w.zombie)) && v.zombie == w.zombie + multiset{e}
    ensures At(v, e) == At(w, e).(state := Zombie, call := Gone)
    ensures v.wire == w.wire && v.next == w.next && v.clock == w.clock
  {
    hide Run, Leads;
    var t := Put(w, e, ClosingFrom(At(w, e)));
    var u := CloseLookupNext(t, e);
    v := CloseFinishNext(u, e);
    CloseLeads(w, e);
    CloseLeads(t, e);
    CloseLeads(u, e);
    ops := Go(before, w, CloseBegin(e), t);
    ops := Go(ops, t, CloseLookup(e), u);
    ops := Go(ops, u, CloseFinish(e), v);
  }
}
