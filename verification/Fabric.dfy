/**
 The nodes' endpoint tables, lists and queues, updated in place by the calls and the
 message handlers.  Each method takes the step of the same name, keeps the invariant of
 all connections, and promises what follows from it; `Drive` lets them take turns.
 */
module Fabric {
  import opened ConnectionSpec
  import opened ConnectionInv
  import opened ConnectionSteps
  import opened ConnectionAim
  import opened ConnectionTheorems
  import opened ConnectionExact
  import opened ConnectionResults

  // ------------------------------------------------ list helpers

  /** list_for_each_safe with list_del: the first occurrence goes. */
  method Remove(list: seq<Ep>, e: Ep) returns (found: bool, rest: seq<Ep>)
    ensures found == (e in list) && multiset(rest) == multiset(list) - multiset{e}
    ensures |rest| == |list| - if found then 1 else 0
  {
    for i := 0 to |list|
      invariant e !in list[..i]
    {
      if list[i] == e {
        assert list == list[..i] + [e] + list[i + 1..];
        return true, list[..i] + list[i + 1..];
      }
    }
    found, rest := false, list;
  }

  /** miscscif_get_connection_request */
  method FindConnectionRequest(list: seq<Request>, addr: nat) returns (i: nat)
    ensures i == FindRequest(list, addr)
  {
    i := 0;
    while i < |list| && list[i].from.addr != addr
      invariant i <= |list| && forall j :: 0 <= j < i ==> list[j].from.addr != addr
    {
      i := i + 1;
    }
  }

  // ------------------------------------------------ closing a listener

  /** What closing a listener does to its queue, one request after the other. */
  ghost function RejectAll(w: World, l: Ep): (v: World)
    ensures At(v, l).conlist == []
    decreases |At(w, l).conlist|
  {
    if At(w, l).conlist == [] then w
    else
      RejectOne(w, l);
      RejectAll(CloseRejectNext(w, l), l)
  }

  /** One round: the first request is answered and the rest move up. */
  lemma RejectOne(w: World, l: Ep)
    requires At(w, l).conlist != []
    ensures var u := CloseRejectNext(w, l);
            var r := At(w, l).conlist[0];
            && At(u, l).conlist == At(w, l).conlist[1..] && u.next == w.next + 1 && At(u, l).call == At(w, l).call
            && u.wire == w.wire[w.next := Rej(r.from, l.node, r.id)]
  {
  }

  /** Closing a listener answers every request it holds with one rejection each, first come first. */
  lemma {:induction false} RejectsInOrder(w: World, l: Ep, i: nat)
    requires i < |At(w, l).conlist|
    ensures Rejected(RejectAll(w, l), w.next + i, At(w, l).conlist[i], l.node)
    decreases i
  {
    hide CloseRejectNext, At;
    RejectOne(w, l);
    var u := CloseRejectNext(w, l);
    if i == 0 {
      RejectAllKeeps(u, l, w.next);
    } else {
      RejectsInOrder(u, l, i - 1);
      assert At(u, l).conlist[i - 1] == At(w, l).conlist[i] && u.next + (i - 1) == w.next + i;
    }
  }

  /** Message `s` rejects request `r`. */
  ghost predicate Rejected(w: World, s: nat, r: Request, node: nat) {
    s in w.wire && w.wire[s] == Rej(r.from, node, r.id)
  }

  lemma {:induction false} RejectAllKeeps(w: World, l: Ep, s: nat)
    requires s < w.next && s in w.wire
    ensures var v := RejectAll(w, l);
            v.next == w.next + |At(w, l).conlist| && s in v.wire && v.wire[s] == w.wire[s]
    decreases |At(w, l).conlist|
  {
    if At(w, l).conlist != [] {
      hide CloseRejectNext, At;
      RejectOne(w, l);
      RejectAllKeeps(CloseRejectNext(w, l), l, s);
    }
  }

  // ------------------------------------------------ schedules

  /** Somebody's turn: a call goes on by one step, or a message is handled. */
  datatype Event = Turn(op: Step) | Deliver(s: nat, noMemory: bool)

  predicate IsHandler(op: Step) {
    op.OnReq? || op.OnTerm? || op.OnGnt? || op.OnGntAck? || op.OnGntNack? || op.OnRej? || op.OnTermAck?
    || op.OnDiscnct? || op.OnDiscntAck?
  }

  /** The step is the event's turn. */
  predicate Takes(op: Step, ev: Event) {
    match ev
    case Turn(call) => op == call
    case Deliver(s, _) => IsHandler(op) && op.s == s
  }

  ghost predicate Follows(trace: seq<Step>, events: seq<Event>) {
    |trace| == |events| && forall i :: 0 <= i < |trace| ==> Takes(trace[i], events[i])
  }

  /** One more step of a run. */
  lemma RunOn(ops: seq<Step>, op: Step)
    ensures Run(ops + [op]) == if Enabled(Run(ops), op) then Next(Run(ops), op) else Run(ops)
    ensures FoundOwn(ops + [op]) <==> FoundOwn(ops) && (Enabled(Run(ops), op) ==> Sure(Run(ops), op))
  {
    hide Enabled, Next, Sure;
    assert (ops + [op])[..|ops|] == ops;
  }

  lemma StillFollows(trace: seq<Step>, events: seq<Event>, op: Step, ev: Event)
    requires Follows(trace, events) && Takes(op, ev)
    ensures Follows(trace + [op], events + [ev])
  {
    hide Takes;
  }

  lemma StartOfRun()
    ensures Run([]) == EMPTY && FoundOwn([]) && Follows([], []) && Inv(EMPTY) && AimInv(EMPTY)
  {
    EmptyInv();
    hide Inv;
  }

  lemma StepAims(w: World, op: Step)
    requires Inv(w) && AimInv(w) && Enabled(w, op)
    ensures AimInv(Next(w, op))
  {
    hide Inv, AimInv, Enabled, Next;
    NextKeepsAim(w, op);
  }

  lemma FlushLookupKeeps(w: World, e: Ep)
    requires Inv(w) && At(w, e).looks > 0
    ensures Inv(FlushLookupNext(w, e))
  {
    hide Inv;
    if e in w.connected { FlushKeeps(w, e); } else { FlushLateKeeps(w, e); }
  }

  lemma CloseLookupKeeps(w: World, e: Ep)
    requires Inv(w) && At(w, e).call.CloseLook?
    ensures Inv(CloseLookupNext(w, e))
  {
    hide Inv;
    if At(w, e).call.origin.FromConnected? && e in w.connected { CloseKeeps(w, e); } else { CloseLookKeeps(w, e); }
  }

  // What the step of a method is called by.

  lemma ReplySteps(w: World, s: nat)
    requires Deliverable(w, s)
    ensures w.wire[s].Rej? ==> Enabled(w, OnRej(s)) && Next(w, OnRej(s)) == OnRejNext(w, s)
    ensures w.wire[s].TermAck? ==> Enabled(w, OnTermAck(s)) && Next(w, OnTermAck(s)) == OnTermAckNext(w, s)
    ensures w.wire[s].Gnt? ==> Enabled(w, OnGnt(s)) && Next(w, OnGnt(s)) == OnGntNext(w, s)
  {
    hide At, OnRejNext, OnTermAckNext, OnGntNext;
  }

  lemma PeerSteps(w: World, s: nat)
    requires Deliverable(w, s)
    ensures w.wire[s].GntAck? ==> Enabled(w, OnGntAck(s)) && Next(w, OnGntAck(s)) == OnGntAckNext(w, s)
    ensures w.wire[s].GntNack? ==> Enabled(w, OnGntNack(s)) && Next(w, OnGntNack(s)) == OnGntNackNext(w, s)
    ensures w.wire[s].Discnct? ==> Enabled(w, OnDiscnct(s)) && Next(w, OnDiscnct(s)) == OnDiscnctNext(w, s)
    ensures w.wire[s].DiscntAck? ==> Enabled(w, OnDiscntAck(s)) && Next(w, OnDiscntAck(s)) == OnDiscntAckNext(w, s)
  {
    hide At, OnGntAckNext, OnGntNackNext, OnDiscnctNext, OnDiscntAckNext;
  }

  lemma ConnectSteps(w: World, op: Step)
    requires Enabled(w, op)
    ensures op.ConnectSend? ==> At(w, op.e).call.ConnectPrep? && Next(w, op) == ConnectSendNext(w, op.e)
    ensures op.ConnectInterrupt? ==> At(w, op.e).call.ConnectWait? && Next(w, op) == ConnectInterruptNext(w, op.e)
    ensures op.ConnectFinish? ==> Next(w, op) == ConnectFinishNext(w, op.e, op.mapped)
    ensures op.AcceptBegin? ==> At(w, op.l).conlist != [] && Next(w, op) == AcceptBeginNext(w, op.l, op.c)
    ensures op.AcceptFail? ==> At(w, op.c).call.AcceptTake? && Next(w, op) == AcceptFailNext(w, op.c)
    ensures op.AcceptGrant? ==> At(w, op.c).call.AcceptTake? && Next(w, op) == AcceptGrantNext(w, op.c)
  {
    hide ConnectSendNext, ConnectInterruptNext, ConnectFinishNext, AcceptBeginNext, AcceptFailNext, AcceptGrantNext;
  }

  lemma FlushSteps(w: World, op: Step)
    requires Enabled(w, op)
    ensures op.FlushBegin? ==> Next(w, op) == FlushBeginNext(w, op.e)
    ensures op.FlushLookup? ==> At(w, op.e).looks > 0 && Next(w, op) == FlushLookupNext(w, op.e)
    ensures op.FlushEnd? ==> Next(w, op) == FlushEndNext(w, op.e)
    ensures op.FlushEnd? ==> At(w, op.e).flushing && At(w, op.e).state.Disconnected?
    ensures op.AcceptFinish? ==> Next(w, op) == AcceptFinishNext(w, op.c)
  {
    hide FlushBeginNext, FlushLookupNext, FlushEndNext, AcceptFinishNext;
  }

  lemma CloseSteps(w: World, op: Step)
    requires Enabled(w, op)
    ensures op.CloseBegin? ==> Next(w, op) == Put(w, op.e, ClosingFrom(At(w, op.e)))
    ensures op.CloseLookup? ==> At(w, op.e).call.CloseLook? && Next(w, op) == CloseLookupNext(w, op.e)
    ensures op.CloseRejectOne? ==> At(w, op.e).call.CloseReject? && Next(w, op) == CloseRejectNext(w, op.e)
    ensures op.CloseAcked? ==> Next(w, op) == Put(w, op.e, At(w, op.e).(call := CloseDone))
    ensures op.CloseFinish? ==> Next(w, op) == CloseFinishNext(w, op.e)
  {
    hide ClosingFrom, CloseLookupNext, CloseRejectNext, CloseFinishNext;
  }

  /** A termination, whether or not its port has a listener. */
  lemma TerminationServes(w: World, s: nat, l: Ep, found: bool)
    requires Inv(w) && Enabled(w, OnTerm(s, l, found))
    ensures var v := OnTermNext(w, s, l, found);
            && ((found ==> FindsOwn(w, s, l)) ==> Inv(v))
            && ((found ==> FindsOwn(w, s, l)) <==> forall e :: Served(v, e))
  {
    hide Inv, Served, FindsOwn;
    if found ==> FindsOwn(w, s, l) {
      NextKeepsInv(w, OnTerm(s, l, found));
      forall e ensures Served(OnTermNext(w, s, l, found), e) { InvServed(OnTermNext(w, s, l, found), e); }
    } else {
      ServedIffFindsOwn(w, s, l);
    }
  }

  lemma TermAims(w: World, s: nat, l: Ep, found: bool)
    requires Inv(w) && AimInv(w) && Enabled(w, OnTerm(s, l, found))
    ensures AimInv(OnTermNext(w, s, l, found))
  {
    hide Inv, AimInv;
    StepAims(w, OnTerm(s, l, found));
  }

  class Nodes {
    var eps: map<Ep, Endpoint>
    var wire: map<nat, Packet>
    var next: nat
    var clock: nat
    var listen: seq<Ep>
    var connected: seq<Ep>
    var disconnected: seq<Ep>
    var zombie: seq<Ep>
    var active: map<(nat, nat), int>

    function View(): World
      reads this
    {
      World(eps, wire, next, clock, multiset(listen), multiset(connected), multiset(disconnected), multiset(zombie),
            active)
    }

    ghost predicate Valid()
      reads this
    {
      Inv(View()) && AimInv(View())
    }

    constructor ()
      ensures View() == EMPTY && Valid()
    {
      eps, wire, next, clock := map[], map[], 1, 0;
      listen, connected, disconnected, zombie := [], [], [], [];
      active := map[];
      new;
      EmptyInv();
      hide Inv, AimInv;
    }

    // ---------------------------------------------- primitive updates

    method Set(e: Ep, x: Endpoint)
      modifies this
      ensures View() == Put(old(View()), e, x)
    {
      eps := eps[e := x];
    }

    /** The message leaves the node queue. */
    method Take(s: nat)
      modifies this
      ensures View() == Taken(old(View()), s)
    {
      wire := wire - {s};
    }

    /** micscif_nodeqp_send */
    method Send(p: Packet)
      modifies this
      ensures View() == Sent(old(View()), p)
    {
      wire := wire[next := p];
      next := next + 1;
    }

    /** list_add_tail to mi_connected and get_conn_count */
    method JoinConnected(e: Ep, dev: nat)
      modifies this
      ensures View() == Join(old(View()), e, dev)
    {
      connected := connected + [e];
      active := active[(e.node, dev) := Active(View(), e.node, dev) + 1];
    }

    /** The search of mi_connected, list_del and put_conn_count. */
    method LeaveConnected(e: Ep, dev: nat) returns (found: bool)
      modifies this
      ensures found == (e in old(View()).connected)
      ensures View() == if found then Leave(old(View()), e, dev) else old(View())
    {
      var rest;
      found, rest := Remove(connected, e);
      if found {
        var n := Active(View(), e.node, dev);
        connected := rest;
        active := active[(e.node, dev) := n - 1];
      }
    }

    /** The search of mi_disconnected and list_del. */
    method LeaveDisconnected(e: Ep)
      modifies this
      ensures View() == old(View()).(disconnected := old(View()).disconnected - multiset{e})
    {
      var found, rest := Remove(disconnected, e);
      disconnected := rest;
    }

    /** The search of mi_listen and list_del. */
    method LeaveListen(e: Ep)
      modifies this
      ensures View() == old(View()).(listen := old(View()).listen - multiset{e})
    {
      var found, rest := Remove(listen, e);
      listen := rest;
    }

    // ---------------------------------------------- requests

    /** micscif_find_listen_ep */
    method FindListenEp(dst: PortId) returns (found: bool, l: Ep)
      ensures found ==> OnListen(View(), l, dst) && ListensOn(View(), l, dst)
      ensures !found ==> forall k :: k in View().listen ==> !OnListen(View(), k, dst)
      ensures !found ==> forall k :: !ListensOn(View(), k, dst)
    {
      l := NOWHERE;
      for i := 0 to |listen|
        invariant forall j :: 0 <= j < i ==> !OnListen(View(), listen[j], dst)
      {
        if listen[i].node == dst.node && At(View(), listen[i]).port == dst.port {
          return true, listen[i];
        }
      }
      found := false;
    }

    /** A request joins the queue of listener `l`. */
    method Enqueue(s: nat, l: Ep)
      requires s in wire && wire[s].Req? && At(View(), l).conreqcnt < At(View(), l).backlog
      modifies this
      ensures View() == OnReqNext(old(View()), s, l, true)
    {
      var p := wire[s];
      var x, y := At(View(), p.from), At(View(), l);
      var r := Request(p.from, p.src, s, clock);
      Set(l, y.(conlist := y.conlist + [r], conreqcnt := y.conreqcnt + 1));
      Set(p.from, x.(asked := x.asked + 1, token := Queued(l, r)));
      Take(s);
      clock := clock + 1;
    }

    /** A request is rejected at once. */
    method Refuse(s: nat, ghost l: Ep, ghost queued: bool)
      requires s in wire && wire[s].Req? && !(queued && At(View(), l).conreqcnt < At(View(), l).backlog)
      modifies this
      ensures View() == OnReqNext(old(View()), s, l, queued)
    {
      var p := wire[s];
      var x := At(View(), p.from);
      Set(p.from, Replied(x.(asked := x.asked + 1), next));
      Take(s);
      Send(Rej(p.from, p.dst.node, s));
    }

    /** scif_cnctreq_resp: a request is queued on a listener with room, or rejected. */
    method CnctReqResp(s: nat, noMemory: bool) returns (ghost l: Ep, ghost queued: bool)
      requires Valid() && Deliverable(View(), s) && wire[s].Req?
      modifies this
      ensures queued ==> ListensOn(old(View()), l, old(wire[s].dst)) && OnListen(old(View()), l, old(wire[s].dst))
      ensures !queued && !noMemory ==> forall k :: !ListensOn(old(View()), k, old(wire[s].dst))
      ensures if queued && HasRoom(old(View()), l) then Admitted(old(View()), View(), s, l)
              else TurnedAway(old(View()), View(), s)
      ensures View() == OnReqNext(old(View()), s, l, queued)
      ensures Valid() && Served(View(), old(wire[s].from))
    {
      hide Inv, AimInv, Served, OnReqNext, Admitted, TurnedAway;
      l, queued := NOWHERE, false;
      if !noMemory {
        var found, ep := FindListenEp(wire[s].dst);
        if found {
          l, queued := ep, true;
          if At(View(), ep).conreqcnt < At(View(), ep).backlog {
            StepAims(View(), OnReq(s, l, true));
            RequestGoesToItsPort(View(), s, l, true);
            RequestIsServed(View(), s, l, true);
            Enqueue(s, ep);
            return;
          }
        }
      }
      StepAims(View(), OnReq(s, l, queued));
      RequestGoesToItsPort(View(), s, l, queued);
      RequestIsServed(View(), s, l, queued);
      Refuse(s, l, queued);
    }

    /** Request `i` of a queue is taken out and answered. */
    method Answer(l: Ep, i: nat, p: Packet)
      requires i < |At(View(), l).conlist| && (p.Rej? || p.TermAck?)
      modifies this
      ensures View() == AnswerQueued(old(View()), l, i, p)
    {
      Set(l, Unqueued(At(View(), l), i));
      Set(p.to, Replied(At(View(), p.to), next));
      Send(p);
    }

    /** scif_cnctterm_resp: everybody stays served exactly if the request found, if any, is the sender's. */
    method CnctTermResp(s: nat) returns (ghost l: Ep, found: bool, own: bool)
      requires Valid() && Deliverable(View(), s) && wire[s].Term?
      modifies this
      ensures found ==> OnListen(old(View()), l, old(wire[s].dst))
      ensures !found ==> forall k :: k in old(View()).listen ==> !OnListen(old(View()), k, old(wire[s].dst))
      ensures View() == OnTermNext(old(View()), s, l, found)
      ensures own == (found ==> FindsOwn(old(View()), s, l))
      ensures own ==> Valid()
      ensures own <==> forall e :: Served(View(), e)
    {
      var p := wire[s];
      var ep;
      found, ep := FindListenEp(p.dst);
      l, own := ep, true;
      TermAims(View(), s, l, found);
      TerminationServes(View(), s, l, found);
      hide Inv, AimInv, Served, Deliverable;
      Take(s);
      if found {
        var list := At(View(), ep).conlist;
        var i := FindConnectionRequest(list, p.from.addr);
        if i < |list| {
          own := list[i].from == p.from;
          Answer(ep, i, TermAck(p.from, p.dst.node, p.id));
        }
      }
    }

    /** The loop of __scif_close that rejects whatever is queued. */
    method RejectPending(l: Ep)
      requires Valid() && At(View(), l).call.CloseReject?
      modifies this
      ensures Valid() && View() == RejectAll(old(View()), l) && At(View(), l).conlist == []
    {
      while At(View(), l).conlist != []
        invariant Valid() && At(View(), l).call.CloseReject? && RejectAll(View(), l) == RejectAll(old(View()), l)
        decreases |At(View(), l).conlist|
      {
        RejectRound(l);
      }
    }

    /** One round. */
    method RejectRound(l: Ep)
      requires Valid() && At(View(), l).call.CloseReject? && At(View(), l).conlist != []
      modifies this
      ensures Valid() && View() == CloseRejectNext(old(View()), l) && At(View(), l).call.CloseReject?
      ensures |At(View(), l).conlist| == |old(At(View(), l).conlist)| - 1
      ensures RejectAll(View(), l) == RejectAll(old(View()), l)
    {
      hide Inv, AimInv;
      RejectOne(View(), l);
      StepAims(View(), CloseRejectOne(l));
      CloseRejectKeeps(View(), l);
      hide RejectAll;
      var r := At(View(), l).conlist[0];
      Answer(l, 0, Rej(r.from, l.node, r.id));
    }

    /** __scif_connect sends its request, which is the only one of this endpoint anywhere. */
    method ConnectRequest(e: Ep)
      requires Valid() && At(View(), e).call.ConnectPrep?
      modifies this
      ensures View() == ConnectSendNext(old(View()), e)
      ensures Valid() && JustSent(View(), e, old(next))
    {
      StepAims(View(), ConnectSend(e));
      RequestIsOut(View(), e);
      hide Inv, AimInv, JustSent;
      var x := At(View(), e);
      Set(e, x.(call := ConnectWait(x.call.dst), attempt := next, token := OnWire(next)));
      Send(Req(e, PortId(e.node, x.port), x.call.dst));
    }

    /** __scif_connect, interrupted, sends its termination, and has one thing to wait for if it has to wait. */
    method ConnectTerminate(e: Ep)
      requires Valid() && At(View(), e).call.ConnectWait?
      modifies this
      ensures View() == ConnectInterruptNext(old(View()), e)
      ensures Valid() && Single(View(), e) && Expects(View(), e)
    {
      StepAims(View(), ConnectInterrupt(e));
      TerminationWaits(View(), e);
      hide Inv, AimInv, Single, Expects;
      var x := At(View(), e);
      Set(e, x.(call := ConnectTerm(x.call.dst)));
      Send(Term(e, PortId(e.node, x.port), x.call.dst, x.attempt));
    }

    /** scif_cnctrej_resp: the call it reaches is over, and nothing of it is left. */
    method CnctRejResp(s: nat)
      requires Valid() && Deliverable(View(), s) && wire[s].Rej?
      modifies this
      ensures View() == OnRejNext(old(View()), s)
      ensures Valid() && At(View(), old(wire[s].to)).state.Bound? && Settled(View(), old(wire[s].to))
    {
      StepAims(View(), OnRej(s));
      RejectEnds(View(), s);
      hide Inv, AimInv, Settled;
      var e := wire[s].to;
      var x := At(View(), e);
      if x.state.Connecting? {
        Set(e, x.(state := Bound, token := NoToken));
      }
      Take(s);
    }

    /** scif_termack_resp: the same. */
    method TermAckResp(s: nat)
      requires Valid() && Deliverable(View(), s) && wire[s].TermAck?
      modifies this
      ensures View() == OnTermAckNext(old(View()), s)
      ensures Valid() && At(View(), old(wire[s].to)).state.Bound? && Settled(View(), old(wire[s].to))
    {
      StepAims(View(), OnTermAck(s));
      TermAckEnds(View(), s);
      hide Inv, AimInv, Settled;
      var e := wire[s].to;
      var x := At(View(), e);
      if !x.state.Bound? {
        Set(e, x.(state := Bound, token := NoToken));
      }
      Take(s);
    }

    // ---------------------------------------------- grants

    /** __scif_accept: the oldest request, whose sender still waits for it, comes off the queue and gets an endpoint. */
    method AcceptTakeRequest(l: Ep, c: Ep)
      requires Valid() && Enabled(View(), AcceptBegin(l, c))
      modifies this
      ensures View() == AcceptBeginNext(old(View()), l, c)
      ensures Valid() && TakesOldest(old(View()), l) && Served(View(), old(At(View(), l).conlist[0].from))
      ensures TakenFirst(old(View()), View(), l, c)
    {
      StepAims(View(), AcceptBegin(l, c));
      AcceptTakesOldest(View(), l, c);
      hide Inv, AimInv, TakesOldest, TakenFirst, Served;
      var x := At(View(), l);
      var r := x.conlist[0];
      var y := At(View(), r.from);
      Set(l, Unqueued(x, 0));
      Set(r.from, y.(token := Held(c)));
      Set(c, NewEndpoint(x.port, r));
    }

    /** __scif_accept sends the grant, which answers the attempt in progress. */
    method AcceptSendGrant(c: Ep)
      requires Valid() && At(View(), c).call.AcceptTake?
      modifies this
      ensures View() == AcceptGrantNext(old(View()), c)
      ensures Valid() && Timely(View(), old(next))
    {
      StepAims(View(), AcceptGrant(c));
      GrantIsTimely(View(), c);
      hide Inv, AimInv, Timely;
      var x := At(View(), c);
      var r := x.call.req;
      var y := At(View(), r.from);
      Set(r.from, Replied(y, next));
      Set(c, x.(call := AcceptWait, link := GrantSent(next)));
      Send(Gnt(r.from, PortId(c.node, x.port), r.id, c));
    }

    /** __scif_accept runs out of resources; so does its rejection. */
    method AcceptReject(c: Ep)
      requires Valid() && At(View(), c).call.AcceptTake?
      modifies this
      ensures View() == AcceptFailNext(old(View()), c)
      ensures Valid() && Timely(View(), old(next))
    {
      StepAims(View(), AcceptFail(c));
      RejectIsTimely(View(), c);
      hide Inv, AimInv, Timely;
      var x := At(View(), c);
      var r := x.call.req;
      var y := At(View(), r.from);
      Set(r.from, Replied(y, next));
      Set(c, x.(call := Gone));
      Send(Rej(r.from, c.node, r.id));
    }

    /** scif_cnctgnt_resp: the grant finds the attempt it answers, and is never ignored. */
    method CnctGntResp(s: nat)
      requires Valid() && Deliverable(View(), s) && wire[s].Gnt?
      modifies this
      ensures View() == OnGntNext(old(View()), s)
      ensures Valid() && Joins(old(View()), View(), s)
    {
      StepAims(View(), OnGnt(s));
      GrantJoins(View(), s);
      hide Inv, AimInv, Joins;
      var p := wire[s];
      var x := At(View(), p.to);
      if x.state.Connecting? {
        Set(p.cep, At(View(), p.cep).(link := Granted));
        Set(p.to, x.(state := Mapping, peer := p.src, grant := p.cep, token := NoToken));
      }
      Take(s);
    }

    /** The grant is acknowledged. */
    method AcknowledgeGrant(e: Ep)
      modifies this
      ensures View() == ConnectDone(old(View()), e)
    {
      hide At, Active;
      var x := At(View(), e);
      var y := At(View(), x.grant);
      Set(x.grant, y.(link := AckSent(next)));
      Set(e, x.(state := Connected, call := Idle, remoteEp := x.grant, joins := x.joins + 1));
      Send(GntAck(x.grant, e.node));
      JoinConnected(e, x.remoteDev);
    }

    /** The grant is refused. */
    method RefuseGrant(e: Ep)
      modifies this
      ensures View() == ConnectRefuse(old(View()), e)
    {
      var x := At(View(), e);
      var y := At(View(), x.grant);
      Set(x.grant, y.(link := NackSent(next)));
      Set(e, x.(state := Bound, call := Idle, remoteEp := x.grant));
      Send(GntNack(x.grant, e.node));
    }

    /** The end of __scif_connect: connected and in agreement with its peer, or free to be used again. */
    method ConnectComplete(e: Ep, mapped: bool)
      requires Valid() && Enabled(View(), ConnectFinish(e, mapped))
      modifies this
      ensures View() == ConnectFinishNext(old(View()), e, mapped)
      ensures Valid() && At(View(), e).call.Idle? && Settled(View(), e)
      ensures if old(At(View(), e).state.Mapping? && At(View(), e).call.ConnectWait?) && mapped
              then Established(View(), e) && At(View(), e).peer == old(At(View(), e)).call.dst
              else At(View(), e).state.Bound? && View().connected[e] == 0
    {
      StepAims(View(), ConnectFinish(e, mapped));
      ConnectEnds(View(), e, mapped);
      hide Inv, AimInv, Settled, Established, ConnectDone, ConnectRefuse;
      var x := At(View(), e);
      if x.state.Mapping? && x.call.ConnectWait? && mapped {
        AcknowledgeGrant(e);
      } else if x.state.Mapping? {
        RefuseGrant(e);
      } else {
        Set(e, x.(state := if x.call.ConnectTerm? then Bound else x.state, call := Idle));
      }
    }

    /** The accepted endpoint is marked, listed and counted. */
    method EnterConnected(s: nat)
      requires s in wire && wire[s].GntAck?
      modifies this
      ensures View() == OnGntAckNext(old(View()), s)
    {
      hide At;
      var p := wire[s];
      var x := At(View(), p.to);
      Set(p.to, x.(state := Connected, link := Linked, joins := x.joins + 1));
      Take(s);
      JoinConnected(p.to, p.node);
    }

    /** scif_cnctgntack_resp: the accepted endpoint is connected and in agreement with its peer. */
    method CnctGntAckResp(s: nat)
      requires Valid() && Deliverable(View(), s) && wire[s].GntAck?
      modifies this
      ensures View() == OnGntAckNext(old(View()), s)
      ensures Valid() && Established(View(), old(wire[s].to))
    {
      StepAims(View(), OnGntAck(s));
      AckEstablishes(View(), s);
      hide Inv, AimInv, Established, OnGntAckNext;
      EnterConnected(s);
    }

    /** scif_cnctgntnack_resp: nothing in flight is for the accepted endpoint any more, so it can be freed. */
    method CnctGntNackResp(s: nat)
      requires Valid() && Deliverable(View(), s) && wire[s].GntNack?
      modifies this
      ensures View() == OnGntNackNext(old(View()), s)
      ensures Valid() && Forgotten(View(), old(wire[s].to)) && At(View(), old(wire[s].to)).state.Closing?
      ensures View().connected[old(wire[s].to)] == 0
    {
      StepAims(View(), OnGntNack(s));
      NackForgets(View(), s);
      hide Inv, AimInv, Forgotten;
      var e := wire[s].to;
      Set(e, At(View(), e).(state := Closing, link := Refused));
      Take(s);
    }

    // ---------------------------------------------- disconnects

    /** __scif_flush behind its test of the state. */
    method FlushSearch(e: Ep)
      requires Valid() && At(View(), e).looks > 0
      modifies this
      ensures Valid() && View() == FlushLookupNext(old(View()), e) && Unlisted(View(), e)
      ensures wire == if old(View()).connected[e] == 1
                      then old(wire)[old(next) := Discnct(old(At(View(), e)).remoteEp, e)]
                      else old(wire)
    {
      StepAims(View(), FlushLookup(e));
      FlushTakesOff(View(), e);
      FlushLookupKeeps(View(), e);
      hide Inv, AimInv;
      var x := At(View(), e);
      x := x.(looks := x.looks - 1);
      var found := LeaveConnected(e, x.remoteDev);
      if found {
        Set(e, Departed(x.(flushing := true), next));
        Send(Discnct(x.remoteEp, e));
      } else {
        Set(e, x);
        LeaveDisconnected(e);
      }
    }

    /** __scif_close, by what the close found the endpoint doing. */
    method CloseSearch(e: Ep)
      requires Valid() && At(View(), e).call.CloseLook?
      modifies this
      ensures Valid() && View() == CloseLookupNext(old(View()), e)
    {
      StepAims(View(), CloseLookup(e));
      CloseLookupKeeps(View(), e);
      hide Inv, AimInv;
      var x := At(View(), e);
      match x.call.origin
      case FromQuiet =>
        Set(e, x.(call := CloseDone));
      case FromDisconnected =>
        Set(e, x.(call := CloseDone));
        LeaveDisconnected(e);
      case FromListening =>
        Set(e, x.(call := CloseReject));
        LeaveListen(e);
      case FromConnected =>
        CloseConnected(e);
    }

    /** __scif_close of an endpoint that was connected. */
    method CloseConnected(e: Ep)
      requires At(View(), e).call == CloseLook(FromConnected)
      modifies this
      ensures View() == CloseLookupNext(old(View()), e)
    {
      var x := At(View(), e);
      var found := LeaveConnected(e, x.remoteDev);
      if found {
        Set(e, Departed(x.(call := CloseWait), next));
        Send(Discnct(x.remoteEp, e));
      } else {
        Set(e, x.(call := CloseDone));
        LeaveDisconnected(e);
      }
    }

    /** An endpoint found on mi_connected moves to mi_disconnected. */
    method Disconnect(e: Ep, dev: nat) returns (found: bool)
      modifies this
      ensures found == (e in old(View()).connected)
      ensures View() == if found then
                          var w := old(View());
                          Put(Leave(w, e, dev).(disconnected := w.disconnected + multiset{e}), e,
                              At(w, e).(state := Disconnected, leaves := At(w, e).leaves + 1))
                        else
                          old(View())
    {
      hide At, Active;
      var y := At(View(), e);
      found := LeaveConnected(e, dev);
      if found {
        disconnected := disconnected + [e];
        Set(e, y.(state := Disconnected, leaves := y.leaves + 1));
      }
    }

    /** The disconnect is handled and acknowledged. */
    method AcknowledgeDisconnect(s: nat)
      requires s in wire && wire[s].Discnct?
      modifies this
      ensures View() == OnDiscnctNext(old(View()), s)
    {
      var p := wire[s];
      var x := At(View(), p.from);
      Take(s);
      var found := Disconnect(p.to, p.from.node);
      hide Active, Leave;
      Set(p.from, x.(farewell := DiscntAckSent(next)));
      Send(DiscntAck(p.from, p.to.node));
    }

    /** scif_discnct_resp: afterwards neither end is on mi_connected. */
    method DiscnctResp(s: nat)
      requires Valid() && Deliverable(View(), s) && wire[s].Discnct?
      modifies this
      ensures View() == OnDiscnctNext(old(View()), s)
      ensures Valid() && Parted(View(), old(wire[s].from))
      ensures var e := old(wire[s].to);
              old(View()).connected[e] == 1 ==> At(View(), e).state.Disconnected? && View().disconnected[e] == 1
    {
      StepAims(View(), OnDiscnct(s));
      if View().connected[wire[s].to] == 1 { DisconnectFiles(View(), s); }
      DisconnectParts(View(), s);
      hide Inv, AimInv, Parted, OnDiscnctNext;
      AcknowledgeDisconnect(s);
    }

    /** scif_discntack_resp: the endpoint is DISCONNECTED, and so is its peer. */
    method DiscntAckResp(s: nat)
      requires Valid() && Deliverable(View(), s) && wire[s].DiscntAck?
      modifies this
      ensures View() == OnDiscntAckNext(old(View()), s)
      ensures Valid() && Parted(View(), old(wire[s].to)) && At(View(), old(wire[s].to)).state.Disconnected?
    {
      StepAims(View(), OnDiscntAck(s));
      AcknowledgedParts(View(), s);
      hide Inv, AimInv, Parted;
      var e := wire[s].to;
      Set(e, At(View(), e).(state := Disconnected, farewell := NoFarewell));
      Take(s);
    }

    // ---------------------------------------------- taking turns

    /** An endpoint is opened, bound, or begins to listen or to connect. */
    method OpenTurn(op: Step)
      requires Enabled(View(), op)
      requires op.Open? || op.Bind? || op.ListenBegin? || op.ListenEnd? || op.ConnectBegin? || op.ConnectFail?
      modifies this
      ensures View() == Next(old(View()), op)
    {
      var x := At(View(), op.e);
      match op
      case Open(e) => Set(e, x.(state := Unbound));
      case Bind(e, port) => Set(e, x.(state := Bound, port := port));
      case ListenBegin(e, backlog) =>
        Set(e, x.(state := Listening, call := ListenAdd, backlog := backlog, conreqcnt := 0, conlist := []));
      case ListenEnd(e) =>
        Set(e, x.(call := Idle));
        listen := listen + [e];
      case ConnectBegin(e, dst, port) =>
        Set(e, x.(state := Connecting, call := ConnectPrep(dst), port := port, remoteDev := dst.node));
      case ConnectFail(e) => Set(e, x.(state := Bound, call := Idle));
    }

    /** A connect or an accept call goes on. */
    method ConnectTurn(op: Step)
      requires Valid() && Enabled(View(), op)
      requires op.ConnectSend? || op.ConnectInterrupt? || op.ConnectFinish? || op.AcceptBegin? || op.AcceptFail?
               || op.AcceptGrant?
      modifies this
      ensures View() == Next(old(View()), op)
    {
      ConnectSteps(View(), op);
      hide Inv, AimInv, At, Enabled, Next, JustSent, Single, Expects, Established, Settled, TakesOldest, TakenFirst,
           Served, Timely;
      if op.ConnectSend? {
        ConnectRequest(op.e);
      } else if op.ConnectInterrupt? {
        ConnectTerminate(op.e);
      } else if op.ConnectFinish? {
        ConnectComplete(op.e, op.mapped);
      } else if op.AcceptBegin? {
        AcceptTakeRequest(op.l, op.c);
      } else if op.AcceptFail? {
        AcceptReject(op.c);
      } else {
        AcceptSendGrant(op.c);
      }
    }

    /** The test of the state in __scif_flush. */
    method FlushTest(e: Ep)
      requires Valid() && Enabled(View(), FlushBegin(e))
      modifies this
      ensures Valid() && View() == FlushBeginNext(old(View()), e)
      ensures if old(At(View(), e)).state.Listening? then At(View(), e).state.ClListen?
              else At(View(), e).looks == old(At(View(), e)).looks + 1
    {
      StepAims(View(), FlushBegin(e));
      FlushMarks(View(), e);
      hide Inv, AimInv;
      var x := At(View(), e);
      Set(e, if x.state.Listening? then x.(state := ClListen) else x.(looks := x.looks + 1));
    }

    /** The end of __scif_flush, once the peer has answered. */
    method FlushDone(e: Ep)
      requires Valid() && At(View(), e).flushing && At(View(), e).state.Disconnected?
      modifies this
      ensures Valid() && View() == FlushEndNext(old(View()), e)
      ensures At(View(), e).state.Disconnected? && View().disconnected[e] == 1 && Parted(View(), e)
    {
      StepAims(View(), FlushEnd(e));
      FlushFiles(View(), e);
      hide Inv, AimInv, Parted;
      Set(e, At(View(), e).(flushing := false, state := Disconnected));
      disconnected := disconnected + [e];
    }

    method AcceptReturn(c: Ep)
      modifies this
      ensures View() == AcceptFinishNext(old(View()), c)
    {
      Set(c, At(View(), c).(call := if At(View(), c).state.Closing? then Gone else Idle));
    }

    method AddZombie(e: Ep)
      modifies this
      ensures View() == CloseFinishNext(old(View()), e)
    {
      Set(e, At(View(), e).(state := Zombie, call := Gone));
      zombie := zombie + [e];
    }

    /** An endpoint is flushed, or an accept call returns. */
    method FlushTurn(op: Step)
      requires Valid() && Enabled(View(), op)
      requires op.AcceptFinish? || op.FlushBegin? || op.FlushLookup? || op.FlushEnd?
      modifies this
      ensures View() == Next(old(View()), op)
    {
      FlushSteps(View(), op);
      hide Inv, AimInv, Enabled, Next, At, FlushBeginNext, FlushLookupNext, FlushEndNext, AcceptFinishNext;
      if op.FlushLookup? {
        FlushSearch(op.e);
      } else if op.FlushBegin? {
        FlushTest(op.e);
      } else if op.FlushEnd? {
        FlushDone(op.e);
      } else {
        AcceptReturn(op.c);
      }
    }

    /** An endpoint is closed. */
    method CloseTurn(op: Step)
      requires Valid() && Enabled(View(), op)
      requires op.CloseBegin? || op.CloseLookup? || op.CloseRejectOne? || op.CloseAcked? || op.CloseFinish?
      modifies this
      ensures View() == Next(old(View()), op)
    {
      CloseSteps(View(), op);
      hide Inv, AimInv, Enabled, Next, At, CloseLookupNext, AnswerQueued, ClosingFrom, RejectAll, CloseFinishNext;
      var x := At(View(), op.e);
      if op.CloseLookup? {
        CloseSearch(op.e);
      } else if op.CloseRejectOne? && x.conlist != [] {
        RejectRound(op.e);
      } else if op.CloseBegin? {
        Set(op.e, ClosingFrom(x));
      } else if op.CloseFinish? {
        AddZombie(op.e);
      } else {
        Set(op.e, x.(call := CloseDone));
      }
    }

    /** A call takes its turn. */
    method TakeTurn(op: Step)
      requires Valid() && Enabled(View(), op) && !IsHandler(op)
      modifies this
      ensures Valid() && View() == Next(old(View()), op)
    {
      StepAims(View(), op);
      NextKeepsInv(View(), op);
      hide Inv, AimInv, Enabled, Next;
      if op.Open? || op.Bind? || op.ListenBegin? || op.ListenEnd? || op.ConnectBegin? || op.ConnectFail? {
        OpenTurn(op);
      } else if op.ConnectSend? || op.ConnectInterrupt? || op.ConnectFinish? || op.AcceptBegin? || op.AcceptFail?
                || op.AcceptGrant? {
        ConnectTurn(op);
      } else if op.AcceptFinish? || op.FlushBegin? || op.FlushLookup? || op.FlushEnd? {
        FlushTurn(op);
      } else {
        CloseTurn(op);
      }
    }

    /** A request or a termination is handled. */
    method RequestHandler(s: nat, noMemory: bool) returns (ghost op: Step, own: bool)
      requires Valid() && Deliverable(View(), s) && (wire[s].Req? || wire[s].Term?)
      modifies this
      ensures IsHandler(op) && op.s == s && Enabled(old(View()), op) && View() == Next(old(View()), op)
      ensures own == Sure(old(View()), op) && (own ==> Valid())
    {
      hide Inv, AimInv, At, OnListen, OnReqNext, OnTermNext, Served, FindsOwn;
      own := true;
      if wire[s].Req? {
        ghost var l, queued := CnctReqResp(s, noMemory);
        op := OnReq(s, l, queued);
      } else {
        ghost var l;
        var found;
        l, found, own := CnctTermResp(s);
        op := OnTerm(s, l, found);
      }
    }

    /** A reply to a request is handled. */
    method ReplyHandler(s: nat) returns (ghost op: Step)
      requires Valid() && Deliverable(View(), s) && (wire[s].Rej? || wire[s].TermAck? || wire[s].Gnt?)
      modifies this
      ensures IsHandler(op) && !op.OnTerm? && op.s == s
      ensures Valid() && Enabled(old(View()), op) && View() == Next(old(View()), op)
    {
      ReplySteps(View(), s);
      hide Inv, AimInv, At, Enabled, Next, Settled, Joins, OnRejNext, OnTermAckNext, OnGntNext;
      if wire[s].Rej? {
        CnctRejResp(s);
        op := OnRej(s);
      } else if wire[s].TermAck? {
        TermAckResp(s);
        op := OnTermAck(s);
      } else {
        CnctGntResp(s);
        op := OnGnt(s);
      }
    }

    /** A message between endpoints that know each other is handled. */
    method PeerHandler(s: nat) returns (ghost op: Step)
      requires Valid() && Deliverable(View(), s)
      requires wire[s].GntAck? || wire[s].GntNack? || wire[s].Discnct? || wire[s].DiscntAck?
      modifies this
      ensures IsHandler(op) && !op.OnTerm? && op.s == s
      ensures Valid() && Enabled(old(View()), op) && View() == Next(old(View()), op)
    {
      PeerSteps(View(), s);
      hide Inv, AimInv, At, Enabled, Next, Established, Forgotten, Parted, OnGntAckNext, OnGntNackNext, OnDiscnctNext,
           OnDiscntAckNext;
      if wire[s].GntAck? {
        CnctGntAckResp(s);
        op := OnGntAck(s);
      } else if wire[s].GntNack? {
        CnctGntNackResp(s);
        op := OnGntNack(s);
      } else if wire[s].Discnct? {
        DiscnctResp(s);
        op := OnDiscnct(s);
      } else {
        DiscntAckResp(s);
        op := OnDiscntAck(s);
      }
    }

    /** micscif_nodeqp_msg_handler: the oldest message of a node queue is handled by its kind. */
    method MsgHandler(s: nat, noMemory: bool) returns (ghost op: Step, own: bool)
      requires Valid() && Deliverable(View(), s)
      modifies this
      ensures IsHandler(op) && op.s == s && Enabled(old(View()), op) && View() == Next(old(View()), op)
      ensures own == Sure(old(View()), op) && (own ==> Valid())
    {
      hide Inv, AimInv, Enabled, Next;
      own := true;
      if wire[s].Req? || wire[s].Term? {
        op, own := RequestHandler(s, noMemory);
      } else if wire[s].Rej? || wire[s].TermAck? || wire[s].Gnt? {
        op := ReplyHandler(s);
      } else {
        op := PeerHandler(s);
      }
    }

    /**
     Calls and handlers take turns in any order, as far as the events can happen.  This is a
     run of the model; unless a termination takes another endpoint's request, which ends it,
     all the events have had their turn and all results about connections hold.
     */
    method Drive(events: seq<Event>) returns (ghost trace: seq<Step>, own: bool)
      requires View() == EMPTY && forall ev :: ev in events && ev.Turn? ==> !IsHandler(ev.op)
      modifies this
      ensures View() == Run(trace) && own == FoundOwn(trace)
      ensures own ==> Follows(trace, events) && Valid() && Sound(View())
    {
      hide Inv, AimInv, Enabled, Next, Sound, Sure, FoundOwn, Run, Follows;
      StartOfRun();
      trace, own := [], true;
      assert events[..0] == [];
      for i := 0 to |events|
        invariant own && Valid() && View() == Run(trace) && FoundOwn(trace) && Follows(trace, events[..i])
      {
        ghost var op;
        op, own := Happen(events[i]);
        RunOn(trace, op);
        StillFollows(trace, events[..i], op, events[i]);
        assert events[..i + 1] == events[..i] + [events[i]];
        trace := trace + [op];
        if !own { return; }
      }
      assert events[..|events|] == events;
      RunIsSound(trace);
    }

    /** One event has its turn, if it can happen. */
    method Happen(ev: Event) returns (ghost op: Step, own: bool)
      requires Valid() && (ev.Turn? ==> !IsHandler(ev.op))
      modifies this
      ensures Takes(op, ev)
      ensures View() == if Enabled(old(View()), op) then Next(old(View()), op) else old(View())
      ensures own == (Enabled(old(View()), op) ==> Sure(old(View()), op)) && (own ==> Valid())
    {
      hide Inv, AimInv, Next;
      own := true;
      match ev
      case Turn(call) =>
        op := call;
        if Enabled(View(), call) { TakeTurn(call); }
      case Deliver(s, noMemory) =>
        op := OnGnt(s);
        if Deliverable(View(), s) { op, own := MsgHandler(s, noMemory); }
    }
  }
}
