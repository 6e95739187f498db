/**
 How endpoints come by their ports and give them back.
 */
module PortUse {
  import opened PortSpec

  const ADMIN_PORT_END := 1024

  datatype Endpoint = Endpoint(port: Port, accepted: bool)

  /** The allocator and the open endpoints of one node. */
  datatype Use = Use(ports: Ports, eps: map<nat, Endpoint>)

  datatype Op =
    | Open(e: nat)
    | Bind(e: nat, pn: Port, admin: bool)
    | Connect(e: nat)
    | Accept(l: nat, c: nat)
    | Close(e: nat)

  ghost predicate Initially(u: Use) {
    u.ports.init && u.eps == map[]
  }

  /** An endpoint without a port takes one from the allocator. */
  ghost predicate TakesAny(u: Use, e: nat, v: Use)
    requires e in u.eps
  {
    exists port: Port ::
      && Gets(u.ports, v.ports, port)
      && v.eps == if port == 0 then u.eps else u.eps[e := u.eps[e].(port := port)]
  }

  /**
   One call: __scif_bind, __scif_connect from the unbound state, __scif_accept and __scif_close, as
   far as ports go.
   */
  ghost predicate Step(u: Use, op: Op, v: Use) {
    match op
    case Open(e) => e !in u.eps && v == u.(eps := u.eps[e := Endpoint(0, false)])
    case Bind(e, pn, admin) =>
      && e in u.eps && !u.eps[e].accepted
      && if (pn != 0 && pn < ADMIN_PORT_END && !admin) || u.eps[e].port != 0 then v == u
         else if pn == 0 then TakesAny(u, e, v)
         else
           var (ports, got) := Reserve(u.ports, pn);
           v == Use(ports, if got == pn then u.eps[e := u.eps[e].(port := pn)] else u.eps)
    case Connect(e) =>
      && e in u.eps && !u.eps[e].accepted
      && if u.eps[e].port != 0 then v == u else TakesAny(u, e, v)
    case Accept(l, c) =>
      l in u.eps && c !in u.eps && u.eps[l].port != 0 && v == u.(eps := u.eps[c := Endpoint(u.eps[l].port, true)])
    case Close(e) =>
      e in u.eps && v == Use(if Owns(u, e) then Put(u.ports, u.eps[e].port) else u.ports, u.eps - {e})
  }

  ghost predicate Owns(u: Use, e: nat) {
    e in u.eps && u.eps[e].port != 0 && !u.eps[e].accepted
  }

  ghost predicate Owned(u: Use, p: nat) {
    exists e :: Owns(u, e) && u.eps[e].port == p
  }

  /** Ports are owned by one endpoint each, and are free exactly when nobody owns them. */
  ghost predicate UseInv(u: Use) {
    && (forall e, f :: Owns(u, e) && Owns(u, f) && u.eps[e].port == u.eps[f].port ==> e == f)
    && (u.ports.init ==> forall e :: !Owns(u, e))
    && (!u.ports.init ==> HintOk(u.ports) && CountOk(u.ports))
    && (!u.ports.init ==> forall p :: p in AllPorts() ==> (p in u.ports.free <==> !Owned(u, p)))
  }

  /** The allocator is initialised by its first use; nothing is owned then. */
  ghost function Ready(u: Use): Use {
    u.(ports := Init(u.ports))
  }

  lemma ReadyKeeps(u: Use)
    requires UseInv(u)
    ensures UseInv(Ready(u)) && !Ready(u).ports.init
  {
    if u.ports.init {
      InitHintOk(u.ports);
      InitCountOk(u.ports);
      forall p ensures !Owned(Ready(u), p) {
        if Owned(Ready(u), p) {
          var e :| Owns(Ready(u), e) && u.eps[e].port == p;
          assert Owns(u, e);
        }
      }
    }
  }

  /** A free port given to an endpoint that had none. */
  lemma TakeKeeps(u: Use, v: Use, e: nat, port: Port)
    requires UseInv(u) && !u.ports.init && e in u.eps && u.eps[e].port == 0
    requires !u.eps[e].accepted && port != 0 && port in u.ports.free
    requires HintOk(v.ports) && CountOk(v.ports) && v.ports.free == u.ports.free - {port}
    requires v.eps == u.eps[e := u.eps[e].(port := port)]
    ensures UseInv(v)
  {
    assert forall f :: Owns(v, f) <==> Owns(u, f) || f == e;
    forall p | p in AllPorts() ensures p in v.ports.free <==> !Owned(v, p) {
      if Owned(u, p) {
        var f :| Owns(u, f) && u.eps[f].port == p;
        assert Owns(v, f) && v.eps[f].port == p;
      }
      if p == port { assert Owns(v, e) && v.eps[e].port == p; }
    }
  }

  lemma TakesAnyKeeps(u: Use, e: nat, v: Use)
    requires UseInv(u) && e in u.eps && u.eps[e].port == 0 && !u.eps[e].accepted && TakesAny(u, e, v)
    ensures UseInv(v)
  {
    var port: Port :|
      && Gets(u.ports, v.ports, port)
      && v.eps == if port == 0 then u.eps else u.eps[e := u.eps[e].(port := port)];
    var r := Ready(u);
    ReadyKeeps(u);
    assert Gets(r.ports, v.ports, port);
    GetHintOk(r.ports, v.ports, port);
    GetCountOk(r.ports, v.ports, port);
    if port != 0 {
      TakeKeeps(r, v, e, port);
    } else {
      SameOwners(r, v);
    }
  }

  lemma SameOwners(u: Use, v: Use)
    requires UseInv(u) && !u.ports.init && v.eps == u.eps && HintOk(v.ports)
    requires CountOk(v.ports) && v.ports.free == u.ports.free
    ensures UseInv(v)
  {
    forall p ensures Owned(u, p) <==> Owned(v, p) {
      if Owned(u, p) { var f :| Owns(u, f) && u.eps[f].port == p; assert Owns(v, f); }
      if Owned(v, p) { var f :| Owns(v, f) && v.eps[f].port == p; assert Owns(u, f); }
    }
  }

  lemma BindKeeps(u: Use, e: nat, pn: Port, v: Use)
    requires UseInv(u) && e in u.eps && u.eps[e].port == 0 && !u.eps[e].accepted && pn != 0
    requires var (ports, got) := Reserve(u.ports, pn);
             v == Use(ports, if got == pn then u.eps[e := u.eps[e].(port := pn)] else u.eps)
    ensures UseInv(v)
  {
    var r := Ready(u);
    ReadyKeeps(u);
    ReserveHintOk(r.ports, pn);
    ReserveCountOk(r.ports, pn);
    if pn in r.ports.free {
      TakeKeeps(r, v, e, pn);
    } else {
      SameOwners(r, v);
    }
  }

  lemma SameOwned(u: Use, v: Use, p: nat)
    requires v.eps == u.eps
    ensures Owned(u, p) <==> Owned(v, p)
  {
    if Owned(u, p) { var f :| Owns(u, f) && u.eps[f].port == p; assert Owns(v, f); }
    if Owned(v, p) { var f :| Owns(v, f) && v.eps[f].port == p; assert Owns(u, f); }
  }

  /** A bind to a port makes the endpoint its owner exactly if the caller may have it and nobody owns it. */
  lemma BindGetsItsPort(u: Use, e: nat, pn: Port, admin: bool, v: Use)
    requires UseInv(u) && Step(u, Bind(e, pn, admin), v) && pn != 0 && u.eps[e].port == 0
    ensures Owns(v, e) && v.eps[e].port == pn <==> (admin || pn >= ADMIN_PORT_END) && !Owned(u, pn)
    ensures !Owns(v, e) ==> v.eps == u.eps
  {
    if admin || pn >= ADMIN_PORT_END {
      ReadyKeeps(u);
      SameOwned(u, Ready(u), pn);
      ReserveIffFree(u.ports, pn);
      assert pn in AllPorts();
    }
  }

  /**
   A bind to any port, or a connect from the unbound state, gives the endpoint a port above the
   reserved range that nobody owned; it gets none only if the allocator fails.
   */
  lemma AnyPortIsFresh(u: Use, e: nat, v: Use)
    requires UseInv(u) && e in u.eps && u.eps[e].port == 0 && !u.eps[e].accepted && TakesAny(u, e, v)
    ensures if Owns(v, e) then RSVD <= v.eps[e].port && !Owned(u, v.eps[e].port)
            else v.eps == u.eps && (Exhausted(Init(u.ports)) || !HintLive(Init(u.ports)))
  {
    var port: Port :|
      && Gets(u.ports, v.ports, port)
      && v.eps == if port == 0 then u.eps else u.eps[e := u.eps[e].(port := port)];
    var r := Ready(u);
    ReadyKeeps(u);
    SameOwned(u, r, port);
    assert Gets(r.ports, v.ports, port);
    if port != 0 {
      GetIsLeastFree(r.ports, v.ports, port);
      assert port in AllPorts();
    } else {
      FailureIsExhaustionIffLive(r.ports, v.ports, port);
    }
  }

  /** An endpoint with no port of its own comes or goes. */
  lemma BystanderKeeps(u: Use, v: Use)
    requires UseInv(u) && v.ports == u.ports
    requires forall e :: Owns(v, e) <==> Owns(u, e)
    requires forall e :: Owns(u, e) ==> e in v.eps && v.eps[e] == u.eps[e]
    ensures UseInv(v)
  {
    forall p ensures Owned(u, p) <==> Owned(v, p) {
      if Owned(u, p) { var f :| Owns(u, f) && u.eps[f].port == p; assert Owns(v, f); }
      if Owned(v, p) { var f :| Owns(v, f) && v.eps[f].port == p; assert Owns(u, f); }
    }
  }

  /** An accepted endpoint shares its listener's port; the listener stays the one owner. */
  lemma AcceptShares(u: Use, l: nat, c: nat, v: Use)
    requires UseInv(u) && Step(u, Accept(l, c), v)
    ensures v.eps[c].port == u.eps[l].port && !Owns(v, c) && v.ports == u.ports
    ensures forall e :: Owns(v, e) <==> Owns(u, e)
    ensures UseInv(v)
  {
    BystanderKeeps(u, v);
  }

  /** Closing an owner frees its port, which was not free, and no other; closing anyone else frees nothing. */
  lemma CloseFreesItsPort(u: Use, e: nat, v: Use)
    requires UseInv(u) && Step(u, Close(e), v)
    ensures if Owns(u, e) then u.eps[e].port !in u.ports.free && v.ports.free == u.ports.free + {u.eps[e].port}
            else v.ports == u.ports
    ensures UseInv(v)
  {
    if Owns(u, e) {
      var port := u.eps[e].port;
      assert Owned(u, port) && port in AllPorts();
      PutHintOk(u.ports, port);
      PutCountOkIffHeld(u.ports, port);
      assert forall f :: Owns(v, f) <==> Owns(u, f) && f != e;
      forall p | p in AllPorts() ensures p in v.ports.free <==> !Owned(v, p) {
        if Owned(u, p) && p != port {
          var f :| Owns(u, f) && u.eps[f].port == p;
          assert Owns(v, f) && v.eps[f].port == p;
        }
      }
    } else {
      BystanderKeeps(u, v);
    }
  }

  lemma StepKeeps(u: Use, op: Op, v: Use)
    requires UseInv(u) && Step(u, op, v)
    ensures UseInv(v)
  {
    match op
    case Open(e) => BystanderKeeps(u, v);
    case Bind(e, pn, admin) =>
      if u.eps[e].port == 0 && !(pn != 0 && pn < ADMIN_PORT_END && !admin) {
        if pn == 0 { TakesAnyKeeps(u, e, v); } else { BindKeeps(u, e, pn, v); }
      }
    case Connect(e) => if u.eps[e].port == 0 { TakesAnyKeeps(u, e, v); }
    case Accept(l, c) => BystanderKeeps(u, v);
    case Close(e) => CloseFreesItsPort(u, e, v);
  }

  ghost predicate StepAt(us: seq<Use>, ops: seq<Op>, i: nat)
    requires i < |ops| < |us|
  {
    Step(us[i], ops[i], us[i + 1])
  }

  /** Over every run of calls, ports are owned by one endpoint each and are free exactly when nobody owns them. */
  lemma {:induction false} PortsAreExclusive(us: seq<Use>, ops: seq<Op>, n: nat)
    requires |us| == |ops| + 1 && Initially(us[0]) && n < |us|
    requires forall i: nat :: i < |ops| ==> StepAt(us, ops, i)
    ensures UseInv(us[n])
  {
    if n > 0 {
      PortsAreExclusive(us, ops, n - 1);
      assert StepAt(us, ops, n - 1);
      StepKeeps(us[n - 1], ops[n - 1], us[n]);
    }
  }
}
