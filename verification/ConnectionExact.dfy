/**
 When exactly the results about connections hold.  A termination looks for its request by
 the address of the endpoint that sent it, and an address is one node's own: the request
 it finds can be that of another node's endpoint.
 */
module ConnectionExact {
  import opened ConnectionSpec
  import opened ConnectionInv
  import opened ConnectionTokens
  import opened ConnectionGrants
  import opened ConnectionFarewells
  import opened ConnectionSteps
  import opened ConnectionTheorems

  // ------------------------------------------------ one termination

  /** A request that another endpoint's termination takes out of the queue is found nowhere any more. */
  lemma TakenRequestIsLost(w: World, s: nat, l: Ep, p: Place)
    requires Inv(w) && s in w.wire && w.wire[s].Term? && OnListen(w, l, w.wire[s].dst) && !FindsOwn(w, s, l)
    ensures var i := FindRequest(At(w, l).conlist, w.wire[s].from.addr);
            FoundAt(OnTermNext(w, s, l, true), At(w, l).conlist[i].from, p) ==> p.Message?
  {
    hide Shape, Plays, GrantInv, FarewellInv, ActiveInv;
    var i := FindRequest(At(w, l).conlist, w.wire[s].from.addr);
    var r := At(w, l).conlist[i];
    Know(w, l);
    UnqueuedMembers(At(w, l), i);
    hide Unqueued, QueueShape;
    assert RequestsAt(w, l) && At(w, r.from).token == Queued(l, r);
    TermTakesOne(w, s, l);
    hide At, OnTermNext;
    match p
    case Message(_) =>
    case InQueue(k, _) => assert RequestsAt(w, k);
    case InAccept(c) => assert RequestsAt(w, c);
  }

  /** A termination that finds a request changes one queue, and no call. */
  lemma TermTakesOne(w: World, s: nat, l: Ep)
    requires s in w.wire && w.wire[s].Term?
    requires FindRequest(At(w, l).conlist, w.wire[s].from.addr) < |At(w, l).conlist|
    ensures var i := FindRequest(At(w, l).conlist, w.wire[s].from.addr);
            var v := OnTermNext(w, s, l, true);
            At(v, l).conlist == Unqueued(At(w, l), i).conlist
    ensures forall z :: z != l ==> At(OnTermNext(w, s, l, true), z).conlist == At(w, z).conlist
    ensures forall z :: At(OnTermNext(w, s, l, true), z).call == At(w, z).call
  {
  }

  lemma LostIsUnserved(w: World, s: nat, l: Ep)
    requires Inv(w) && s in w.wire && w.wire[s].Term? && OnListen(w, l, w.wire[s].dst) && !FindsOwn(w, s, l)
    ensures exists e :: !Served(OnTermNext(w, s, l, true), e)
  {
    hide Shape, Plays, FoundAt, GrantInv, FarewellInv, ActiveInv;
    var i := FindRequest(At(w, l).conlist, w.wire[s].from.addr);
    var e := At(w, l).conlist[i].from;
    var v := OnTermNext(w, s, l, true);
    assert RequestsAt(w, l) && At(w, l).conlist[i] in At(w, l).conlist;
    Know(w, l);
    ShapeOf(w, e);
    assert At(v, e) == At(w, e);
    forall p ensures !(FoundAt(v, e, p) && !p.Message?) { TakenRequestIsLost(w, s, l, p); }
    assert !Served(v, e);
  }

  /** A termination leaves everybody served exactly if the request it finds, if any, is its sender's. */
  lemma ServedIffFindsOwn(w: World, s: nat, l: Ep)
    requires Inv(w) && Enabled(w, OnTerm(s, l, true))
    ensures (forall e :: Served(OnTermNext(w, s, l, true), e)) <==> FindsOwn(w, s, l)
  {
    hide Inv, Served, FindsOwn;
    if FindsOwn(w, s, l) {
      NextKeepsInv(w, OnTerm(s, l, true));
      forall e ensures Served(OnTermNext(w, s, l, true), e) { InvServed(OnTermNext(w, s, l, true), e); }
    } else {
      LostIsUnserved(w, s, l);
    }
  }

  // ------------------------------------------------ whole runs

  ghost predicate AllServed(w: World) {
    forall e :: Served(w, e)
  }

  /** Everybody is served after every step of the run. */
  ghost predicate ServedThroughout(ops: seq<Step>) {
    forall n: nat :: n <= |ops| ==> AllServed(Run(ops[..n]))
  }

  ghost predicate SoundThroughout(ops: seq<Step>) {
    forall n: nat :: n <= |ops| ==> Sound(Run(ops[..n]))
  }

  lemma {:induction false} PrefixFoundOwn(ops: seq<Step>, n: nat)
    requires FoundOwn(ops) && n <= |ops|
    ensures FoundOwn(ops[..n])
  {
    hide Run, Sure, Enabled;
    if n == |ops| {
      assert ops[..n] == ops;
    } else {
      PrefixFoundOwn(ops[..|ops| - 1], n);
      assert ops[..|ops| - 1][..n] == ops[..n];
    }
  }

  /** Served throughout means that no termination took another endpoint's request. */
  lemma {:induction false} ServedFoundOwn(ops: seq<Step>)
    requires ServedThroughout(ops)
    ensures FoundOwn(ops)
  {
    hide Inv, AllServed, Enabled, Next, Sure;
    if ops != [] {
      var before, op := ops[..|ops| - 1], ops[|ops| - 1];
      forall n: nat | n <= |before| ensures AllServed(Run(before[..n])) { assert before[..n] == ops[..n]; }
      ServedFoundOwn(before);
      RunKeepsInv(before);
      if Enabled(Run(before), op) {
        LastServed(ops);
        ServedStepIsSure(Run(before), op);
      }
    }
  }

  lemma ServedStepIsSure(w: World, op: Step)
    requires Inv(w) && Enabled(w, op) && AllServed(Next(w, op))
    ensures Sure(w, op)
  {
    hide Inv, Served, FindsOwn;
    if op.OnTerm? && op.found { ServedIffFindsOwn(w, op.s, op.l); }
  }

  lemma LastServed(ops: seq<Step>)
    requires ops != [] && ServedThroughout(ops)
    requires Enabled(Run(ops[..|ops| - 1]), ops[|ops| - 1])
    ensures AllServed(Next(Run(ops[..|ops| - 1]), ops[|ops| - 1]))
  {
    hide Served, Next, Enabled;
    assert ops[..|ops|] == ops;
    assert AllServed(Run(ops[..|ops|]));
  }

  /** In every run: each request is served throughout exactly if each termination that finds a request finds its own. */
  lemma ServedIffFoundOwn(ops: seq<Step>)
    ensures ServedThroughout(ops) <==> FoundOwn(ops)
  {
    hide Served, Run, FoundOwn;
    if FoundOwn(ops) {
      forall n: nat | n <= |ops| ensures AllServed(Run(ops[..n])) {
        PrefixFoundOwn(ops, n);
        forall e ensures Served(Run(ops[..n]), e) { AnsweredOrWaiting(ops[..n], e); }
      }
    }
    if ServedThroughout(ops) { ServedFoundOwn(ops); }
  }

  /** The same for all results about connections together. */
  lemma SoundIffFoundOwn(ops: seq<Step>)
    ensures SoundThroughout(ops) <==> FoundOwn(ops)
  {
    hide Served, Run, FoundOwn;
    if FoundOwn(ops) {
      forall n: nat | n <= |ops| ensures Sound(Run(ops[..n])) {
        PrefixFoundOwn(ops, n);
        RunIsSound(ops[..n]);
      }
    }
    if SoundThroughout(ops) {
      forall n: nat | n <= |ops| ensures AllServed(Run(ops[..n])) { SoundServed(Run(ops[..n])); }
      ServedFoundOwn(ops);
    }
  }

  lemma SoundServed(w: World)
    requires Sound(w)
    ensures AllServed(w)
  {
    hide Served;
  }

  // ------------------------------------------------ a condition on addresses

  /** Before each step of the run, no two nodes use the same address for an endpoint. */
  ghost predicate Apart(ops: seq<Step>) {
    ops == [] || (Apart(ops[..|ops| - 1]) && DistinctAddresses(Run(ops[..|ops| - 1])))
  }

  /** Distinct addresses are enough for all of the above. */
  lemma {:induction false} ApartFindsOwn(ops: seq<Step>)
    requires Apart(ops)
    ensures FoundOwn(ops)
  {
    hide Inv, Next, FindsOwn, DistinctAddresses;
    if ops != [] {
      var before, op := ops[..|ops| - 1], ops[|ops| - 1];
      ApartFindsOwn(before);
      RunKeepsInv(before);
      if Enabled(Run(before), op) && op.OnTerm? && op.found {
        InvTokens(Run(before));
        DistinctFindsOwn(Run(before), op.s, op.l);
      }
    }
  }

  lemma InvTokens(w: World)
    requires Inv(w)
    ensures TokenInv(w)
  {
  }
}
