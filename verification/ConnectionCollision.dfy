/**
 Runs in which a termination takes the request of another node's endpoint, and what goes
 wrong after that: each of the results about connections fails in one of them.

 Node 0 has a listener L.  Endpoint A of node 1 and endpoint B of node 2 have the same
 address.  B's request is queued on L when A's termination arrives there.
 */
module ConnectionCollision {
  import opened ConnectionSpec
  import opened ConnectionSteps
  import opened ConnectionAim
  import opened ConnectionTheorems
  import opened ConnectionRuns

  const L := Ep(0, 1)
  const A := Ep(1, 7)
  const B := Ep(2, 7)
  const C := Ep(0, 2) // accepts for L
  const D := Ep(0, 3) // asks A
  const M := Ep(3, 1) // listens on node 3
  const N := Ep(3, 2) // accepts for M
  const HOME := PortId(0, 5)
  const AWAY := PortId(3, 5)
  const MINE := PortId(1, 9)

  // ------------------------------------------------ B's request is queued, A's on its way

  const RB := Request(B, PortId(2, 9), 1, 0)
  const OPENED := UNOPENED.(state := Unbound)
  const WAITING := Asking(OPENED, HOME, 1).(asked := 1, token := Queued(L, RB))
  const ASKED := Asking(OPENED, HOME, 2)

  /** L listens. */
  ghost predicate Hosts(w: World, queue: seq<Request>) {
    var x := At(w, L);
    && x.state.Listening? && x.call.Idle? && x.port == 5 && x.backlog == 4 && x.conlist == queue
    && x.conreqcnt == |queue| && w.listen[L] == 1 && L in w.eps
  }

  /** Nobody but L, A and B is there, and nothing is connected or closed. */
  ghost predicate Alone(w: World) {
    && (forall z :: z in w.eps ==> z in {L, A, B}) && A in w.eps
    && w.connected == multiset{} && w.zombie == multiset{} && w.active == map[] && w.listen == multiset{L}
  }

  lemma AllOpen() returns (ops: seq<Step>, w: World)
    ensures Run(ops) == w && At(w, L) == OPENED && At(w, A) == OPENED && At(w, B) == OPENED
    ensures (forall z :: z in w.eps ==> z in {L, A, B}) && A in w.eps && L in w.eps
    ensures Lists(EMPTY, w) && w.wire == map[] && w.next == 1 && w.clock == 0
  {
    w := EMPTY;
    assert Run([]) == w;
    hide Run, At;
    ops, w := Opens([], w, A);
    ops, w := Opens(ops, w, B);
    ops, w := Opens(ops, w, L);
  }

  lemma LListens() returns (ops: seq<Step>, w: World)
    ensures Run(ops) == w && Alone(w) && Hosts(w, []) && At(w, A) == OPENED && At(w, B) == OPENED
    ensures w.wire == map[] && w.next == 1 && w.clock == 0
  {
    hide Run, At;
    ops, w := AllOpen();
    ops, w := Binds(ops, w, L);
    ops, w := Listens(ops, w, L);
  }

  lemma BothAsk() returns (ops: seq<Step>, w: World)
    ensures Run(ops) == w && Alone(w) && Hosts(w, [RB]) && At(w, A) == ASKED && At(w, B) == WAITING
    ensures w.wire == map[2 := Req(A, MINE, HOME)] && w.next == 3 && w.clock == 1
  {
    hide Run, At;
    ops, w := LListens();
    ops, w := Asks(ops, w, B, HOME);
    assert w.wire == map[1 := Req(B, PortId(2, 9), HOME)];
    ops, w := IsQueued(ops, w, 1, L);
    assert w.wire == map[];
    ops, w := Asks(ops, w, A, HOME);
  }

  // ------------------------------------------------ A's request is queued behind B's, and its termination takes B's

  const RA := Request(A, MINE, 2, 1)
  const TERMINATED := ASKED.(call := ConnectTerm(HOME), asked := 1, answered := 1, token := OnWire(4))

  lemma WrongOneTaken() returns (ops: seq<Step>, w: World)
    ensures Run(ops) == w && Alone(w) && Hosts(w, [RA]) && At(w, A) == TERMINATED && At(w, B) == WAITING
    ensures w.wire == map[4 := TermAck(A, 0, 2)] && w.next == 5
  {
    hide Run, At;
    ops, w := BothAsk();
    ops, w := IsQueued(ops, w, 2, L);
    assert w.wire == map[] && At(w, L).conlist == [RB, RA];
    ops, w := Interrupts(ops, w, A);
    assert w.wire == map[3 := Term(A, MINE, HOME, 2)];
    ops, w := TakesAnother(ops, w, 3, L);
    assert At(w, L).conlist == [RA];
  }

  /** B's request was delivered, is nowhere to be found, and was never answered; B waits for ever. */
  lemma Unserved() returns (ops: seq<Step>)
    ensures !Served(Run(ops), B) && !Expects(Run(ops), B)
  {
    var w;
    ops, w := WrongOneTaken();
    forall p ensures !FoundAt(w, B, p) {
    }
  }

  /** A has both a request in the queue and the acknowledgement that it is gone. */
  lemma TwoOutstanding() returns (ops: seq<Step>)
    ensures !Single(Run(ops), A)
  {
    var w;
    ops, w := WrongOneTaken();
    assert FoundAt(w, A, Message(4)) && FoundAt(w, A, InQueue(L, 0));
  }

  /** A, which has asked node 3 since, is granted what it gave up asking of node 0. */
  lemma StaleGrant() returns (ops: seq<Step>, w: World)
    ensures Run(ops) == w && At(w, A).call == ConnectWait(AWAY) && At(w, A).state.Connecting? && At(w, A).attempt == 5
    ensures At(w, A).remoteDev == 3
    ensures w.wire == map[5 := Req(A, MINE, AWAY), 6 := Gnt(A, HOME, 2, C)]
  {
    hide Run, At;
    ops, w := WrongOneTaken();
    ops, w := BecomesBound(ops, w, 4);
    assert w.wire == map[];
    ops, w := ReturnsUnconnected(ops, w, A);
    ops, w := Asks(ops, w, A, AWAY);
    ops, w := IsGranted(ops, w, L, C);
  }

  /** The grant in flight answers an earlier attempt than the one in progress. */
  lemma LateReply() returns (ops: seq<Step>)
    ensures !Timely(Run(ops), 6)
  {
    var w;
    ops, w := StaleGrant();
  }

  /** Taken for the answer of node 3, it is a grant from a port A did not ask for. */
  lemma Misdirected() returns (ops: seq<Step>)
    ensures !Directed(Run(ops), A)
  {
    hide Run, At;
    var w;
    ops, w := StaleGrant();
    ops, w := Maps(ops, w, 6);
  }

  /** That grant connects A to an endpoint of node 0. */
  lemma Disagreement() returns (ops: seq<Step>)
    ensures At(Run(ops), A).state.Connected? && !Agree(Run(ops), A)
  {
    hide Run, At;
    var w;
    ops, w := StaleGrant();
    ops, w := Maps(ops, w, 6);
    ops, w := Connects(ops, w, A);
  }

  // ------------------------------------------------ A is rejected, and its termination is still on the way

  const FREE := ASKED.(state := Bound, call := Idle, asked := 1, answered := 1, token := NoToken)
  const LATE := Term(A, MINE, HOME, 2)

  lemma AFree() returns (ops: seq<Step>, w: World)
    ensures Run(ops) == w && Alone(w) && Hosts(w, [RB]) && At(w, A) == FREE
    ensures w.wire == map[4 := LATE] && w.next == 5 && w.clock == 1
  {
    hide Run, At;
    ops, w := BothAsk();
    ops, w := IsRejected(ops, w, 2, L);
    assert w.wire == map[3 := Rej(A, 0, 2)];
    ops, w := Interrupts(ops, w, A);
    assert w.wire == map[3 := Rej(A, 0, 2), 4 := LATE];
    ops, w := BecomesBound(ops, w, 3);
    ops, w := ReturnsUnconnected(ops, w, A);
  }

  /** A is closed: the acknowledgement of its termination goes to a zombie. */
  lemma MessageForTheDead() returns (ops: seq<Step>)
    ensures !Awaited(Run(ops), 5)
  {
    hide Run, At;
    var w;
    ops, w := AFree();
    ops, w := Closes(ops, w, A);
    ops, w := TakesAnother(ops, w, 4, L);
  }

  /** A listens, and D's request is queued on it. */
  lemma AListens() returns (ops: seq<Step>, w: World)
    ensures Run(ops) == w && Hosts(w, [RB]) && w.wire == map[4 := LATE] && w.next == 6
    ensures var x := At(w, A); x.state.Listening? && x.call.Idle? && x.conlist != [] && x.looks == 0 && !x.flushing
    ensures w.listen[A] == 1
  {
    hide Run, At;
    ops, w := AFree();
    ops, w := Listens(ops, w, A);
    ops, w := Opens(ops, w, D);
    ops, w := Asks(ops, w, D, MINE);
    assert w.wire == map[4 := LATE, 5 := Req(D, PortId(0, 9), MINE)];
    ops, w := IsQueued(ops, w, 5, A);
  }

  /** The acknowledgement makes A BOUND, so that its close rejects nobody and leaves it on mi_listen. */
  lemma QueueAbandoned() returns (ops: seq<Step>)
    ensures !Bounded(Run(ops), A) && !Filed(Run(ops), A)
  {
    hide Run, At;
    var w;
    ops, w := AListens();
    ops, w := TakesAnother(ops, w, 4, L);
    assert w.wire == map[6 := TermAck(A, 0, 2)];
    ops, w := BecomesBound(ops, w, 6);
    ops, w := Closes(ops, w, A);
  }

  const RM := Request(A, MINE, 5, 1)

  /** A asks node 3. */
  lemma AQueuedAway() returns (ops: seq<Step>, w: World)
    ensures Run(ops) == w && Hosts(w, [RB]) && w.wire == map[4 := LATE] && w.next == 6 && N !in w.eps && C !in w.eps
    ensures var x := At(w, M); x.state.Listening? && x.call.Idle? && x.conlist == [RM] && x.port == 5
    ensures var x := At(w, A); x.state.Connecting? && x.call.ConnectWait? && x.port == 9 && x.remoteDev == 3
    ensures w.connected == multiset{} && w.active == map[]
  {
    hide Run, At;
    ops, w := AFree();
    ops, w := MListens(ops, w);
    ops, w := Asks(ops, w, A, AWAY);
    assert w.wire == map[4 := LATE, 5 := Req(A, MINE, AWAY)];
    ops, w := IsQueued(ops, w, 5, M);
  }

  lemma AGrantedAway() returns (ops: seq<Step>, w: World)
    ensures Run(ops) == w && Hosts(w, [RB]) && w.wire == map[4 := LATE, 6 := Gnt(A, AWAY, 5, N)] && w.next == 7
    ensures var x := At(w, A); x.state.Connecting? && x.call.ConnectWait? && x.port == 9 && x.remoteDev == 3
    ensures w.connected == multiset{} && w.active == map[] && C !in w.eps
  {
    hide Run, At;
    ops, w := AQueuedAway();
    ops, w := IsGranted(ops, w, M, N);
  }

  /** A is connected to an endpoint of node 3. */
  lemma AConnects() returns (ops: seq<Step>, w: World)
    ensures Run(ops) == w && Hosts(w, [RB]) && w.wire == map[4 := LATE, 7 := GntAck(N, 1)] && w.next == 8
    ensures var x := At(w, A); x.state.Connected? && x.call.Idle? && x.port == 9
    ensures w.connected == multiset{A} && w.active == map[(1, 3) := 1] && C !in w.eps
  {
    hide Run, At;
    ops, w := AGrantedAway();
    ops, w := Maps(ops, w, 6);
    assert w.wire == map[4 := LATE];
    ops, w := Connects(ops, w, A);
  }

  lemma MListens(before: seq<Step>, w: World) returns (ops: seq<Step>, v: World)
    requires Run(before) == w && M !in w.eps
    ensures Run(ops) == v && Only(w, v, {M}) && Lists(w, v.(listen := w.listen)) && v.listen == w.listen + multiset{M}
    ensures At(v, M) == OPENED.(state := Listening, port := 5, backlog := 4)
    ensures v.wire == w.wire && v.next == w.next && v.clock == w.clock
  {
    hide Run, At;
    ops, v := Opens(before, w, M);
    ops, v := Binds(ops, v, M);
    ops, v := Listens(ops, v, M);
  }

  /** The acknowledgement makes A BOUND, and it asks node 0 again although it is on mi_connected. */
  lemma AAsksAgain() returns (ops: seq<Step>, w: World)
    ensures Run(ops) == w && Hosts(w, []) && w.wire == map[7 := GntAck(N, 1), 9 := Req(A, MINE, HOME)] && w.next == 10
    ensures At(w, A).state.Connecting? && At(w, A).call.ConnectWait? && At(w, A).remoteDev == 0
    ensures w.connected == multiset{A} && w.active == map[(1, 3) := 1] && C !in w.eps
  {
    hide Run, At;
    ops, w := AConnects();
    ops, w := TakesAnother(ops, w, 4, L);
    assert w.wire == map[7 := GntAck(N, 1), 8 := TermAck(A, 0, 2)];
    ops, w := BecomesBound(ops, w, 8);
    assert w.wire == map[7 := GntAck(N, 1)];
    ops, w := Asks(ops, w, A, HOME);
  }

  /** The device of node 3 counts a connection that nobody has. */
  lemma Miscounted() returns (ops: seq<Step>)
    ensures !ActiveAt(Run(ops), 1, 3)
  {
    hide Run, At;
    var w;
    ops, w := AAsksAgain();
    assert Members(w, 1, 3) == {};
  }

  /** A is granted what it asks of node 0. */
  lemma AGrantedAgain() returns (ops: seq<Step>, w: World)
    ensures Run(ops) == w && w.wire == map[7 := GntAck(N, 1), 10 := Gnt(A, HOME, 9, C)]
    ensures At(w, A).state.Connecting? && At(w, A).call.ConnectWait? && w.connected == multiset{A}
  {
    hide Run, At;
    ops, w := AAsksAgain();
    ops, w := IsQueued(ops, w, 9, L);
    assert w.wire == map[7 := GntAck(N, 1)];
    ops, w := IsGranted(ops, w, L, C);
  }

  /** A refuses the grant of node 0 and forgets whom it is connected to. */
  lemma LeftBehind() returns (ops: seq<Step>)
    ensures !Accompanied(Run(ops), A)
  {
    hide Run, At;
    var w;
    ops, w := AGrantedAgain();
    ops, w := Maps(ops, w, 10);
    assert w.wire == map[7 := GntAck(N, 1)];
    ops, w := Refuses(ops, w, A);
  }
}
