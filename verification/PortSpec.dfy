/**
 Port numbers: a set of free ones, and a hint where to look for one.
 */
module PortSpec {

  const PORTS := 0x10000
  const RSVD := 1088
  const WORD := 64
  const WORDS := 1024

  type Port = p: nat | p < PORTS

  datatype Ports = Ports(
    init: bool,         // still to be initialised
    free: set<nat>,
    firstFree: nat,     // the word where get looks
    rsvd: nat,
    freed: nat,
    err: nat)

  predicate IsUsable(p: nat) {
    p != 0
  }

  /** All ports but 0. */
  function AllPorts(): set<nat> {
    set p: nat | p < PORTS && IsUsable(p)
  }

  /** init_scif_array */
  function Init(s: Ports): Ports {
    if s.init then Ports(false, AllPorts(), RSVD / WORD, 0, 0, 0) else s
  }

  /** The free ports of one word. */
  function InWord(free: set<nat>, w: nat): set<nat> {
    set p | p in free && p / WORD == w
  }

  ghost predicate IsLeast(p: nat, s: set<nat>) {
    p in s && forall q :: q in s ==> p <= q
  }

  /** rsrv_scif_port */
  function Reserve(s: Ports, port: Port): (Ports, Port) {
    if port == 0 then (s.(err := s.err + 1), 0)
    else
      var t := Init(s);
      if port in t.free then (t.(free := t.free - {port}, rsvd := t.rsvd + 1), port)
      else (t.(err := t.err + 1), 0)
  }

  /** put_scif_port */
  function Put(s: Ports, port: Port): Ports {
    if port == 0 then s.(err := s.err + 1)
    else s.(free := s.free + {port}, freed := s.freed + 1,
            firstFree := if port >= RSVD && port / WORD < s.firstFree then port / WORD else s.firstFree)
  }

  /** The first word from `w` on that has a free port, or the end. */
  ghost predicate NextLive(free: set<nat>, w: nat, v: nat) {
    && w <= v <= WORDS
    && (forall u :: w <= u < v ==> InWord(free, u) == {})
    && (v < WORDS ==> InWord(free, v) != {})
  }

  /** get_scif_port: what it leaves and returns. */
  ghost predicate Gets(s: Ports, e: Ports, port: Port) {
    var t := Init(s);
    if t.firstFree >= WORDS || InWord(t.free, t.firstFree) == {} then
      port == 0 && e == t.(err := t.err + 1)
    else
      && IsLeast(port, InWord(t.free, t.firstFree))
      && e == t.(free := t.free - {port}, rsvd := t.rsvd + 1, firstFree := e.firstFree)
      && NextLive(e.free, t.firstFree, e.firstFree)
  }

  // ------------------------------------------------ the hint

  /** No port from the reserved range up to the hint is free; port 0 never is. */
  ghost predicate HintOk(s: Ports) {
    && !s.init && RSVD / WORD <= s.firstFree <= WORDS
    && s.free <= AllPorts()
    && forall p :: p in s.free && RSVD <= p ==> s.firstFree <= p / WORD
  }

  lemma InitHintOk(s: Ports)
    requires s.init
    ensures HintOk(Init(s)) && HintLive(Init(s))
  {
    assert RSVD in InWord(AllPorts(), RSVD / WORD);
  }

  lemma ReserveHintOk(s: Ports, port: Port)
    requires HintOk(s)
    ensures HintOk(Reserve(s, port).0)
  {
  }

  /** A reservation succeeds exactly if the port is free, takes that port alone, and otherwise changes no port. */
  lemma ReserveIffFree(s: Ports, port: Port)
    ensures var (e, got) := Reserve(s, port);
            && got == (if port in Init(s).free && port != 0 then port else 0)
            && (got != 0 ==> e.free == Init(s).free - {port})
            && (got == 0 && port != 0 ==> e.free == Init(s).free)
            && (port == 0 ==> e.free == s.free && e.init == s.init)
  {
  }

  lemma PutHintOk(s: Ports, port: Port)
    requires HintOk(s)
    ensures HintOk(Put(s, port))
  {
  }

  lemma GetHintOk(s: Ports, e: Ports, port: Port)
    requires HintOk(s) && Gets(s, e, port)
    ensures HintOk(e)
  {
    forall p | p in e.free && RSVD <= p ensures e.firstFree <= p / WORD {
      assert p in InWord(e.free, p / WORD);
    }
  }

  /** A port that is handed out was the least free one at or above the reserved range. */
  lemma GetIsLeastFree(s: Ports, e: Ports, port: Port)
    requires HintOk(s) && Gets(s, e, port) && port != 0
    ensures IsLeast(port, set p | p in s.free && RSVD <= p)
  {
    forall q | q in s.free && RSVD <= q ensures port <= q {
      if q / WORD == s.firstFree {
        assert q in InWord(s.free, s.firstFree);
      }
    }
  }

  // ------------------------------------------------ when it fails

  /** The hint points at a free port, or past the end. */
  ghost predicate HintLive(s: Ports) {
    s.firstFree < WORDS ==> InWord(s.free, s.firstFree) != {}
  }

  ghost predicate Exhausted(s: Ports) {
    forall p :: p in s.free ==> p < RSVD
  }

  /** A failed get means that nothing is left exactly when the hint is live. */
  lemma FailureIsExhaustionIffLive(s: Ports, e: Ports, port: Port)
    requires HintOk(s) && Gets(s, e, port)
    ensures (port == 0 <==> Exhausted(s)) <==> HintLive(s) || Exhausted(s)
  {
    if s.firstFree < WORDS && InWord(s.free, s.firstFree) != {} {
      var p :| p in InWord(s.free, s.firstFree);
      assert p in s.free;
    }
  }

  /** What keeps the hint live: a get and a put always, a reservation unless it takes the hint's last free port. */
  lemma GetKeepsLive(s: Ports, e: Ports, port: Port)
    requires HintOk(s) && HintLive(s) && Gets(s, e, port)
    ensures HintLive(e)
  {
  }

  lemma PutKeepsLive(s: Ports, port: Port)
    requires HintOk(s) && HintLive(s)
    ensures HintLive(Put(s, port))
  {
    var e := Put(s, port);
    if e.firstFree < WORDS {
      if e.firstFree == s.firstFree {
        var p :| p in InWord(s.free, s.firstFree);
        assert p in InWord(e.free, e.firstFree);
      } else {
        assert port in InWord(e.free, e.firstFree);
      }
    }
  }

  lemma ReserveKeepsLiveIff(s: Ports, port: Port)
    requires HintOk(s) && HintLive(s)
    ensures HintLive(Reserve(s, port).0) <==> !(s.firstFree < WORDS && InWord(s.free, s.firstFree) == {port})
  {
    var e := Reserve(s, port).0;
    if s.firstFree < WORDS {
      if port in s.free {
        assert InWord(e.free, s.firstFree) == InWord(s.free, s.firstFree) - {port};
      }
    }
  }

  // ------------------------------------------------ every run of the allocator

  datatype Op = OpReserve(port: Port) | OpGet(port: Port) | OpPut(port: Port)

  ghost predicate Step(s: Ports, op: Op, e: Ports) {
    match op
    case OpReserve(port) => e == Reserve(s, port).0
    case OpGet(port) => Gets(s, e, port)
    case OpPut(port) => e == Put(s, port)
  }

  ghost predicate StepAt(ss: seq<Ports>, ops: seq<Op>, i: nat)
    requires i < |ops| < |ss|
  {
    Step(ss[i], ops[i], ss[i + 1])
  }

  /** A reservation that leaves the hint's word something to hand out; any below the reserved boundary does. */
  ghost predicate Sparing(s: Ports, op: Op) {
    op.OpReserve? ==> !(s.firstFree < WORDS && InWord(s.free, s.firstFree) == {op.port})
  }

  lemma LowIsSparing(s: Ports, port: Port)
    requires HintOk(s) && port < RSVD
    ensures Sparing(s, OpReserve(port))
  {
    if InWord(s.free, s.firstFree) == {port} { assert port in InWord(s.free, s.firstFree); }
  }

  /** Words below the hint stay empty, and while reservations spare the hint's word a get fails only on exhaustion. */
  lemma {:induction false} HintStaysLive(ss: seq<Ports>, ops: seq<Op>, n: nat)
    requires |ss| == |ops| + 1 && n < |ss| && HintOk(ss[0]) && HintLive(ss[0])
    requires forall i: nat :: i < |ops| ==> StepAt(ss, ops, i)
    requires forall i: nat :: i < |ops| ==> Sparing(ss[i], ops[i])
    ensures HintOk(ss[n]) && HintLive(ss[n])
    ensures n < |ops| && ops[n].OpGet? ==> (ops[n].port == 0 <==> Exhausted(ss[n]))
  {
    if n > 0 {
      HintStaysLive(ss, ops, n - 1);
      assert StepAt(ss, ops, n - 1) && Sparing(ss[n - 1], ops[n - 1]);
      match ops[n - 1]
      case OpReserve(port) =>
        ReserveHintOk(ss[n - 1], port);
        ReserveKeepsLiveIff(ss[n - 1], port);
      case OpGet(port) =>
        GetHintOk(ss[n - 1], ss[n], port);
        GetKeepsLive(ss[n - 1], ss[n], port);
      case OpPut(port) =>
        PutHintOk(ss[n - 1], port);
        PutKeepsLive(ss[n - 1], port);
    }
    if n < |ops| && ops[n].OpGet? {
      assert StepAt(ss, ops, n);
      FailureIsExhaustionIffLive(ss[n], ss[n + 1], ops[n].port);
    }
  }

  /** Words below the hint stay empty whatever is reserved. */
  lemma {:induction false} HintStaysOk(ss: seq<Ports>, ops: seq<Op>, n: nat)
    requires |ss| == |ops| + 1 && n < |ss| && HintOk(ss[0])
    requires forall i: nat :: i < |ops| ==> StepAt(ss, ops, i)
    ensures HintOk(ss[n])
  {
    if n > 0 {
      HintStaysOk(ss, ops, n - 1);
      assert StepAt(ss, ops, n - 1);
      match ops[n - 1]
      case OpReserve(port) => ReserveHintOk(ss[n - 1], port);
      case OpGet(port) => GetHintOk(ss[n - 1], ss[n], port);
      case OpPut(port) => PutHintOk(ss[n - 1], port);
    }
  }

  /** If specific reservations stay below the reserved boundary, a get fails exactly when every port above is taken. */
  lemma LowReservationsStayLive(ss: seq<Ports>, ops: seq<Op>, n: nat)
    requires |ss| == |ops| + 1 && n < |ss| && HintOk(ss[0]) && HintLive(ss[0])
    requires forall i: nat :: i < |ops| ==> StepAt(ss, ops, i)
    requires forall i: nat :: i < |ops| && ops[i].OpReserve? ==> ops[i].port < RSVD
    ensures HintOk(ss[n]) && HintLive(ss[n])
    ensures n < |ops| && ops[n].OpGet? ==> (ops[n].port == 0 <==> Exhausted(ss[n]))
  {
    forall i: nat | i < |ops| ensures Sparing(ss[i], ops[i]) {
      HintStaysOk(ss, ops, i);
      if ops[i].OpReserve? { LowIsSparing(ss[i], ops[i].port); }
    }
    HintStaysLive(ss, ops, n);
  }

  /** The first `k` ports at the reserved boundary are reserved one by one. */
  ghost function ReserveMany(s: Ports, k: nat): Ports
    requires k <= WORD
  {
    if k == 0 then Init(s) else Reserve(ReserveMany(s, k - 1), RSVD + k - 1).0
  }

  lemma {:induction false} ReservedMany(s: Ports, k: nat)
    requires s.init && k <= WORD
    ensures var t := ReserveMany(s, k);
            && !t.init && t.firstFree == RSVD / WORD
            && forall p :: p in t.free <==> p in AllPorts() && !(RSVD <= p < RSVD + k)
  {
    if k > 0 { ReservedMany(s, k - 1); }
  }

  /** 64 reservations drain the hint's word, and a get then fails although the next port is free. */
  lemma DrainedHintFails(s: Ports, e: Ports, port: Port)
    requires s.init && Gets(ReserveMany(s, WORD), e, port)
    ensures port == 0 && RSVD + WORD in ReserveMany(s, WORD).free
  {
    ReservedMany(s, WORD);
    assert InWord(ReserveMany(s, WORD).free, RSVD / WORD) == {};
  }

  // ------------------------------------------------ counting

  /** The counters tell how many ports are free. */
  ghost predicate CountOk(s: Ports) {
    |s.free| + s.rsvd == PORTS - 1 + s.freed
  }

  lemma {:induction false} UsableBelow(n: nat) returns (s: set<nat>)
    ensures s == (set p: nat | p < n && IsUsable(p)) && |s| == if n == 0 then 0 else n - 1
  {
    if n == 0 {
      s := {};
    } else {
      var t := UsableBelow(n - 1);
      s := set p: nat | p < n && IsUsable(p);
      assert s == if n == 1 then t else t + {n - 1};
    }
  }

  lemma InitCountOk(s: Ports)
    requires s.init
    ensures CountOk(Init(s))
  {
    var all := UsableBelow(PORTS);
  }

  lemma ReserveCountOk(s: Ports, port: Port)
    requires !s.init && CountOk(s)
    ensures CountOk(Reserve(s, port).0)
  {
  }

  lemma GetCountOk(s: Ports, e: Ports, port: Port)
    requires !s.init && CountOk(s) && Gets(s, e, port)
    ensures CountOk(e)
  {
    if port != 0 { assert port in s.free; }
  }

  /** A release keeps the count exactly when it is of a port that is held, or of port 0. */
  lemma PutCountOkIffHeld(s: Ports, port: Port)
    requires CountOk(s)
    ensures CountOk(Put(s, port)) <==> port == 0 || port !in s.free
  {
    if port in s.free { assert s.free + {port} == s.free; }
  }
}
