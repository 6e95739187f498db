/**
 The cipher as the code runs it: rounds that fill one four-word buffer from another by
 table lookups while a key pointer advances.

 The rounds are written over any set of tables.  What a set of tables computes enters
 their contracts as a function of four bytes, and is only fixed in AesTheorems, where
 the tables are the ones of the program.
 */
module AesCipher {
  import opened Fips197
  import opened AesWords
  import opened AesLookup

  /** The sixteen tables of the program, and its macro `imix_col`. */
  datatype Tables = Tables(ft0: bv8 -> bv32, ft1: bv8 -> bv32, ft2: bv8 -> bv32, ft3: bv8 -> bv32,
                           fl0: bv8 -> bv32, fl1: bv8 -> bv32, fl2: bv8 -> bv32, fl3: bv8 -> bv32,
                           it0: bv8 -> bv32, it1: bv8 -> bv32, it2: bv8 -> bv32, it3: bv8 -> bv32,
                           il0: bv8 -> bv32, il1: bv8 -> bv32, il2: bv8 -> bv32, il3: bv8 -> bv32,
                           imix: bv32 -> bv32)

  /** A column computed from four bytes, one per row. */
  type Lookup = (bv8, bv8, bv8, bv8) -> Column

  /** The sum of one entry of each of four tables is the column `col` of their indices. */
  ghost predicate Computes(t0: bv8 -> bv32, t1: bv8 -> bv32, t2: bv8 -> bv32, t3: bv8 -> bv32, col: Lookup) {
    forall a, b, c, d :: Bytes(SumWords(t0(a), t1(b), t2(c), t3(d))) == col(a, b, c, d)
  }

  /** A substitution applied to each byte of a column. */
  function SubLookup(box: Substitution): Lookup {
    (a: bv8, b: bv8, c: bv8, d: bv8) => Column(box(a), box(b), box(c), box(d))
  }

  /** What the four kinds of table and `imix_col` compute: the last-round tables only substitute. */
  datatype Meaning = Meaning(enc: Lookup, box: Substitution, dec: Lookup, inv: Substitution, unmix: Column -> Column)

  ghost predicate Means(tab: Tables, m: Meaning) {
    && (forall x :: Bytes(tab.imix(x)) == m.unmix(Bytes(x)))
    && Computes(tab.ft0, tab.ft1, tab.ft2, tab.ft3, m.enc)
    && Computes(tab.fl0, tab.fl1, tab.fl2, tab.fl3, SubLookup(m.box))
    && Computes(tab.it0, tab.it1, tab.it2, tab.it3, m.dec)
    && Computes(tab.il0, tab.il1, tab.il2, tab.il3, SubLookup(m.inv))
  }

  /** Four words as a state. */
  function StateOf(k: seq<bv32>): State
    requires |k| == 4
  {
    State(Bytes(k[0]), Bytes(k[1]), Bytes(k[2]), Bytes(k[3]))
  }

  // ------------------------------------------------ one round

  /** A round that gathers each column along ShiftRows. */
  function ShiftRound(col: Lookup, s: State, k: State): State {
    State(AddColumn(col(s.c0.r0, s.c1.r1, s.c2.r2, s.c3.r3), k.c0),
          AddColumn(col(s.c1.r0, s.c2.r1, s.c3.r2, s.c0.r3), k.c1),
          AddColumn(col(s.c2.r0, s.c3.r1, s.c0.r2, s.c1.r3), k.c2),
          AddColumn(col(s.c3.r0, s.c0.r1, s.c1.r2, s.c2.r3), k.c3))
  }

  /** A round that gathers each column along InvShiftRows. */
  function UnshiftRound(col: Lookup, s: State, k: State): State {
    State(AddColumn(col(s.c0.r0, s.c3.r1, s.c2.r2, s.c1.r3), k.c0),
          AddColumn(col(s.c1.r0, s.c0.r1, s.c3.r2, s.c2.r3), k.c1),
          AddColumn(col(s.c2.r0, s.c1.r1, s.c0.r2, s.c3.r3), k.c2),
          AddColumn(col(s.c3.r0, s.c2.r1, s.c1.r2, s.c0.r3), k.c3))
  }

  /** The word that four lookups and a key word give. */
  function LookupWord(t0: bv8 -> bv32, t1: bv8 -> bv32, t2: bv8 -> bv32, t3: bv8 -> bv32,
                      x0: bv32, x1: bv32, x2: bv32, x3: bv32, k: bv32): bv32
  {
    Xor(SumWords(t0(Byte(x0, 0)), t1(Byte(x1, 1)), t2(Byte(x2, 2)), t3(Byte(x3, 3))), k)
  }

  lemma BytesOfLookup(t0: bv8 -> bv32, t1: bv8 -> bv32, t2: bv8 -> bv32, t3: bv8 -> bv32, col: Lookup,
                      x0: bv32, x1: bv32, x2: bv32, x3: bv32, k: bv32)
    requires Computes(t0, t1, t2, t3, col)
    ensures Bytes(LookupWord(t0, t1, t2, t3, x0, x1, x2, x3, k))
         == AddColumn(col(Byte(x0, 0), Byte(x1, 1), Byte(x2, 2), Byte(x3, 3)), Bytes(k))
  {
    BytesOfXor(SumWords(t0(Byte(x0, 0)), t1(Byte(x1, 1)), t2(Byte(x2, 2)), t3(Byte(x3, 3))), k);
  }

  /** Word `n` of a round that reads columns n, n + 1, n + 2, n + 3. */
  function ShiftWord(t0: bv8 -> bv32, t1: bv8 -> bv32, t2: bv8 -> bv32, t3: bv8 -> bv32,
                     b: seq<bv32>, k: seq<bv32>, n: nat): bv32
    requires |b| == |k| == 4 && n < 4
  {
    LookupWord(t0, t1, t2, t3, b[n], b[(n + 1) % 4], b[(n + 2) % 4], b[(n + 3) % 4], k[n])
  }

  lemma ShiftWordsAreRound(t0: bv8 -> bv32, t1: bv8 -> bv32, t2: bv8 -> bv32, t3: bv8 -> bv32, col: Lookup,
                           b: seq<bv32>, k: seq<bv32>, out: seq<bv32>)
    requires Computes(t0, t1, t2, t3, col)
    requires |b| == |k| == |out| == 4
    requires forall n :: 0 <= n < 4 ==> out[n] == ShiftWord(t0, t1, t2, t3, b, k, n)
    ensures StateOf(out) == ShiftRound(col, StateOf(b), StateOf(k))
  {
    BytesOfLookup(t0, t1, t2, t3, col, b[0], b[1], b[2], b[3], k[0]);
    BytesOfLookup(t0, t1, t2, t3, col, b[1], b[2], b[3], b[0], k[1]);
    BytesOfLookup(t0, t1, t2, t3, col, b[2], b[3], b[0], b[1], k[2]);
    BytesOfLookup(t0, t1, t2, t3, col, b[3], b[0], b[1], b[2], k[3]);
  }

  /** Word `n` of a round that reads columns n, n + 3, n + 2, n + 1. */
  function UnshiftWord(t0: bv8 -> bv32, t1: bv8 -> bv32, t2: bv8 -> bv32, t3: bv8 -> bv32,
                       b: seq<bv32>, k: seq<bv32>, n: nat): bv32
    requires |b| == |k| == 4 && n < 4
  {
    LookupWord(t0, t1, t2, t3, b[n], b[(n + 3) % 4], b[(n + 2) % 4], b[(n + 1) % 4], k[n])
  }

  lemma UnshiftWordsAreRound(t0: bv8 -> bv32, t1: bv8 -> bv32, t2: bv8 -> bv32, t3: bv8 -> bv32, col: Lookup,
                             b: seq<bv32>, k: seq<bv32>, out: seq<bv32>)
    requires Computes(t0, t1, t2, t3, col)
    requires |b| == |k| == |out| == 4
    requires forall n :: 0 <= n < 4 ==> out[n] == UnshiftWord(t0, t1, t2, t3, b, k, n)
    ensures StateOf(out) == UnshiftRound(col, StateOf(b), StateOf(k))
  {
    BytesOfLookup(t0, t1, t2, t3, col, b[0], b[3], b[2], b[1], k[0]);
    BytesOfLookup(t0, t1, t2, t3, col, b[1], b[0], b[3], b[2], k[1]);
    BytesOfLookup(t0, t1, t2, t3, col, b[2], b[1], b[0], b[3], k[2]);
    BytesOfLookup(t0, t1, t2, t3, col, b[3], b[2], b[1], b[0], k[3]);
  }

  method EncRound(tab: Tables, b0: array<bv32>, b1: array<bv32>, key: array<bv32>, kp: nat, ghost m: Meaning)
    returns (next: nat)
    requires Means(tab, m)
    requires b0.Length == 4 && b1.Length == 4 && b0 != b1 && b0 != key && kp + 4 <= key.Length
    modifies b0
    ensures next == kp + 4
    ensures StateOf(b0[..]) == ShiftRound(m.enc, StateOf(b1[..]), StateOf(key[kp..kp + 4]))
  {
    for n := 0 to 4
      invariant forall j :: 0 <= j < n ==> b0[j] == ShiftWord(tab.ft0, tab.ft1, tab.ft2, tab.ft3, b1[..],
                                                              key[kp..kp + 4], j)
    {
      b0[n] := LookupWord(tab.ft0, tab.ft1, tab.ft2, tab.ft3,
                          b1[n], b1[(n + 1) % 4], b1[(n + 2) % 4], b1[(n + 3) % 4], key[kp + n]);
    }
    next := kp + 4;
    ShiftWordsAreRound(tab.ft0, tab.ft1, tab.ft2, tab.ft3, m.enc, b1[..], key[kp..kp + 4], b0[..]);
  }

  method EnclRound(tab: Tables, b0: array<bv32>, b1: array<bv32>, key: array<bv32>, kp: nat, ghost m: Meaning)
    requires Means(tab, m)
    requires b0.Length == 4 && b1.Length == 4 && b0 != b1 && b0 != key && kp + 4 <= key.Length
    modifies b0
    ensures StateOf(b0[..]) == ShiftRound(SubLookup(m.box), StateOf(b1[..]), StateOf(key[kp..kp + 4]))
  {
    for n := 0 to 4
      invariant forall j :: 0 <= j < n ==> b0[j] == ShiftWord(tab.fl0, tab.fl1, tab.fl2, tab.fl3, b1[..],
                                                              key[kp..kp + 4], j)
    {
      b0[n] := LookupWord(tab.fl0, tab.fl1, tab.fl2, tab.fl3,
                          b1[n], b1[(n + 1) % 4], b1[(n + 2) % 4], b1[(n + 3) % 4], key[kp + n]);
    }
    ShiftWordsAreRound(tab.fl0, tab.fl1, tab.fl2, tab.fl3, SubLookup(m.box), b1[..], key[kp..kp + 4], b0[..]);
  }

  method DecRound(tab: Tables, b0: array<bv32>, b1: array<bv32>, key: array<bv32>, kp: nat, ghost m: Meaning)
    returns (next: nat)
    requires Means(tab, m)
    requires b0.Length == 4 && b1.Length == 4 && b0 != b1 && b0 != key && kp + 4 <= key.Length
    modifies b0
    ensures next == kp + 4
    ensures StateOf(b0[..]) == UnshiftRound(m.dec, StateOf(b1[..]), StateOf(key[kp..kp + 4]))
  {
    for n := 0 to 4
      invariant forall j :: 0 <= j < n ==> b0[j] == UnshiftWord(tab.it0, tab.it1, tab.it2, tab.it3, b1[..],
                                                                key[kp..kp + 4], j)
    {
      b0[n] := LookupWord(tab.it0, tab.it1, tab.it2, tab.it3,
                          b1[n], b1[(n + 3) % 4], b1[(n + 2) % 4], b1[(n + 1) % 4], key[kp + n]);
    }
    next := kp + 4;
    UnshiftWordsAreRound(tab.it0, tab.it1, tab.it2, tab.it3, m.dec, b1[..], key[kp..kp + 4], b0[..]);
  }

  method DeclRound(tab: Tables, b0: array<bv32>, b1: array<bv32>, key: array<bv32>, kp: nat, ghost m: Meaning)
    requires Means(tab, m)
    requires b0.Length == 4 && b1.Length == 4 && b0 != b1 && b0 != key && kp + 4 <= key.Length
    modifies b0
    ensures StateOf(b0[..]) == UnshiftRound(SubLookup(m.inv), StateOf(b1[..]), StateOf(key[kp..kp + 4]))
  {
    for n := 0 to 4
      invariant forall j :: 0 <= j < n ==> b0[j] == UnshiftWord(tab.il0, tab.il1, tab.il2, tab.il3, b1[..],
                                                                key[kp..kp + 4], j)
    {
      b0[n] := LookupWord(tab.il0, tab.il1, tab.il2, tab.il3,
                          b1[n], b1[(n + 3) % 4], b1[(n + 2) % 4], b1[(n + 1) % 4], key[kp + n]);
    }
    UnshiftWordsAreRound(tab.il0, tab.il1, tab.il2, tab.il3, SubLookup(m.inv), b1[..], key[kp..kp + 4], b0[..]);
  }

  // ------------------------------------------------ all rounds

  function ShiftStep(col: Lookup): (State, State) -> State {
    (s: State, k: State) => ShiftRound(col, s, k)
  }

  function UnshiftStep(col: Lookup): (State, State) -> State {
    (s: State, k: State) => UnshiftRound(col, s, k)
  }

  /** The number of rounds a context of this key length runs. */
  function RoundCount(keyLength: nat): nat {
    if keyLength > 24 then 14 else if keyLength > 16 then 12 else 10
  }

  /** The first `n` round keys of a schedule. */
  function RoundKeys(schedule: seq<bv32>, n: nat): (w: seq<State>)
    requires 4 * n <= |schedule|
    ensures |w| == n
    ensures forall r :: 0 <= r < n ==> w[r] == StateOf(schedule[4 * r..4 * r + 4])
  {
    seq(n, r requires 0 <= r < n => StateOf(schedule[4 * r..4 * r + 4]))
  }

  /** What encryption computes from round keys and a block, under what the tables mean. */
  function EncryptWith(m: Meaning, w: seq<State>, block: State): State
    requires |w| >= 2
  {
    ShiftRound(SubLookup(m.box), Iterate(ShiftStep(m.enc), w, AddRoundKey(block, w[0]), |w| - 2), w[|w| - 1])
  }

  /** What decryption computes. */
  function DecryptWith(m: Meaning, w: seq<State>, block: State): State
    requires |w| >= 2
  {
    UnshiftRound(SubLookup(m.inv), Iterate(UnshiftStep(m.dec), w, AddRoundKey(block, w[0]), |w| - 2), w[|w| - 1])
  }

  /** Round key `r` is the four words of the schedule that the key pointer points to. */
  lemma RoundKeyAt(schedule: seq<bv32>, w: seq<State>, r: nat)
    requires 4 * |w| <= |schedule| && r < |w| && w == RoundKeys(schedule, |w|)
    ensures w[r] == StateOf(schedule[4 * r..4 * r + 4])
  {
  }

  ghost predicate RunsAt(at: nat -> State, step: (State, State) -> State, w: seq<State>, start: State, r: nat) {
    r < |w| ==> at(r) == Iterate(step, w, start, r)
  }

  /** `at(r)` is the state after `r` steps. */
  ghost predicate Runs(at: nat -> State, step: (State, State) -> State, w: seq<State>, start: State) {
    forall r :: RunsAt(at, step, w, start, r)
  }

  /** Buffers and key pointer before step `r + 1`. */
  ghost predicate Ready(b0: array<bv32>, b1: array<bv32>, key: array<bv32>, kp: nat, w: seq<State>, at: nat -> State,
                        r: nat)
    reads b0, key
  {
    && b0.Length == 4 && b1.Length == 4 && b0 != b1 && b0 != key && b1 != key
    && 4 * |w| <= key.Length && w == RoundKeys(key[..], |w|)
    && kp == 4 * r + 4
    && StateOf(b0[..]) == at(r)
  }

  /** One round from buffer `b0` into buffer `b1` takes the state one step on. */
  method EncStep(tab: Tables, b0: array<bv32>, b1: array<bv32>, key: array<bv32>, kp: nat, ghost m: Meaning,
                 ghost w: seq<State>, ghost start: State, ghost at: nat -> State, ghost r: nat)
    returns (next: nat)
    requires Means(tab, m) && Runs(at, ShiftStep(m.enc), w, start)
    requires Ready(b0, b1, key, kp, w, at, r) && r + 1 < |w|
    modifies b1
    ensures Ready(b1, b0, key, next, w, at, r + 1)
  {
    assert RunsAt(at, ShiftStep(m.enc), w, start, r) && RunsAt(at, ShiftStep(m.enc), w, start, r + 1);
    RoundKeyAt(key[..], w, r + 1);
    assert key[..][4 * (r + 1)..4 * (r + 1) + 4] == key[kp..kp + 4];
    next := EncRound(tab, b1, b0, key, kp, m);
  }

  /** The two rounds the code runs together: buffer 1 from buffer 0, and back. */
  method EncTwoRounds(tab: Tables, b0: array<bv32>, b1: array<bv32>, key: array<bv32>, kp: nat, ghost m: Meaning,
                      ghost w: seq<State>, ghost start: State, ghost at: nat -> State, ghost r: nat)
    returns (next: nat)
    requires Means(tab, m) && Runs(at, ShiftStep(m.enc), w, start)
    requires Ready(b0, b1, key, kp, w, at, r) && r + 2 < |w|
    modifies b0, b1
    ensures Ready(b0, b1, key, next, w, at, r + 2)
  {
    next := EncStep(tab, b0, b1, key, kp, m, w, start, at, r);
    next := EncStep(tab, b1, b0, key, next, m, w, start, at, r + 1);
  }

  /** The last full round and the last round. */
  method EncLastTwo(tab: Tables, b0: array<bv32>, b1: array<bv32>, key: array<bv32>, kp: nat, ghost m: Meaning,
                    ghost w: seq<State>, ghost start: State, ghost at: nat -> State, ghost r: nat)
    requires Means(tab, m) && Runs(at, ShiftStep(m.enc), w, start)
    requires Ready(b0, b1, key, kp, w, at, r) && r + 3 == |w|
    modifies b0, b1
    ensures StateOf(b0[..]) == ShiftRound(SubLookup(m.box), at(r + 1), w[r + 2])
  {
    var next := EncStep(tab, b0, b1, key, kp, m, w, start, at, r);
    RoundKeyAt(key[..], w, r + 2);
    assert key[..][4 * (r + 2)..4 * (r + 2) + 4] == key[next..next + 4];
    EnclRound(tab, b0, b1, key, next, m);
  }

  /** The rounds of a context of this key length, unrolled. */
  method EncRounds(tab: Tables, b0: array<bv32>, b1: array<bv32>, key: array<bv32>, keyLength: nat, ghost m: Meaning,
                   ghost w: seq<State>, ghost start: State, ghost at: nat -> State)
    requires Means(tab, m) && Runs(at, ShiftStep(m.enc), w, start)
    requires Ready(b0, b1, key, 4, w, at, 0) && |w| == RoundCount(keyLength) + 1
    modifies b0, b1
    ensures StateOf(b0[..]) == ShiftRound(SubLookup(m.box), at(|w| - 2), w[|w| - 1])
  {
    var kp := 4;
    ghost var r := 0;
    if keyLength > 24 {
      kp := EncTwoRounds(tab, b0, b1, key, kp, m, w, start, at, r);
      r := 2;
    }
    if keyLength > 16 {
      kp := EncTwoRounds(tab, b0, b1, key, kp, m, w, start, at, r);
      r := r + 2;
    }
    kp := EncTwoRounds(tab, b0, b1, key, kp, m, w, start, at, r);
    kp := EncTwoRounds(tab, b0, b1, key, kp, m, w, start, at, r + 2);
    kp := EncTwoRounds(tab, b0, b1, key, kp, m, w, start, at, r + 4);
    kp := EncTwoRounds(tab, b0, b1, key, kp, m, w, start, at, r + 6);
    EncLastTwo(tab, b0, b1, key, kp, m, w, start, at, r + 8);
  }

  /** One round from buffer `b0` into buffer `b1` takes the state one step on. */
  method DecStep(tab: Tables, b0: array<bv32>, b1: array<bv32>, key: array<bv32>, kp: nat, ghost m: Meaning,
                 ghost w: seq<State>, ghost start: State, ghost at: nat -> State, ghost r: nat)
    returns (next: nat)
    requires Means(tab, m) && Runs(at, UnshiftStep(m.dec), w, start)
    requires Ready(b0, b1, key, kp, w, at, r) && r + 1 < |w|
    modifies b1
    ensures Ready(b1, b0, key, next, w, at, r + 1)
  {
    assert RunsAt(at, UnshiftStep(m.dec), w, start, r) && RunsAt(at, UnshiftStep(m.dec), w, start, r + 1);
    RoundKeyAt(key[..], w, r + 1);
    assert key[..][4 * (r + 1)..4 * (r + 1) + 4] == key[kp..kp + 4];
    next := DecRound(tab, b1, b0, key, kp, m);
  }

  /** The two rounds the code runs together: buffer 1 from buffer 0, and back. */
  method DecTwoRounds(tab: Tables, b0: array<bv32>, b1: array<bv32>, key: array<bv32>, kp: nat, ghost m: Meaning,
                      ghost w: seq<State>, ghost start: State, ghost at: nat -> State, ghost r: nat)
    returns (next: nat)
    requires Means(tab, m) && Runs(at, UnshiftStep(m.dec), w, start)
    requires Ready(b0, b1, key, kp, w, at, r) && r + 2 < |w|
    modifies b0, b1
    ensures Ready(b0, b1, key, next, w, at, r + 2)
  {
    next := DecStep(tab, b0, b1, key, kp, m, w, start, at, r);
    next := DecStep(tab, b1, b0, key, next, m, w, start, at, r + 1);
  }

  /** The last full round and the last round. */
  method DecLastTwo(tab: Tables, b0: array<bv32>, b1: array<bv32>, key: array<bv32>, kp: nat, ghost m: Meaning,
                    ghost w: seq<State>, ghost start: State, ghost at: nat -> State, ghost r: nat)
    requires Means(tab, m) && Runs(at, UnshiftStep(m.dec), w, start)
    requires Ready(b0, b1, key, kp, w, at, r) && r + 3 == |w|
    modifies b0, b1
    ensures StateOf(b0[..]) == UnshiftRound(SubLookup(m.inv), at(r + 1), w[r + 2])
  {
    var next := DecStep(tab, b0, b1, key, kp, m, w, start, at, r);
    RoundKeyAt(key[..], w, r + 2);
    assert key[..][4 * (r + 2)..4 * (r + 2) + 4] == key[next..next + 4];
    DeclRound(tab, b0, b1, key, next, m);
  }

  /** The rounds of a context of this key length, unrolled. */
  method DecRounds(tab: Tables, b0: array<bv32>, b1: array<bv32>, key: array<bv32>, keyLength: nat, ghost m: Meaning,
                   ghost w: seq<State>, ghost start: State, ghost at: nat -> State)
    requires Means(tab, m) && Runs(at, UnshiftStep(m.dec), w, start)
    requires Ready(b0, b1, key, 4, w, at, 0) && |w| == RoundCount(keyLength) + 1
    modifies b0, b1
    ensures StateOf(b0[..]) == UnshiftRound(SubLookup(m.inv), at(|w| - 2), w[|w| - 1])
  {
    var kp := 4;
    ghost var r := 0;
    if keyLength > 24 {
      kp := DecTwoRounds(tab, b0, b1, key, kp, m, w, start, at, r);
      r := 2;
    }
    if keyLength > 16 {
      kp := DecTwoRounds(tab, b0, b1, key, kp, m, w, start, at, r);
      r := r + 2;
    }
    kp := DecTwoRounds(tab, b0, b1, key, kp, m, w, start, at, r);
    kp := DecTwoRounds(tab, b0, b1, key, kp, m, w, start, at, r + 2);
    kp := DecTwoRounds(tab, b0, b1, key, kp, m, w, start, at, r + 4);
    kp := DecTwoRounds(tab, b0, b1, key, kp, m, w, start, at, r + 6);
    DecLastTwo(tab, b0, b1, key, kp, m, w, start, at, r + 8);
  }
}
