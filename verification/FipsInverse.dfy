/**
 The equivalent inverse cipher undoes the cipher (section 5.3.5 of FIPS 197).

 The argument is linear algebra over GF(2^8): InvMixColumns is additive and undoes
 MixColumns, so every inverse round peels exactly one round off the state.
 */
module FipsInverse {
  import opened Fips197

  // ------------------------------------------------ addition

  lemma AddAssociates(a: bv8, b: bv8, c: bv8)
    ensures Add(Add(a, b), c) == Add(a, Add(b, c))
  {
  }

  lemma AddCommutes(a: bv8, b: bv8)
    ensures Add(a, b) == Add(b, a)
  {
  }

  lemma Regroup(a: bv8, b: bv8, c: bv8, d: bv8)
    ensures Add(Add(a, b), Add(c, d)) == Add(Add(a, c), Add(b, d))
  {
    AddAssociates(a, b, Add(c, d));
    AddAssociates(b, c, d);
    AddCommutes(b, c);
    AddAssociates(c, b, d);
    AddAssociates(a, c, Add(b, d));
  }

  /** Adding the same key twice changes nothing. */
  lemma AddCancels(a: bv8, k: bv8)
    ensures Add(Add(a, k), k) == a
  {
  }

  lemma AddRoundKeyCancels(s: State, k: State)
    ensures AddRoundKey(AddRoundKey(s, k), k) == s
  {
    AddColumnCancels(s.c0, k.c0);
    AddColumnCancels(s.c1, k.c1);
    AddColumnCancels(s.c2, k.c2);
    AddColumnCancels(s.c3, k.c3);
  }

  lemma AddColumnCancels(c: Column, k: Column)
    ensures AddColumn(AddColumn(c, k), k) == c
  {
    AddCancels(c.r0, k.r0);
    AddCancels(c.r1, k.r1);
    AddCancels(c.r2, k.r2);
    AddCancels(c.r3, k.r3);
  }

  // ------------------------------------------------ multiplication is additive

  lemma XtimeAdd(x: bv8, y: bv8)
    ensures Xtime(Add(x, y)) == Add(Xtime(x), Xtime(y))
  {
  }

  lemma Times4Add(x: bv8, y: bv8)
    ensures Times4(Add(x, y)) == Add(Times4(x), Times4(y))
  {
    XtimeAdd(x, y);
    XtimeAdd(Xtime(x), Xtime(y));
  }

  lemma Times8Add(x: bv8, y: bv8)
    ensures Times8(Add(x, y)) == Add(Times8(x), Times8(y))
  {
    Times4Add(x, y);
    XtimeAdd(Times4(x), Times4(y));
  }

  lemma Times3Add(x: bv8, y: bv8)
    ensures Times3(Add(x, y)) == Add(Times3(x), Times3(y))
  {
    XtimeAdd(x, y);
    Regroup(Xtime(x), Xtime(y), x, y);
  }

  lemma Times9Add(x: bv8, y: bv8)
    ensures Times9(Add(x, y)) == Add(Times9(x), Times9(y))
  {
    Times8Add(x, y);
    Regroup(Times8(x), Times8(y), x, y);
  }

  lemma Times11Add(x: bv8, y: bv8)
    ensures Times11(Add(x, y)) == Add(Times11(x), Times11(y))
  {
    Times8Add(x, y);
    Times3Add(x, y);
    Regroup(Times8(x), Times8(y), Times3(x), Times3(y));
  }

  lemma Times13Add(x: bv8, y: bv8)
    ensures Times13(Add(x, y)) == Add(Times13(x), Times13(y))
  {
    Times8Add(x, y);
    Times4Add(x, y);
    Regroup(Times4(x), Times4(y), x, y);
    Regroup(Times8(x), Times8(y), Add(Times4(x), x), Add(Times4(y), y));
  }

  lemma Times14Add(x: bv8, y: bv8)
    ensures Times14(Add(x, y)) == Add(Times14(x), Times14(y))
  {
    Times8Add(x, y);
    Times4Add(x, y);
    XtimeAdd(x, y);
    Regroup(Times4(x), Times4(y), Xtime(x), Xtime(y));
    Regroup(Times8(x), Times8(y), Add(Times4(x), Xtime(x)), Add(Times4(y), Xtime(y)));
  }

  // ------------------------------------------------ the mixing steps are additive

  lemma MixRowAdd(a: bv8, b: bv8, c: bv8, d: bv8, p: bv8, q: bv8, r: bv8, s: bv8)
    ensures MixRow(Add(a, p), Add(b, q), Add(c, r), Add(d, s)) == Add(MixRow(a, b, c, d), MixRow(p, q, r, s))
  {
    XtimeAdd(a, p);
    Times3Add(b, q);
    Regroup(Xtime(a), Xtime(p), Times3(b), Times3(q));
    Regroup(c, r, d, s);
    Regroup(Add(Xtime(a), Times3(b)), Add(Xtime(p), Times3(q)), Add(c, d), Add(r, s));
  }

  lemma InvMixRowAdd(a: bv8, b: bv8, c: bv8, d: bv8, p: bv8, q: bv8, r: bv8, s: bv8)
    ensures InvMixRow(Add(a, p), Add(b, q), Add(c, r), Add(d, s))
         == Add(InvMixRow(a, b, c, d), InvMixRow(p, q, r, s))
  {
    Times14Add(a, p);
    Times11Add(b, q);
    Times13Add(c, r);
    Times9Add(d, s);
    Regroup(Times14(a), Times14(p), Times11(b), Times11(q));
    Regroup(Times13(c), Times13(r), Times9(d), Times9(s));
    Regroup(Add(Times14(a), Times11(b)), Add(Times14(p), Times11(q)),
            Add(Times13(c), Times9(d)), Add(Times13(r), Times9(s)));
  }

  lemma MixColumnAdd(c: Column, d: Column)
    ensures MixColumn(AddColumn(c, d)) == AddColumn(MixColumn(c), MixColumn(d))
  {
    MixRowAdd(c.r0, c.r1, c.r2, c.r3, d.r0, d.r1, d.r2, d.r3);
    MixRowAdd(c.r1, c.r2, c.r3, c.r0, d.r1, d.r2, d.r3, d.r0);
    MixRowAdd(c.r2, c.r3, c.r0, c.r1, d.r2, d.r3, d.r0, d.r1);
    MixRowAdd(c.r3, c.r0, c.r1, c.r2, d.r3, d.r0, d.r1, d.r2);
  }

  lemma InvMixColumnAdd(c: Column, d: Column)
    ensures InvMixColumn(AddColumn(c, d)) == AddColumn(InvMixColumn(c), InvMixColumn(d))
  {
    InvMixRowAdd(c.r0, c.r1, c.r2, c.r3, d.r0, d.r1, d.r2, d.r3);
    InvMixRowAdd(c.r1, c.r2, c.r3, c.r0, d.r1, d.r2, d.r3, d.r0);
    InvMixRowAdd(c.r2, c.r3, c.r0, c.r1, d.r2, d.r3, d.r0, d.r1);
    InvMixRowAdd(c.r3, c.r0, c.r1, c.r2, d.r3, d.r0, d.r1, d.r2);
  }

  // ------------------------------------------------ InvMixColumns undoes MixColumns

  /** Product of the two matrices on a byte of the diagonal ... */
  lemma InvMixRowDiagonal(x: bv8)
    ensures InvMixRow(MixRow(x, 0, 0, 0), MixRow(0, 0, 0, x), MixRow(0, 0, x, 0), MixRow(0, x, 0, 0)) == x
  {
  }

  /** ... and on each byte off the diagonal. */
  lemma InvMixRowFirst(x: bv8)
    ensures InvMixRow(MixRow(0, x, 0, 0), MixRow(x, 0, 0, 0), MixRow(0, 0, 0, x), MixRow(0, 0, x, 0)) == 0
  {
  }

  lemma InvMixRowSecond(x: bv8)
    ensures InvMixRow(MixRow(0, 0, x, 0), MixRow(0, x, 0, 0), MixRow(x, 0, 0, 0), MixRow(0, 0, 0, x)) == 0
  {
  }

  lemma InvMixRowThird(x: bv8)
    ensures InvMixRow(MixRow(0, 0, 0, x), MixRow(0, 0, x, 0), MixRow(0, x, 0, 0), MixRow(x, 0, 0, 0)) == 0
  {
  }

  lemma InvMixOfMixUnit0(x: bv8)
    ensures InvMixColumn(MixColumn(Column(x, 0, 0, 0))) == Column(x, 0, 0, 0)
  {
    InvMixRowDiagonal(x);
    InvMixRowFirst(x);
    InvMixRowSecond(x);
    InvMixRowThird(x);
  }

  lemma InvMixOfMixUnit1(x: bv8)
    ensures InvMixColumn(MixColumn(Column(0, x, 0, 0))) == Column(0, x, 0, 0)
  {
    InvMixRowDiagonal(x);
    InvMixRowFirst(x);
    InvMixRowSecond(x);
    InvMixRowThird(x);
  }

  lemma InvMixOfMixUnit2(x: bv8)
    ensures InvMixColumn(MixColumn(Column(0, 0, x, 0))) == Column(0, 0, x, 0)
  {
    InvMixRowDiagonal(x);
    InvMixRowFirst(x);
    InvMixRowSecond(x);
    InvMixRowThird(x);
  }

  lemma InvMixOfMixUnit3(x: bv8)
    ensures InvMixColumn(MixColumn(Column(0, 0, 0, x))) == Column(0, 0, 0, x)
  {
    InvMixRowDiagonal(x);
    InvMixRowFirst(x);
    InvMixRowSecond(x);
    InvMixRowThird(x);
  }

  lemma SumOfUnits(c: Column)
    ensures c == AddColumn(AddColumn(Column(c.r0, 0, 0, 0), Column(0, c.r1, 0, 0)),
                           AddColumn(Column(0, 0, c.r2, 0), Column(0, 0, 0, c.r3)))
  {
  }

  lemma InvMixOfMixAdd(c: Column, d: Column)
    requires InvMixColumn(MixColumn(c)) == c && InvMixColumn(MixColumn(d)) == d
    ensures InvMixColumn(MixColumn(AddColumn(c, d))) == AddColumn(c, d)
  {
    MixColumnAdd(c, d);
    InvMixColumnAdd(MixColumn(c), MixColumn(d));
  }

  /** A column is the sum of its four bytes, and each of those is restored. */
  lemma InvMixColumnOfMixColumn(c: Column)
    ensures InvMixColumn(MixColumn(c)) == c
  {
    var u0, u1 := Column(c.r0, 0, 0, 0), Column(0, c.r1, 0, 0);
    var u2, u3 := Column(0, 0, c.r2, 0), Column(0, 0, 0, c.r3);
    SumOfUnits(c);
    InvMixOfMixUnit0(c.r0);
    InvMixOfMixUnit1(c.r1);
    InvMixOfMixUnit2(c.r2);
    InvMixOfMixUnit3(c.r3);
    InvMixOfMixAdd(u0, u1);
    InvMixOfMixAdd(u2, u3);
    InvMixOfMixAdd(AddColumn(u0, u1), AddColumn(u2, u3));
  }

  lemma InvMixColumnsOfMixColumns(s: State)
    ensures InvMixColumns(MixColumns(s)) == s
  {
    InvMixColumnOfMixColumn(s.c0);
    InvMixColumnOfMixColumn(s.c1);
    InvMixColumnOfMixColumn(s.c2);
    InvMixColumnOfMixColumn(s.c3);
  }

  lemma InvMixColumnsAdd(s: State, k: State)
    ensures InvMixColumns(AddRoundKey(s, k)) == AddRoundKey(InvMixColumns(s), InvMixColumns(k))
  {
    InvMixColumnAdd(s.c0, k.c0);
    InvMixColumnAdd(s.c1, k.c1);
    InvMixColumnAdd(s.c2, k.c2);
    InvMixColumnAdd(s.c3, k.c3);
  }

  // ------------------------------------------------ InvShiftRows and InvSubBytes

  /** `inv` undoes `box` on every byte. */
  ghost predicate Undoes(inv: Substitution, box: Substitution) {
    forall x :: inv(box(x)) == x
  }

  /** Substitution acts byte by byte, so it commutes with moving bytes. */
  lemma UnshiftUnsub(box: Substitution, inv: Substitution, s: State)
    requires Undoes(inv, box)
    ensures InvShiftRows(SubBytes(inv, ShiftRows(SubBytes(box, s)))) == s
  {
  }

  // ------------------------------------------------ one round, then all of them

  /** An inverse round, with the inverse-mixed key, peels off one round. */
  lemma InvRoundPeels(box: Substitution, inv: Substitution, s: State, k: State)
    requires Undoes(inv, box)
    ensures InvRound(inv, ShiftRows(SubBytes(box, Round(box, s, k))), InvMixColumns(k)) == ShiftRows(SubBytes(box, s))
  {
    var shifted := ShiftRows(SubBytes(box, s));
    UnshiftUnsub(box, inv, Round(box, s, k));
    InvMixColumnsAdd(MixColumns(shifted), k);
    InvMixColumnsOfMixColumns(shifted);
    AddRoundKeyCancels(shifted, InvMixColumns(k));
  }

  /** The initial AddRoundKey of the inverse cipher peels off the last key. */
  lemma LastRoundPeels(box: Substitution, s: State, k: State)
    ensures AddRoundKey(LastRound(box, s, k), k) == ShiftRows(SubBytes(box, s))
  {
    AddRoundKeyCancels(ShiftRows(SubBytes(box, s)), k);
  }

  /** If one `back` step undoes one `forth` step up to `half`, then `r` of them undo `r`. */
  lemma {:induction false} IterateBack<S(!new), K(!new)>(forth: (S, K) -> S, back: (S, K) -> S,
                                                         half: S -> S, mix: K -> K,
                                                         w: seq<K>, dw: seq<K>, start: S, r: nat, n: nat)
    requires forall s, k :: back(half(forth(s, k)), mix(k)) == half(s)
    requires r + n == |w| - 2 && |dw| == |w|
    requires forall i :: 0 < i < |w| - 1 ==> dw[i] == mix(w[|w| - 1 - i])
    ensures Iterate(back, dw, half(Iterate(forth, w, start, |w| - 2)), r) == half(Iterate(forth, w, start, n))
    decreases r
  {
    if r > 0 {
      IterateBack(forth, back, half, mix, w, dw, start, r - 1, n + 1);
      assert dw[r] == mix(w[n + 1]);
    }
  }

  /** What the cipher leaves of a state in its last round, before the key. */
  function Half(box: Substitution): State -> State {
    (s: State) => ShiftRows(SubBytes(box, s))
  }

  lemma InvStepPeels(box: Substitution, inv: Substitution)
    requires Undoes(inv, box)
    ensures forall s, k :: InvRoundStep(inv)(Half(box)(RoundStep(box)(s, k)), InvMixColumns(k)) == Half(box)(s)
  {
    forall s, k ensures InvRoundStep(inv)(Half(box)(RoundStep(box)(s, k)), InvMixColumns(k)) == Half(box)(s) {
      InvRoundPeels(box, inv, s, k);
    }
  }

  /** All inverse rounds lead from the end of the rounds back to their start. */
  lemma AllRoundsPeel(box: Substitution, inv: Substitution, w: seq<State>, start: State)
    requires Undoes(inv, box) && |w| >= 2
    ensures Iterate(InvRoundStep(inv), InvKeys(InvMixColumns, w),
                    Half(box)(Iterate(RoundStep(box), w, start, |w| - 2)), |w| - 2)
         == Half(box)(start)
  {
    InvStepPeels(box, inv);
    IterateBack(RoundStep(box), InvRoundStep(inv), Half(box), InvMixColumns, w, InvKeys(InvMixColumns, w), start,
                |w| - 2, 0);
  }

  lemma InvLastRoundPeels(box: Substitution, inv: Substitution, block: State, k: State)
    requires Undoes(inv, box)
    ensures InvLastRound(inv, Half(box)(AddRoundKey(block, k)), k) == block
  {
    UnshiftUnsub(box, inv, AddRoundKey(block, k));
    AddRoundKeyCancels(block, k);
  }

  /** The equivalent inverse cipher undoes the cipher, for all round keys and every block. */
  lemma EqInvCipherOfCipher(box: Substitution, inv: Substitution, w: seq<State>, block: State)
    requires Undoes(inv, box) && |w| >= 2
    ensures EqInvCipher(inv, InvKeys(InvMixColumns, w), Cipher(box, w, block)) == block
  {
    var start := AddRoundKey(block, w[0]);
    AllRoundsPeel(box, inv, w, start);
    LastRoundPeels(box, Iterate(RoundStep(box), w, start, |w| - 2), w[|w| - 1]);
    InvLastRoundPeels(box, inv, block, w[0]);
  }

  /** The S-boxes of the standard undo each other. */
  lemma SBoxesUndo()
    ensures Undoes(InvSBox, SBox)
  {
    forall x ensures InvSBox(SBox(x)) == x {
      InvSBoxOfSBox(x);
    }
  }
}
