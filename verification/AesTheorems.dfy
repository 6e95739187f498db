/**
 The program's tables in the program's rounds: encryption is the Cipher of FIPS 197 for
 the key with each four-byte group reversed, and decryption undoes it.
 */
module AesTheorems {
  import opened Fips197
  import opened AesTables
  import opened AesWords
  import opened AesLookup
  import opened AesCipher
  import opened AesSchedule
  import opened AesContext

  // ------------------------------------------------ what the program's tables mean

  /** imix_col as a function of its argument. */
  function ImixWord(x: bv32): bv32 {
    var u := StarX(x);
    var v := StarX(u);
    var w := StarX(v);
    ImixSum(x, u, v, w)
  }

  function Program(): Tables {
    Tables(FtTab0, FtTab1, FtTab2, FtTab3, FlTab0, FlTab1, FlTab2, FlTab3,
           ItTab0, ItTab1, ItTab2, ItTab3, IlTab0, IlTab1, IlTab2, IlTab3, ImixWord)
  }

  function EncColumn(box: Substitution): Lookup {
    (a: bv8, b: bv8, c: bv8, d: bv8) => MixColumn(Column(box(a), box(b), box(c), box(d)))
  }

  function DecColumn(inv: Substitution): Lookup {
    (a: bv8, b: bv8, c: bv8, d: bv8) => InvMixColumn(Column(inv(a), inv(b), inv(c), inv(d)))
  }

  /** The meaning tables have in FIPS 197, for an S-box and its inverse. */
  function Standard(box: Substitution, inv: Substitution): Meaning {
    Meaning(EncColumn(box), box, DecColumn(inv), inv, InvMixColumn)
  }

  lemma ForwardTables()
    ensures Computes(FtTab0, FtTab1, FtTab2, FtTab3, EncColumn(SBox))
  {
    hide FtTab0, FtTab1, FtTab2, FtTab3, SBox;
    forall a, b, c, d
      ensures Bytes(SumWords(FtTab0(a), FtTab1(b), FtTab2(c), FtTab3(d))) == EncColumn(SBox)(a, b, c, d)
    {
      ForwardLookup(a, b, c, d);
    }
  }

  lemma LastTables()
    ensures Computes(FlTab0, FlTab1, FlTab2, FlTab3, SubLookup(SBox))
  {
    hide FlTab0, FlTab1, FlTab2, FlTab3, SBox;
    forall a, b, c, d
      ensures Bytes(SumWords(FlTab0(a), FlTab1(b), FlTab2(c), FlTab3(d))) == SubLookup(SBox)(a, b, c, d)
    {
      LastLookup(a, b, c, d);
    }
  }

  lemma InverseTables()
    ensures Computes(ItTab0, ItTab1, ItTab2, ItTab3, DecColumn(InvSBox))
  {
    hide ItTab0, ItTab1, ItTab2, ItTab3, InvSBox;
    forall a, b, c, d
      ensures Bytes(SumWords(ItTab0(a), ItTab1(b), ItTab2(c), ItTab3(d))) == DecColumn(InvSBox)(a, b, c, d)
    {
      InverseLookup(a, b, c, d);
    }
  }

  lemma InverseLastTables()
    ensures Computes(IlTab0, IlTab1, IlTab2, IlTab3, SubLookup(InvSBox))
  {
    hide IlTab0, IlTab1, IlTab2, IlTab3, InvSBox;
    forall a, b, c, d
      ensures Bytes(SumWords(IlTab0(a), IlTab1(b), IlTab2(c), IlTab3(d))) == SubLookup(InvSBox)(a, b, c, d)
    {
      InverseLastLookup(a, b, c, d);
    }
  }

  lemma ImixWordUnmixes(x: bv32)
    ensures Bytes(ImixWord(x)) == InvMixColumn(Bytes(x))
  {
    ImixSumIsInvMixColumn(x, StarX(x), StarX(StarX(x)), StarX(StarX(StarX(x))));
  }

  /** In terms of the field: imix_col multiplies by the matrix of section 5.3.3. */
  lemma ImixWordIsMatrix(x: bv32)
    ensures var c, d := Bytes(x), Bytes(ImixWord(x));
            && d.r0 == Product(14, 11, 13, 9, c.r0, c.r1, c.r2, c.r3)
            && d.r1 == Product(14, 11, 13, 9, c.r1, c.r2, c.r3, c.r0)
            && d.r2 == Product(14, 11, 13, 9, c.r2, c.r3, c.r0, c.r1)
            && d.r3 == Product(14, 11, 13, 9, c.r3, c.r0, c.r1, c.r2)
  {
    var c := Bytes(x);
    hide Bytes, ImixWord, Product, InvMixRow;
    ImixWordUnmixes(x);
    InvMixRowIsMatrix(c.r0, c.r1, c.r2, c.r3);
    InvMixRowIsMatrix(c.r1, c.r2, c.r3, c.r0);
    InvMixRowIsMatrix(c.r2, c.r3, c.r0, c.r1);
    InvMixRowIsMatrix(c.r3, c.r0, c.r1, c.r2);
  }

  /** And four lookups multiply substituted bytes by the matrix of section 5.1.3. */
  lemma ForwardLookupIsMatrix(a: bv8, b: bv8, c: bv8, d: bv8)
    ensures var w := Bytes(SumWords(FtTab0(a), FtTab1(b), FtTab2(c), FtTab3(d)));
            && w.r0 == Product(2, 3, 1, 1, SBox(a), SBox(b), SBox(c), SBox(d))
            && w.r1 == Product(2, 3, 1, 1, SBox(b), SBox(c), SBox(d), SBox(a))
            && w.r2 == Product(2, 3, 1, 1, SBox(c), SBox(d), SBox(a), SBox(b))
            && w.r3 == Product(2, 3, 1, 1, SBox(d), SBox(a), SBox(b), SBox(c))
  {
    hide FtTab0, FtTab1, FtTab2, FtTab3, SBox, Bytes, SumWords, Product, MixRow;
    ForwardLookup(a, b, c, d);
    MixRowIsMatrix(SBox(a), SBox(b), SBox(c), SBox(d));
    MixRowIsMatrix(SBox(b), SBox(c), SBox(d), SBox(a));
    MixRowIsMatrix(SBox(c), SBox(d), SBox(a), SBox(b));
    MixRowIsMatrix(SBox(d), SBox(a), SBox(b), SBox(c));
  }

  /** Every one of the program's tables holds what FIPS 197 says, at every index. */
  lemma ProgramMeansStandard()
    ensures Means(Program(), Standard(SBox, InvSBox))
  {
    hide FtTab0, FtTab1, FtTab2, FtTab3, FlTab0, FlTab1, FlTab2, FlTab3, ItTab0, ItTab1, ItTab2, ItTab3,
         IlTab0, IlTab1, IlTab2, IlTab3, SBox, InvSBox;
    ForwardTables();
    LastTables();
    InverseTables();
    InverseLastTables();
    forall x ensures Bytes(Program().imix(x)) == InvMixColumn(Bytes(x)) {
      ImixWordUnmixes(x);
    }
  }

  // ------------------------------------------------ rounds

  lemma ShiftRoundIsRound(box: Substitution, s: State, k: State)
    ensures ShiftRound(EncColumn(box), s, k) == Round(box, s, k)
    ensures ShiftRound(SubLookup(box), s, k) == LastRound(box, s, k)
  {
  }

  lemma UnshiftRoundIsInvRound(inv: Substitution, s: State, k: State)
    ensures UnshiftRound(DecColumn(inv), s, k) == InvRound(inv, s, k)
    ensures UnshiftRound(SubLookup(inv), s, k) == InvLastRound(inv, s, k)
  {
  }

  lemma {:induction false} IterateSame<S(!new), K(!new)>(f: (S, K) -> S, g: (S, K) -> S, w: seq<K>, start: S, r: nat)
    requires forall s, k :: f(s, k) == g(s, k)
    requires r < |w|
    ensures Iterate(f, w, start, r) == Iterate(g, w, start, r)
  {
    if r > 0 {
      IterateSame(f, g, w, start, r - 1);
    }
  }

  lemma EncStepsSame(box: Substitution)
    ensures forall s, k :: ShiftStep(EncColumn(box))(s, k) == RoundStep(box)(s, k)
  {
    forall s, k ensures ShiftStep(EncColumn(box))(s, k) == RoundStep(box)(s, k) {
      ShiftRoundIsRound(box, s, k);
    }
  }

  lemma EncRoundsSame(box: Substitution, w: seq<State>, start: State, r: nat)
    requires r < |w|
    ensures Iterate(ShiftStep(EncColumn(box)), w, start, r) == Iterate(RoundStep(box), w, start, r)
  {
    EncStepsSame(box);
    IterateSame(ShiftStep(EncColumn(box)), RoundStep(box), w, start, r);
  }

  lemma DecStepsSame(inv: Substitution)
    ensures forall s, k :: UnshiftStep(DecColumn(inv))(s, k) == InvRoundStep(inv)(s, k)
  {
    forall s, k ensures UnshiftStep(DecColumn(inv))(s, k) == InvRoundStep(inv)(s, k) {
      UnshiftRoundIsInvRound(inv, s, k);
    }
  }

  lemma DecRoundsSame(inv: Substitution, w: seq<State>, start: State, r: nat)
    requires r < |w|
    ensures Iterate(UnshiftStep(DecColumn(inv)), w, start, r) == Iterate(InvRoundStep(inv), w, start, r)
  {
    DecStepsSame(inv);
    IterateSame(UnshiftStep(DecColumn(inv)), InvRoundStep(inv), w, start, r);
  }

  lemma EncryptWithUnfolds(box: Substitution, inv: Substitution, w: seq<State>, block: State)
    requires |w| >= 2
    ensures EncryptWith(Standard(box, inv), w, block)
         == ShiftRound(SubLookup(box), Iterate(ShiftStep(EncColumn(box)), w, AddRoundKey(block, w[0]), |w| - 2),
                       w[|w| - 1])
  {
  }

  lemma CipherUnfolds(box: Substitution, w: seq<State>, block: State)
    requires |w| >= 2
    ensures Cipher(box, w, block)
         == LastRound(box, Iterate(RoundStep(box), w, AddRoundKey(block, w[0]), |w| - 2), w[|w| - 1])
  {
  }

  lemma EncLastSame(box: Substitution, w: seq<State>, start: State)
    requires |w| >= 2
    ensures ShiftRound(SubLookup(box), Iterate(ShiftStep(EncColumn(box)), w, start, |w| - 2), w[|w| - 1])
         == LastRound(box, Iterate(RoundStep(box), w, start, |w| - 2), w[|w| - 1])
  {
    EncRoundsSame(box, w, start, |w| - 2);
    ShiftRoundIsRound(box, Iterate(RoundStep(box), w, start, |w| - 2), w[|w| - 1]);
  }

  /** The code's rounds are the Cipher of section 5.1, under any S-box. */
  lemma EncryptWithIsCipher(box: Substitution, inv: Substitution, w: seq<State>, block: State)
    requires |w| >= 2
    ensures EncryptWith(Standard(box, inv), w, block) == Cipher(box, w, block)
  {
    EncryptWithUnfolds(box, inv, w, block);
    CipherUnfolds(box, w, block);
    EncLastSame(box, w, AddRoundKey(block, w[0]));
  }

  lemma DecryptWithUnfolds(box: Substitution, inv: Substitution, w: seq<State>, block: State)
    requires |w| >= 2
    ensures DecryptWith(Standard(box, inv), w, block)
         == UnshiftRound(SubLookup(inv), Iterate(UnshiftStep(DecColumn(inv)), w, AddRoundKey(block, w[0]), |w| - 2),
                         w[|w| - 1])
  {
  }

  lemma EqInvCipherUnfolds(inv: Substitution, w: seq<State>, block: State)
    requires |w| >= 2
    ensures EqInvCipher(inv, w, block)
         == InvLastRound(inv, Iterate(InvRoundStep(inv), w, AddRoundKey(block, w[0]), |w| - 2), w[|w| - 1])
  {
  }

  lemma DecLastSame(inv: Substitution, w: seq<State>, start: State)
    requires |w| >= 2
    ensures UnshiftRound(SubLookup(inv), Iterate(UnshiftStep(DecColumn(inv)), w, start, |w| - 2), w[|w| - 1])
         == InvLastRound(inv, Iterate(InvRoundStep(inv), w, start, |w| - 2), w[|w| - 1])
  {
    DecRoundsSame(inv, w, start, |w| - 2);
    UnshiftRoundIsInvRound(inv, Iterate(InvRoundStep(inv), w, start, |w| - 2), w[|w| - 1]);
  }

  /** The code's inverse rounds are the equivalent inverse cipher of section 5.3.5. */
  lemma DecryptWithIsEqInvCipher(box: Substitution, inv: Substitution, w: seq<State>, block: State)
    requires |w| >= 2
    ensures DecryptWith(Standard(box, inv), w, block) == EqInvCipher(inv, w, block)
  {
    DecryptWithUnfolds(box, inv, w, block);
    EqInvCipherUnfolds(inv, w, block);
    DecLastSame(inv, w, AddRoundKey(block, w[0]));
  }

  // ------------------------------------------------ schedules

  /** The encryption schedule holds the round keys of section 5.2. */
  lemma EncKeysAreExpansion(s: seq<bv32>, ws: nat -> bv32, box: Substitution, key: seq<Column>)
    requires KeyWords(key) && Follows(ws, box, key) && Expanded(s, ws, 4 * Rounds(key) + 4)
    ensures RoundKeys(s, Rounds(key) + 1) == KeyExpansion(box, key)
  {
    var a, b := RoundKeys(s, Rounds(key) + 1), KeyExpansion(box, key);
    forall r | 0 <= r <= Rounds(key) ensures a[r] == b[r] {
      EncKeyAt(s, ws, box, key, r);
    }
  }

  lemma EncKeyAt(s: seq<bv32>, ws: nat -> bv32, box: Substitution, key: seq<Column>, r: nat)
    requires KeyWords(key) && Follows(ws, box, key) && Expanded(s, ws, 4 * Rounds(key) + 4) && r <= Rounds(key)
    ensures StateOf(s[4 * r..4 * r + 4])
         == State(Word(box, key, 4 * r), Word(box, key, 4 * r + 1), Word(box, key, 4 * r + 2),
                  Word(box, key, 4 * r + 3))
  {
    assert FollowsAt(ws, box, key, 4 * r) && FollowsAt(ws, box, key, 4 * r + 1);
    assert FollowsAt(ws, box, key, 4 * r + 2) && FollowsAt(ws, box, key, 4 * r + 3);
  }

  lemma MirrorOfRound(nr: nat, r: nat, c: nat)
    requires r <= nr && c < 4
    ensures Mirror(4 * nr, 4 * r + c) == 4 * (nr - r) + c
  {
  }

  function MapFour<T>(f: T -> T, q: seq<T>): (r: seq<T>)
    requires |q| == 4
    ensures |r| == 4
  {
    [f(q[0]), f(q[1]), f(q[2]), f(q[3])]
  }

  ghost predicate MixesAt(mix: State -> State, imix: bv32 -> bv32, q: seq<bv32>)
    requires |q| == 4
  {
    StateOf(MapFour(imix, q)) == mix(StateOf(q))
  }

  /** `mix` is `imix` on each of four words. */
  ghost predicate MixesWords(mix: State -> State, imix: bv32 -> bv32) {
    forall q: seq<bv32> :: |q| == 4 ==> MixesAt(mix, imix, q)
  }

  lemma DecWordAt<T>(enc: seq<T>, dec: seq<T>, imix: T -> T, nr: nat, r: nat, c: nat)
    requires r <= nr && c < 4 && 4 * nr + 4 <= |enc| && 4 * nr + 4 <= |dec| && Mirrored(enc, dec, imix, 4 * nr)
    ensures dec[4 * r + c] == var e := enc[4 * (nr - r) + c]; if 0 < r < nr then imix(e) else e
  {
    MirrorOfRound(nr, r, c);
    assert MirroredAt(enc, dec, imix, 4 * nr, 4 * r + c);
  }

  /** Round `r` of the decryption schedule is round `nr - r` of the encryption schedule. */
  lemma DecFourAt<T>(enc: seq<T>, dec: seq<T>, imix: T -> T, nr: nat, r: nat)
    requires r <= nr && 4 * nr + 4 <= |enc| && 4 * nr + 4 <= |dec| && Mirrored(enc, dec, imix, 4 * nr)
    ensures dec[4 * r..4 * r + 4]
         == var q := enc[4 * (nr - r)..4 * (nr - r) + 4]; if 0 < r < nr then MapFour(imix, q) else q
  {
    DecWordAt(enc, dec, imix, nr, r, 0);
    DecWordAt(enc, dec, imix, nr, r, 1);
    DecWordAt(enc, dec, imix, nr, r, 2);
    DecWordAt(enc, dec, imix, nr, r, 3);
  }

  lemma DecStateAt(enc: seq<bv32>, dec: seq<bv32>, imix: bv32 -> bv32, mix: State -> State, nr: nat, r: nat)
    requires r <= nr && 4 * nr + 4 <= |enc| && 4 * nr + 4 <= |dec| && Mirrored(enc, dec, imix, 4 * nr)
    requires MixesWords(mix, imix)
    ensures StateOf(dec[4 * r..4 * r + 4])
         == var k := StateOf(enc[4 * (nr - r)..4 * (nr - r) + 4]); if 0 < r < nr then mix(k) else k
  {
    DecFourAt(enc, dec, imix, nr, r);
    assert MixesAt(mix, imix, enc[4 * (nr - r)..4 * (nr - r) + 4]);
  }

  lemma DecKeyAt(enc: seq<bv32>, dec: seq<bv32>, imix: bv32 -> bv32, mix: State -> State, nr: nat, r: nat)
    requires r <= nr && 0 < nr && 4 * nr + 4 <= |enc| && 4 * nr + 4 <= |dec| && Mirrored(enc, dec, imix, 4 * nr)
    requires MixesWords(mix, imix)
    ensures RoundKeys(dec, nr + 1)[r] == InvKeys(mix, RoundKeys(enc, nr + 1))[r]
  {
    DecStateAt(enc, dec, imix, mix, nr, r);
    InvKeysAt(mix, RoundKeys(enc, nr + 1), nr, r);
  }

  lemma InvKeysAt<K>(mix: K -> K, w: seq<K>, nr: nat, r: nat)
    requires |w| == nr + 1 && 0 < nr && r <= nr
    ensures InvKeys(mix, w)[r] == if 0 < r < nr then mix(w[nr - r]) else w[nr - r]
  {
  }

  /** The decryption schedule holds the round keys of section 5.3.5. */
  lemma DecKeysAreInverse(enc: seq<bv32>, dec: seq<bv32>, imix: bv32 -> bv32, mix: State -> State, nr: nat)
    requires nr > 0 && 4 * nr + 4 <= |enc| && 4 * nr + 4 <= |dec| && Mirrored(enc, dec, imix, 4 * nr)
    requires MixesWords(mix, imix)
    ensures RoundKeys(dec, nr + 1) == InvKeys(mix, RoundKeys(enc, nr + 1))
  {
    var a, b := RoundKeys(dec, nr + 1), InvKeys(mix, RoundKeys(enc, nr + 1));
    forall r | 0 <= r < |a| ensures a[r] == b[r] {
      DecKeyAt(enc, dec, imix, mix, nr, r);
    }
  }

  lemma ImixFour(q: seq<bv32>)
    requires |q| == 4
    ensures MixesAt(InvMixColumns, ImixWord, q)
  {
    ImixWordUnmixes(q[0]);
    ImixWordUnmixes(q[1]);
    ImixWordUnmixes(q[2]);
    ImixWordUnmixes(q[3]);
  }

  lemma ImixMixesWords()
    ensures MixesWords(InvMixColumns, ImixWord)
  {
    forall q: seq<bv32> | |q| == 4 ensures MixesAt(InvMixColumns, ImixWord, q) {
      ImixFour(q);
    }
  }
}
