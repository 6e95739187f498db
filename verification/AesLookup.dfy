/**
 What the entries of the cipher's tables mean, for every index byte.

 Each of the sixteen tables is the S-box (or its inverse) of FIPS 197 spread over a
 word: by one column of MixColumns or InvMixColumns, or into a single byte.
 */
module AesLookup {
  import opened NibbleTables
  import opened Fips197
  import opened FipsInverse
  import opened AesTables
  import opened AesWords

  // ------------------------------------------------ the four tables of a kind are rotations of the first

  function Ror24(w: bv32): bv32 {
    (w >> 24) | (w << 8)
  }

  function Ror16(w: bv32): bv32 {
    (w >> 16) | (w << 16)
  }

  function Ror8(w: bv32): bv32 {
    (w >> 8) | (w << 24)
  }

  lemma FtTab1Rotates(x: bv8)
    ensures FtTab1(x) == Ror32(FtTab0(x), 24)
  {
    assert FtTable1() == Every(Ror24, FtTable0());
    hide Lookup, Every;
    LookupEvery(Ror24, FtTable0(), x);
  }

  lemma FtTab2Rotates(x: bv8)
    ensures FtTab2(x) == Ror32(FtTab0(x), 16)
  {
    assert FtTable2() == Every(Ror16, FtTable0());
    hide Lookup, Every;
    LookupEvery(Ror16, FtTable0(), x);
  }

  lemma FtTab3Rotates(x: bv8)
    ensures FtTab3(x) == Ror32(FtTab0(x), 8)
  {
    assert FtTable3() == Every(Ror8, FtTable0());
    hide Lookup, Every;
    LookupEvery(Ror8, FtTable0(), x);
  }

  lemma FlTab1Rotates(x: bv8)
    ensures FlTab1(x) == Ror32(FlTab0(x), 24)
  {
    assert FlTable1() == Every(Ror24, FlTable0());
    hide Lookup, Every;
    LookupEvery(Ror24, FlTable0(), x);
  }

  lemma FlTab2Rotates(x: bv8)
    ensures FlTab2(x) == Ror32(FlTab0(x), 16)
  {
    assert FlTable2() == Every(Ror16, FlTable0());
    hide Lookup, Every;
    LookupEvery(Ror16, FlTable0(), x);
  }

  lemma FlTab3Rotates(x: bv8)
    ensures FlTab3(x) == Ror32(FlTab0(x), 8)
  {
    assert FlTable3() == Every(Ror8, FlTable0());
    hide Lookup, Every;
    LookupEvery(Ror8, FlTable0(), x);
  }

  lemma ItTab1Rotates(x: bv8)
    ensures ItTab1(x) == Ror32(ItTab0(x), 24)
  {
    assert ItTable1() == Every(Ror24, ItTable0());
    hide Lookup, Every;
    LookupEvery(Ror24, ItTable0(), x);
  }

  lemma ItTab2Rotates(x: bv8)
    ensures ItTab2(x) == Ror32(ItTab0(x), 16)
  {
    assert ItTable2() == Every(Ror16, ItTable0());
    hide Lookup, Every;
    LookupEvery(Ror16, ItTable0(), x);
  }

  lemma ItTab3Rotates(x: bv8)
    ensures ItTab3(x) == Ror32(ItTab0(x), 8)
  {
    assert ItTable3() == Every(Ror8, ItTable0());
    hide Lookup, Every;
    LookupEvery(Ror8, ItTable0(), x);
  }

  lemma IlTab1Rotates(x: bv8)
    ensures IlTab1(x) == Ror32(IlTab0(x), 24)
  {
    assert IlTable1() == Every(Ror24, IlTable0());
    hide Lookup, Every;
    LookupEvery(Ror24, IlTable0(), x);
  }

  lemma IlTab2Rotates(x: bv8)
    ensures IlTab2(x) == Ror32(IlTab0(x), 16)
  {
    assert IlTable2() == Every(Ror16, IlTable0());
    hide Lookup, Every;
    LookupEvery(Ror16, IlTable0(), x);
  }

  lemma IlTab3Rotates(x: bv8)
    ensures IlTab3(x) == Ror32(IlTab0(x), 8)
  {
    assert IlTable3() == Every(Ror8, IlTable0());
    hide Lookup, Every;
    LookupEvery(Ror8, IlTable0(), x);
  }

  // ------------------------------------------------ the first table of each kind

  /** A byte spread by the first column of the MixColumns matrix. */
  function Spread(y: bv8): Column {
    Column(Xtime(y), y, y, Times3(y))
  }

  /** A byte spread by the first column of the InvMixColumns matrix. */
  function InvSpread(y: bv8): Column {
    Column(Times14(y), Times9(y), Times13(y), Times11(y))
  }

  /** The same as words, written out. */
  function SpreadWord(y: bv8): bv32 {
    var d := (y << 1) ^ ((0 - (y >> 7)) & 0x1b);
    (d as bv32) | ((y as bv32) << 8) | ((y as bv32) << 16) | (((d ^ y) as bv32) << 24)
  }

  function InvSpreadWord(y: bv8): bv32 {
    var d := (y << 1) ^ ((0 - (y >> 7)) & 0x1b);
    var q := (d << 1) ^ ((0 - (d >> 7)) & 0x1b);
    var o := (q << 1) ^ ((0 - (q >> 7)) & 0x1b);
    ((o ^ q ^ d) as bv32) | (((o ^ y) as bv32) << 8) | (((o ^ q ^ y) as bv32) << 16) | (((o ^ d ^ y) as bv32) << 24)
  }

  function FirstWord(y: bv8): bv32 {
    y as bv32
  }

  lemma SpreadWords(y: bv8)
    ensures SpreadWord(y) == Pack(Spread(y)) && FirstWord(y) == Pack(Column(y, 0, 0, 0))
  {
  }

  lemma InvSpreadWords(y: bv8)
    ensures InvSpreadWord(y) == Pack(InvSpread(y))
  {
  }

  /** SubBytes, spread by the first column of the MixColumns matrix. */
  lemma FtTab0Entry(x: bv8)
    ensures FtTab0(x) == Pack(Spread(SBox(x)))
  {
    assert FtTable0() == Every(SpreadWord, SBoxTable());
    hide Lookup, Every, SpreadWord, Spread;
    LookupEvery(SpreadWord, SBoxTable(), x);
    SpreadWords(SBox(x));
  }

  lemma FlTab0Entry(x: bv8)
    ensures FlTab0(x) == Pack(Column(SBox(x), 0, 0, 0))
  {
    assert FlTable0() == Every(FirstWord, SBoxTable());
    hide Lookup, Every, FirstWord, Pack;
    LookupEvery(FirstWord, SBoxTable(), x);
    SpreadWords(SBox(x));
  }

  lemma IlTab0Entry(x: bv8)
    ensures IlTab0(x) == Pack(Column(InvSBox(x), 0, 0, 0))
  {
    assert IlTable0() == Every(FirstWord, InvSBoxTable());
    hide Lookup, Every, FirstWord, Pack;
    LookupEvery(FirstWord, InvSBoxTable(), x);
    SpreadWords(InvSBox(x));
  }

  /** InvSubBytes, spread by the first column of the InvMixColumns matrix. */
  lemma ItTab0Entry(x: bv8)
    ensures ItTab0(x) == Pack(InvSpread(InvSBox(x)))
  {
    assert ItTable0() == Every(InvSpreadWord, InvSBoxTable());
    hide Lookup, Every, InvSpreadWord, InvSpread;
    LookupEvery(InvSpreadWord, InvSBoxTable(), x);
    InvSpreadWords(InvSBox(x));
  }

  // ------------------------------------------------ four lookups and a key word

  lemma Sum4(a: bv8, b: bv8, c: bv8, d: bv8)
    ensures Add(Add(Add(a, b), c), d) == Add(Add(a, b), Add(c, d))
    ensures Add(Add(Add(a, b), c), d) == Add(Add(b, c), Add(d, a))
    ensures Add(Add(Add(a, b), c), d) == Add(Add(c, d), Add(a, b))
    ensures Add(Add(Add(a, b), c), d) == Add(Add(d, a), Add(b, c))
  {
    AddAssociates(Add(a, b), c, d);
    AddAssociates(a, b, c);
    AddCommutes(Add(a, b), Add(c, d));
    AddCommutes(a, Add(b, c));
    AddAssociates(Add(b, c), a, d);
    AddCommutes(a, d);
    AddCommutes(Add(b, c), Add(a, d));
  }

  function SumColumns(a: Column, b: Column, c: Column, d: Column): Column {
    AddColumn(AddColumn(AddColumn(a, b), c), d)
  }

  function SumWords(t0: bv32, t1: bv32, t2: bv32, t3: bv32): bv32 {
    Xor(Xor(Xor(t0, t1), t2), t3)
  }

  lemma BytesOfSum(t0: bv32, t1: bv32, t2: bv32, t3: bv32)
    ensures Bytes(SumWords(t0, t1, t2, t3)) == SumColumns(Bytes(t0), Bytes(t1), Bytes(t2), Bytes(t3))
  {
    BytesOfXor(t0, t1);
    BytesOfXor(Xor(t0, t1), t2);
    BytesOfXor(Xor(Xor(t0, t1), t2), t3);
  }

  /** MixColumns is the sum of its bytes spread by the columns of the matrix. */
  lemma MixColumnIsSum(a: bv8, b: bv8, c: bv8, d: bv8)
    ensures MixColumn(Column(a, b, c, d))
         == SumColumns(Spread(a), RotWord(RotWord(RotWord(Spread(b)))), RotWord(RotWord(Spread(c))), RotWord(Spread(d)))
  {
    Sum4(Xtime(a), Times3(b), c, d);
    Sum4(a, Xtime(b), Times3(c), d);
    Sum4(a, b, Xtime(c), Times3(d));
    Sum4(Times3(a), b, c, Xtime(d));
  }

  lemma InvMixColumnIsSum(a: bv8, b: bv8, c: bv8, d: bv8)
    ensures InvMixColumn(Column(a, b, c, d))
         == SumColumns(InvSpread(a), RotWord(RotWord(RotWord(InvSpread(b)))),
                       RotWord(RotWord(InvSpread(c))), RotWord(InvSpread(d)))
  {
    Sum4(Times14(a), Times11(b), Times13(c), Times9(d));
    Sum4(Times9(a), Times14(b), Times11(c), Times13(d));
    Sum4(Times13(a), Times9(b), Times14(c), Times11(d));
    Sum4(Times11(a), Times13(b), Times9(c), Times14(d));
  }

  /** Four lookups in the forward tables are SubBytes and MixColumns of a column. */
  lemma ForwardLookup(a: bv8, b: bv8, c: bv8, d: bv8)
    ensures Bytes(SumWords(FtTab0(a), FtTab1(b), FtTab2(c), FtTab3(d)))
         == MixColumn(Column(SBox(a), SBox(b), SBox(c), SBox(d)))
  {
    FtBytes(a);
    FtBytes(b);
    FtBytes(c);
    FtBytes(d);
    BytesOfSum(FtTab0(a), FtTab1(b), FtTab2(c), FtTab3(d));
    MixColumnIsSum(SBox(a), SBox(b), SBox(c), SBox(d));
  }

  lemma FtBytes(x: bv8)
    ensures Bytes(FtTab0(x)) == Spread(SBox(x))
    ensures Bytes(FtTab1(x)) == RotWord(RotWord(RotWord(Spread(SBox(x)))))
    ensures Bytes(FtTab2(x)) == RotWord(RotWord(Spread(SBox(x))))
    ensures Bytes(FtTab3(x)) == RotWord(Spread(SBox(x)))
  {
    FtTab0Entry(x);
    BytesOfPack(Spread(SBox(x)));
    FtTab1Rotates(x);
    FtTab2Rotates(x);
    FtTab3Rotates(x);
    BytesOfRor24(FtTab0(x));
    BytesOfRor16(FtTab0(x));
    BytesOfRor8(FtTab0(x));
  }

  lemma ItBytes(x: bv8)
    ensures Bytes(ItTab0(x)) == InvSpread(InvSBox(x))
    ensures Bytes(ItTab1(x)) == RotWord(RotWord(RotWord(InvSpread(InvSBox(x)))))
    ensures Bytes(ItTab2(x)) == RotWord(RotWord(InvSpread(InvSBox(x))))
    ensures Bytes(ItTab3(x)) == RotWord(InvSpread(InvSBox(x)))
  {
    ItTab0Entry(x);
    BytesOfPack(InvSpread(InvSBox(x)));
    ItTab1Rotates(x);
    ItTab2Rotates(x);
    ItTab3Rotates(x);
    BytesOfRor24(ItTab0(x));
    BytesOfRor16(ItTab0(x));
    BytesOfRor8(ItTab0(x));
  }

  /** Four lookups in the inverse tables are InvSubBytes and InvMixColumns of a column. */
  lemma InverseLookup(a: bv8, b: bv8, c: bv8, d: bv8)
    ensures Bytes(SumWords(ItTab0(a), ItTab1(b), ItTab2(c), ItTab3(d)))
         == InvMixColumn(Column(InvSBox(a), InvSBox(b), InvSBox(c), InvSBox(d)))
  {
    ItBytes(a);
    ItBytes(b);
    ItBytes(c);
    ItBytes(d);
    BytesOfSum(ItTab0(a), ItTab1(b), ItTab2(c), ItTab3(d));
    InvMixColumnIsSum(InvSBox(a), InvSBox(b), InvSBox(c), InvSBox(d));
  }

  lemma FlBytes(x: bv8)
    ensures Bytes(FlTab0(x)) == Column(SBox(x), 0, 0, 0)
    ensures Bytes(FlTab1(x)) == Column(0, SBox(x), 0, 0)
    ensures Bytes(FlTab2(x)) == Column(0, 0, SBox(x), 0)
    ensures Bytes(FlTab3(x)) == Column(0, 0, 0, SBox(x))
  {
    FlTab0Entry(x);
    BytesOfPack(Column(SBox(x), 0, 0, 0));
    FlTab1Rotates(x);
    FlTab2Rotates(x);
    FlTab3Rotates(x);
    BytesOfRor24(FlTab0(x));
    BytesOfRor16(FlTab0(x));
    BytesOfRor8(FlTab0(x));
  }

  lemma IlBytes(x: bv8)
    ensures Bytes(IlTab0(x)) == Column(InvSBox(x), 0, 0, 0)
    ensures Bytes(IlTab1(x)) == Column(0, InvSBox(x), 0, 0)
    ensures Bytes(IlTab2(x)) == Column(0, 0, InvSBox(x), 0)
    ensures Bytes(IlTab3(x)) == Column(0, 0, 0, InvSBox(x))
  {
    IlTab0Entry(x);
    BytesOfPack(Column(InvSBox(x), 0, 0, 0));
    IlTab1Rotates(x);
    IlTab2Rotates(x);
    IlTab3Rotates(x);
    BytesOfRor24(IlTab0(x));
    BytesOfRor16(IlTab0(x));
    BytesOfRor8(IlTab0(x));
  }

  lemma AddZero(x: bv8)
    ensures Add(x, 0) == x && Add(0, x) == x
  {
  }

  lemma SumOfSingles(a: bv8, b: bv8, c: bv8, d: bv8)
    ensures SumColumns(Column(a, 0, 0, 0), Column(0, b, 0, 0), Column(0, 0, c, 0), Column(0, 0, 0, d))
         == Column(a, b, c, d)
  {
    AddZero(a);
    AddZero(b);
    AddZero(c);
    AddZero(d);
    AddZero(0);
  }

  /** Four lookups in the last-round tables are SubBytes of a column. */
  lemma LastLookup(a: bv8, b: bv8, c: bv8, d: bv8)
    ensures Bytes(SumWords(FlTab0(a), FlTab1(b), FlTab2(c), FlTab3(d))) == Column(SBox(a), SBox(b), SBox(c), SBox(d))
  {
    FlBytes(a);
    FlBytes(b);
    FlBytes(c);
    FlBytes(d);
    BytesOfSum(FlTab0(a), FlTab1(b), FlTab2(c), FlTab3(d));
    SumOfSingles(SBox(a), SBox(b), SBox(c), SBox(d));
  }

  lemma InverseLastLookup(a: bv8, b: bv8, c: bv8, d: bv8)
    ensures Bytes(SumWords(IlTab0(a), IlTab1(b), IlTab2(c), IlTab3(d)))
         == Column(InvSBox(a), InvSBox(b), InvSBox(c), InvSBox(d))
  {
    IlBytes(a);
    IlBytes(b);
    IlBytes(c);
    IlBytes(d);
    BytesOfSum(IlTab0(a), IlTab1(b), IlTab2(c), IlTab3(d));
    SumOfSingles(InvSBox(a), InvSBox(b), InvSBox(c), InvSBox(d));
  }

  // ------------------------------------------------ imix_col

  /** The word `imix_col` computes from `x` and its doublings. */
  function ImixSum(x: bv32, u: bv32, v: bv32, w: bv32): bv32 {
    var t := Xor(w, x);
    SumWords(Xor(Xor(u, v), w), Ror32(Xor(u, t), 8), Ror32(Xor(v, t), 16), Ror32(t, 24))
  }

  lemma Doublings(x: bv8)
    ensures Add(Add(Xtime(x), Times4(x)), Times8(x)) == Times14(x)
    ensures Add(Xtime(x), Times9(x)) == Times11(x)
    ensures Add(Times4(x), Times9(x)) == Times13(x)
  {
    AddCommutes(Xtime(x), Times4(x));
    AddCommutes(Add(Times4(x), Xtime(x)), Times8(x));
    AddAssociates(Xtime(x), Times8(x), x);
    AddCommutes(Xtime(x), Times8(x));
    AddAssociates(Times8(x), Xtime(x), x);
    AddAssociates(Times4(x), Times8(x), x);
    AddCommutes(Times4(x), Times8(x));
    AddAssociates(Times8(x), Times4(x), x);
  }

  lemma DoublingsOfColumn(c: Column)
    ensures Doublings4(c)
  {
    Doublings(c.r0);
    Doublings(c.r1);
    Doublings(c.r2);
    Doublings(c.r3);
  }

  ghost predicate Doublings4(c: Column) {
    var u, v, w := Map(Xtime, c), Map(Times4, c), Map(Times8, c);
    && AddColumn(AddColumn(u, v), w) == Map(Times14, c)
    && AddColumn(w, c) == Map(Times9, c)
    && AddColumn(u, Map(Times9, c)) == Map(Times11, c)
    && AddColumn(v, Map(Times9, c)) == Map(Times13, c)
  }

  function Map(f: bv8 -> bv8, c: Column): Column {
    Column(f(c.r0), f(c.r1), f(c.r2), f(c.r3))
  }

  lemma StarXThrice(x: bv32)
    ensures Bytes(StarX(x)) == Map(Xtime, Bytes(x))
    ensures Bytes(StarX(StarX(x))) == Map(Times4, Bytes(x))
    ensures Bytes(StarX(StarX(StarX(x)))) == Map(Times8, Bytes(x))
  {
    BytesOfStarX(x);
    BytesOfStarX(StarX(x));
    BytesOfStarX(StarX(StarX(x)));
  }

  lemma InvMixColumnByColumns(c: Column)
    ensures InvMixColumn(c) == SumColumns(Map(Times14, c), RotWord(Map(Times11, c)),
                                          RotWord(RotWord(Map(Times13, c))), RotWord(RotWord(RotWord(Map(Times9, c)))))
  {
    Sum4(Times14(c.r0), Times11(c.r1), Times13(c.r2), Times9(c.r3));
    Sum4(Times14(c.r1), Times11(c.r2), Times13(c.r3), Times9(c.r0));
    Sum4(Times14(c.r2), Times11(c.r3), Times13(c.r0), Times9(c.r1));
    Sum4(Times14(c.r3), Times11(c.r0), Times13(c.r1), Times9(c.r2));
  }

  /** `imix_col` is InvMixColumns of a column. */
  lemma ImixSumIsInvMixColumn(x: bv32, u: bv32, v: bv32, w: bv32)
    requires u == StarX(x) && v == StarX(u) && w == StarX(v)
    ensures Bytes(ImixSum(x, u, v, w)) == InvMixColumn(Bytes(x))
  {
    var c, t := Bytes(x), Xor(w, x);
    StarXThrice(x);
    DoublingsOfColumn(c);
    BytesOfXor(w, x);
    BytesOfXor(u, v);
    BytesOfXor(Xor(u, v), w);
    BytesOfXor(u, t);
    BytesOfXor(v, t);
    BytesOfRor8(Xor(u, t));
    BytesOfRor16(Xor(v, t));
    BytesOfRor24(t);
    BytesOfSum(Xor(Xor(u, v), w), Ror32(Xor(u, t), 8), Ror32(Xor(v, t), 16), Ror32(t, 24));
    InvMixColumnByColumns(c);
  }
}
