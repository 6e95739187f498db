/**
 The Advanced Encryption Standard as FIPS 197 defines it, on bytes and columns.

 This is the reference the table-driven code is measured against: nothing here
 mentions the code's tables, its words or the layout of its schedules.
 */
module Fips197 {
  import opened NibbleTables

  // ------------------------------------------------ the field GF(2^8), section 4

  /** Addition, section 4.1. */
  function Add(a: bv8, b: bv8): bv8 {
    a ^ b
  }

  /** Multiplication by {02}, section 4.2.1: shift, and reduce if the top bit was set. */
  function Xtime(x: bv8): bv8 {
    (x << 1) ^ ((0 - (x >> 7)) & 0x1b)
  }

  /** Multiplication modulo x^8 + x^4 + x^3 + x + 1, section 4.2. */
  function Mul(a: bv8, b: bv8): bv8 {
    var b1 := Xtime(b);
    var b2 := Xtime(b1);
    var b3 := Xtime(b2);
    var b4 := Xtime(b3);
    var b5 := Xtime(b4);
    var b6 := Xtime(b5);
    var b7 := Xtime(b6);
    ((0 - (a & 1)) & b) ^ ((0 - ((a >> 1) & 1)) & b1) ^ ((0 - ((a >> 2) & 1)) & b2) ^ ((0 - ((a >> 3) & 1)) & b3) ^
    ((0 - ((a >> 4) & 1)) & b4) ^ ((0 - ((a >> 5) & 1)) & b5) ^ ((0 - ((a >> 6) & 1)) & b6) ^ ((0 - (a >> 7)) & b7)
  }

  // The coefficients MixColumns and InvMixColumns need, by repeated xtime as in section 4.2.1.

  function Times3(x: bv8): bv8 {
    Add(Xtime(x), x)
  }

  function Times4(x: bv8): bv8 {
    Xtime(Xtime(x))
  }

  function Times8(x: bv8): bv8 {
    Xtime(Times4(x))
  }

  function Times9(x: bv8): bv8 {
    Add(Times8(x), x)
  }

  function Times11(x: bv8): bv8 {
    Add(Times8(x), Times3(x))
  }

  function Times13(x: bv8): bv8 {
    Add(Times8(x), Add(Times4(x), x))
  }

  function Times14(x: bv8): bv8 {
    Add(Times8(x), Add(Times4(x), Xtime(x)))
  }

  /** The shortcuts are the multiplications they stand for. */
  lemma TimesIsMul(x: bv8)
    ensures Xtime(x) == Mul(2, x) && Times3(x) == Mul(3, x)
    ensures Times9(x) == Mul(9, x) && Times11(x) == Mul(11, x)
  {
  }

  lemma TimesIsMulToo(x: bv8)
    ensures Times13(x) == Mul(13, x) && Times14(x) == Mul(14, x)
  {
  }

  // ------------------------------------------------ the S-box, section 5.1.1

  /** Figure 7. */
  function SBox(x: bv8): bv8 {
    Lookup(SBoxTable(), x)
  }

  function SBoxTable(): Table<bv8> {
    Sixteen(
      Sixteen(0x63, 0x7c, 0x77, 0x7b, 0xf2, 0x6b, 0x6f, 0xc5, 0x30, 0x01, 0x67, 0x2b, 0xfe, 0xd7, 0xab, 0x76),
      Sixteen(0xca, 0x82, 0xc9, 0x7d, 0xfa, 0x59, 0x47, 0xf0, 0xad, 0xd4, 0xa2, 0xaf, 0x9c, 0xa4, 0x72, 0xc0),
      Sixteen(0xb7, 0xfd, 0x93, 0x26, 0x36, 0x3f, 0xf7, 0xcc, 0x34, 0xa5, 0xe5, 0xf1, 0x71, 0xd8, 0x31, 0x15),
      Sixteen(0x04, 0xc7, 0x23, 0xc3, 0x18, 0x96, 0x05, 0x9a, 0x07, 0x12, 0x80, 0xe2, 0xeb, 0x27, 0xb2, 0x75),
      Sixteen(0x09, 0x83, 0x2c, 0x1a, 0x1b, 0x6e, 0x5a, 0xa0, 0x52, 0x3b, 0xd6, 0xb3, 0x29, 0xe3, 0x2f, 0x84),
      Sixteen(0x53, 0xd1, 0x00, 0xed, 0x20, 0xfc, 0xb1, 0x5b, 0x6a, 0xcb, 0xbe, 0x39, 0x4a, 0x4c, 0x58, 0xcf),
      Sixteen(0xd0, 0xef, 0xaa, 0xfb, 0x43, 0x4d, 0x33, 0x85, 0x45, 0xf9, 0x02, 0x7f, 0x50, 0x3c, 0x9f, 0xa8),
      Sixteen(0x51, 0xa3, 0x40, 0x8f, 0x92, 0x9d, 0x38, 0xf5, 0xbc, 0xb6, 0xda, 0x21, 0x10, 0xff, 0xf3, 0xd2),
      Sixteen(0xcd, 0x0c, 0x13, 0xec, 0x5f, 0x97, 0x44, 0x17, 0xc4, 0xa7, 0x7e, 0x3d, 0x64, 0x5d, 0x19, 0x73),
      Sixteen(0x60, 0x81, 0x4f, 0xdc, 0x22, 0x2a, 0x90, 0x88, 0x46, 0xee, 0xb8, 0x14, 0xde, 0x5e, 0x0b, 0xdb),
      Sixteen(0xe0, 0x32, 0x3a, 0x0a, 0x49, 0x06, 0x24, 0x5c, 0xc2, 0xd3, 0xac, 0x62, 0x91, 0x95, 0xe4, 0x79),
      Sixteen(0xe7, 0xc8, 0x37, 0x6d, 0x8d, 0xd5, 0x4e, 0xa9, 0x6c, 0x56, 0xf4, 0xea, 0x65, 0x7a, 0xae, 0x08),
      Sixteen(0xba, 0x78, 0x25, 0x2e, 0x1c, 0xa6, 0xb4, 0xc6, 0xe8, 0xdd, 0x74, 0x1f, 0x4b, 0xbd, 0x8b, 0x8a),
      Sixteen(0x70, 0x3e, 0xb5, 0x66, 0x48, 0x03, 0xf6, 0x0e, 0x61, 0x35, 0x57, 0xb9, 0x86, 0xc1, 0x1d, 0x9e),
      Sixteen(0xe1, 0xf8, 0x98, 0x11, 0x69, 0xd9, 0x8e, 0x94, 0x9b, 0x1e, 0x87, 0xe9, 0xce, 0x55, 0x28, 0xdf),
      Sixteen(0x8c, 0xa1, 0x89, 0x0d, 0xbf, 0xe6, 0x42, 0x68, 0x41, 0x99, 0x2d, 0x0f, 0xb0, 0x54, 0xbb, 0x16))
  }

  /** Figure 14. */
  function InvSBox(x: bv8): bv8 {
    Lookup(InvSBoxTable(), x)
  }

  function InvSBoxTable(): Table<bv8> {
    Sixteen(
      Sixteen(0x52, 0x09, 0x6a, 0xd5, 0x30, 0x36, 0xa5, 0x38, 0xbf, 0x40, 0xa3, 0x9e, 0x81, 0xf3, 0xd7, 0xfb),
      Sixteen(0x7c, 0xe3, 0x39, 0x82, 0x9b, 0x2f, 0xff, 0x87, 0x34, 0x8e, 0x43, 0x44, 0xc4, 0xde, 0xe9, 0xcb),
      Sixteen(0x54, 0x7b, 0x94, 0x32, 0xa6, 0xc2, 0x23, 0x3d, 0xee, 0x4c, 0x95, 0x0b, 0x42, 0xfa, 0xc3, 0x4e),
      Sixteen(0x08, 0x2e, 0xa1, 0x66, 0x28, 0xd9, 0x24, 0xb2, 0x76, 0x5b, 0xa2, 0x49, 0x6d, 0x8b, 0xd1, 0x25),
      Sixteen(0x72, 0xf8, 0xf6, 0x64, 0x86, 0x68, 0x98, 0x16, 0xd4, 0xa4, 0x5c, 0xcc, 0x5d, 0x65, 0xb6, 0x92),
      Sixteen(0x6c, 0x70, 0x48, 0x50, 0xfd, 0xed, 0xb9, 0xda, 0x5e, 0x15, 0x46, 0x57, 0xa7, 0x8d, 0x9d, 0x84),
      Sixteen(0x90, 0xd8, 0xab, 0x00, 0x8c, 0xbc, 0xd3, 0x0a, 0xf7, 0xe4, 0x58, 0x05, 0xb8, 0xb3, 0x45, 0x06),
      Sixteen(0xd0, 0x2c, 0x1e, 0x8f, 0xca, 0x3f, 0x0f, 0x02, 0xc1, 0xaf, 0xbd, 0x03, 0x01, 0x13, 0x8a, 0x6b),
      Sixteen(0x3a, 0x91, 0x11, 0x41, 0x4f, 0x67, 0xdc, 0xea, 0x97, 0xf2, 0xcf, 0xce, 0xf0, 0xb4, 0xe6, 0x73),
      Sixteen(0x96, 0xac, 0x74, 0x22, 0xe7, 0xad, 0x35, 0x85, 0xe2, 0xf9, 0x37, 0xe8, 0x1c, 0x75, 0xdf, 0x6e),
      Sixteen(0x47, 0xf1, 0x1a, 0x71, 0x1d, 0x29, 0xc5, 0x89, 0x6f, 0xb7, 0x62, 0x0e, 0xaa, 0x18, 0xbe, 0x1b),
      Sixteen(0xfc, 0x56, 0x3e, 0x4b, 0xc6, 0xd2, 0x79, 0x20, 0x9a, 0xdb, 0xc0, 0xfe, 0x78, 0xcd, 0x5a, 0xf4),
      Sixteen(0x1f, 0xdd, 0xa8, 0x33, 0x88, 0x07, 0xc7, 0x31, 0xb1, 0x12, 0x10, 0x59, 0x27, 0x80, 0xec, 0x5f),
      Sixteen(0x60, 0x51, 0x7f, 0xa9, 0x19, 0xb5, 0x4a, 0x0d, 0x2d, 0xe5, 0x7a, 0x9f, 0x93, 0xc9, 0x9c, 0xef),
      Sixteen(0xa0, 0xe0, 0x3b, 0x4d, 0xae, 0x2a, 0xf5, 0xb0, 0xc8, 0xeb, 0xbb, 0x3c, 0x83, 0x53, 0x99, 0x61),
      Sixteen(0x17, 0x2b, 0x04, 0x7e, 0xba, 0x77, 0xd6, 0x26, 0xe1, 0x69, 0x14, 0x63, 0x55, 0x21, 0x0c, 0x7d))
  }

  /** The affine map of section 5.1.1. */
  function Affine(b: bv8): bv8 {
    b ^ b.RotateLeft(1) ^ b.RotateLeft(2) ^ b.RotateLeft(3) ^ b.RotateLeft(4) ^ 0x63
  }

  /** The inverse of the affine map. */
  function InvAffine(b: bv8): bv8 {
    b.RotateLeft(1) ^ b.RotateLeft(3) ^ b.RotateLeft(6) ^ 0x05
  }

  /** `y` is the multiplicative inverse of `x`, with {00} mapped to itself. */
  predicate Reciprocal(x: bv8, y: bv8) {
    if x == 0 then y == 0 else Mul(x, y) == 1
  }

  /** Figure 7 lists the affine map of the multiplicative inverse, for every byte. */
  lemma SBoxIsAffineOfReciprocal(x: bv8)
    ensures exists r :: Reciprocal(x, r) && SBox(x) == Affine(r)
  {
    InvAffineReciprocal(x);
    AffineInvAffine(SBox(x));
  }

  /** One high nibble at a time. */
  lemma InvAffineReciprocal(x: bv8)
    ensures Reciprocal(x, InvAffine(SBox(x)))
  {
    hide *;
    if x & 0x80 == 0 {
      InvAffineReciprocalLow(x);
    } else {
      InvAffineReciprocalHigh(x);
    }
  }

  lemma InvAffineReciprocalLow(x: bv8)
    requires x & 0x80 == 0
    ensures Reciprocal(x, InvAffine(SBox(x)))
  {
    hide *;
    if x & 0xf0 == 0x00 {
      Row0(x);
    } else if x & 0xf0 == 0x10 {
      Row1(x);
    } else if x & 0xf0 == 0x20 {
      Row2(x);
    } else if x & 0xf0 == 0x30 {
      Row3(x);
    } else if x & 0xf0 == 0x40 {
      Row4(x);
    } else if x & 0xf0 == 0x50 {
      Row5(x);
    } else if x & 0xf0 == 0x60 {
      Row6(x);
    } else {
      Row7(x);
    }
  }

  lemma InvAffineReciprocalHigh(x: bv8)
    requires x & 0x80 != 0
    ensures Reciprocal(x, InvAffine(SBox(x)))
  {
    hide *;
    if x & 0xf0 == 0x80 {
      Row8(x);
    } else if x & 0xf0 == 0x90 {
      Row9(x);
    } else if x & 0xf0 == 0xa0 {
      Rowa(x);
    } else if x & 0xf0 == 0xb0 {
      Rowb(x);
    } else if x & 0xf0 == 0xc0 {
      Rowc(x);
    } else if x & 0xf0 == 0xd0 {
      Rowd(x);
    } else if x & 0xf0 == 0xe0 {
      Rowe(x);
    } else {
      Rowf(x);
    }
  }

  lemma Row0(x: bv8)
    requires x & 0xf0 == 0x00
    ensures Reciprocal(x, InvAffine(SBox(x)))
  {
  }

  lemma Row1(x: bv8)
    requires x & 0xf0 == 0x10
    ensures Reciprocal(x, InvAffine(SBox(x)))
  {
  }

  lemma Row2(x: bv8)
    requires x & 0xf0 == 0x20
    ensures Reciprocal(x, InvAffine(SBox(x)))
  {
  }

  lemma Row3(x: bv8)
    requires x & 0xf0 == 0x30
    ensures Reciprocal(x, InvAffine(SBox(x)))
  {
  }

  lemma Row4(x: bv8)
    requires x & 0xf0 == 0x40
    ensures Reciprocal(x, InvAffine(SBox(x)))
  {
  }

  lemma Row5(x: bv8)
    requires x & 0xf0 == 0x50
    ensures Reciprocal(x, InvAffine(SBox(x)))
  {
  }

  lemma Row6(x: bv8)
    requires x & 0xf0 == 0x60
    ensures Reciprocal(x, InvAffine(SBox(x)))
  {
  }

  lemma Row7(x: bv8)
    requires x & 0xf0 == 0x70
    ensures Reciprocal(x, InvAffine(SBox(x)))
  {
  }

  lemma Row8(x: bv8)
    requires x & 0xf0 == 0x80
    ensures Reciprocal(x, InvAffine(SBox(x)))
  {
  }

  lemma Row9(x: bv8)
    requires x & 0xf0 == 0x90
    ensures Reciprocal(x, InvAffine(SBox(x)))
  {
  }

  lemma Rowa(x: bv8)
    requires x & 0xf0 == 0xa0
    ensures Reciprocal(x, InvAffine(SBox(x)))
  {
  }

  lemma Rowb(x: bv8)
    requires x & 0xf0 == 0xb0
    ensures Reciprocal(x, InvAffine(SBox(x)))
  {
  }

  lemma Rowc(x: bv8)
    requires x & 0xf0 == 0xc0
    ensures Reciprocal(x, InvAffine(SBox(x)))
  {
  }

  lemma Rowd(x: bv8)
    requires x & 0xf0 == 0xd0
    ensures Reciprocal(x, InvAffine(SBox(x)))
  {
  }

  lemma Rowe(x: bv8)
    requires x & 0xf0 == 0xe0
    ensures Reciprocal(x, InvAffine(SBox(x)))
  {
  }

  lemma Rowf(x: bv8)
    requires x & 0xf0 == 0xf0
    ensures Reciprocal(x, InvAffine(SBox(x)))
  {
  }

  lemma AffineInvAffine(b: bv8)
    ensures Affine(InvAffine(b)) == b
  {
  }

  /** Figure 14 undoes Figure 7. */
  lemma InvSBoxOfSBox(x: bv8)
    ensures InvSBox(SBox(x)) == x
  {
    if x & 0x80 == 0 {
      InvSBoxOfSBoxLow(x);
    } else {
      InvSBoxOfSBoxHigh(x);
    }
  }

  lemma InvSBoxOfSBoxLow(x: bv8)
    requires x & 0x80 == 0
    ensures InvSBox(SBox(x)) == x
  {
  }

  lemma InvSBoxOfSBoxHigh(x: bv8)
    requires x & 0x80 != 0
    ensures InvSBox(SBox(x)) == x
  {
  }

  // ------------------------------------------------ the state, sections 3.4 and 5

  datatype Column = Column(r0: bv8, r1: bv8, r2: bv8, r3: bv8)

  datatype State = State(c0: Column, c1: Column, c2: Column, c3: Column)

  /** The byte substitutions: the cipher uses `SBox`, the inverse cipher `InvSBox`. */
  type Substitution = bv8 -> bv8

  function AddColumn(a: Column, b: Column): Column {
    Column(Add(a.r0, b.r0), Add(a.r1, b.r1), Add(a.r2, b.r2), Add(a.r3, b.r3))
  }

  /** Section 5.1.4. */
  function AddRoundKey(s: State, k: State): State {
    State(AddColumn(s.c0, k.c0), AddColumn(s.c1, k.c1), AddColumn(s.c2, k.c2), AddColumn(s.c3, k.c3))
  }

  /** SubWord of section 5.2, and SubBytes (5.1.1) or InvSubBytes (5.3.2) on one column. */
  function SubWord(box: Substitution, c: Column): Column {
    Column(box(c.r0), box(c.r1), box(c.r2), box(c.r3))
  }

  function SubBytes(box: Substitution, s: State): State {
    State(SubWord(box, s.c0), SubWord(box, s.c1), SubWord(box, s.c2), SubWord(box, s.c3))
  }

  /** Section 5.1.2: row r moves r columns to the left. */
  function ShiftRows(s: State): State {
    State(Column(s.c0.r0, s.c1.r1, s.c2.r2, s.c3.r3),
          Column(s.c1.r0, s.c2.r1, s.c3.r2, s.c0.r3),
          Column(s.c2.r0, s.c3.r1, s.c0.r2, s.c1.r3),
          Column(s.c3.r0, s.c0.r1, s.c1.r2, s.c2.r3))
  }

  /** One row of the matrix of section 5.1.3, with the column rotated to start at its {02}. */
  function MixRow(a: bv8, b: bv8, c: bv8, d: bv8): bv8 {
    Add(Add(Xtime(a), Times3(b)), Add(c, d))
  }

  /** A row of a matrix times a column, in the field. */
  function Product(p: bv8, q: bv8, r: bv8, s: bv8, a: bv8, b: bv8, c: bv8, d: bv8): bv8 {
    Add(Add(Mul(p, a), Mul(q, b)), Add(Mul(r, c), Mul(s, d)))
  }

  /** That row is {02} {03} {01} {01}. */
  lemma MixRowIsMatrix(a: bv8, b: bv8, c: bv8, d: bv8)
    ensures MixRow(a, b, c, d) == Product(2, 3, 1, 1, a, b, c, d)
  {
    TimesIsMul(a);
    TimesIsMul(b);
    OneTimes(c);
    OneTimes(d);
    hide Mul, Xtime, Times3;
  }

  lemma OneTimes(x: bv8)
    ensures Mul(1, x) == x
  {
  }

  function MixColumn(c: Column): Column {
    Column(MixRow(c.r0, c.r1, c.r2, c.r3), MixRow(c.r1, c.r2, c.r3, c.r0),
           MixRow(c.r2, c.r3, c.r0, c.r1), MixRow(c.r3, c.r0, c.r1, c.r2))
  }

  function MixColumns(s: State): State {
    State(MixColumn(s.c0), MixColumn(s.c1), MixColumn(s.c2), MixColumn(s.c3))
  }

  /** Section 5.3.1: row r moves r columns to the right. */
  function InvShiftRows(s: State): State {
    State(Column(s.c0.r0, s.c3.r1, s.c2.r2, s.c1.r3),
          Column(s.c1.r0, s.c0.r1, s.c3.r2, s.c2.r3),
          Column(s.c2.r0, s.c1.r1, s.c0.r2, s.c3.r3),
          Column(s.c3.r0, s.c2.r1, s.c1.r2, s.c0.r3))
  }

  /** One row of the matrix of section 5.3.3, with the column rotated to start at its {0e}. */
  function InvMixRow(a: bv8, b: bv8, c: bv8, d: bv8): bv8 {
    Add(Add(Times14(a), Times11(b)), Add(Times13(c), Times9(d)))
  }

  /** That row is {0e} {0b} {0d} {09}. */
  lemma InvMixRowIsMatrix(a: bv8, b: bv8, c: bv8, d: bv8)
    ensures InvMixRow(a, b, c, d) == Product(14, 11, 13, 9, a, b, c, d)
  {
    TimesIsMulToo(a);
    TimesIsMul(b);
    TimesIsMulToo(c);
    TimesIsMul(d);
    hide Mul, Times9, Times11, Times13, Times14;
  }

  function InvMixColumn(c: Column): Column {
    Column(InvMixRow(c.r0, c.r1, c.r2, c.r3), InvMixRow(c.r1, c.r2, c.r3, c.r0),
           InvMixRow(c.r2, c.r3, c.r0, c.r1), InvMixRow(c.r3, c.r0, c.r1, c.r2))
  }

  function InvMixColumns(s: State): State {
    State(InvMixColumn(s.c0), InvMixColumn(s.c1), InvMixColumn(s.c2), InvMixColumn(s.c3))
  }

  // ------------------------------------------------ key schedule, section 5.2

  /** A key of 4, 6 or 8 words. */
  predicate KeyWords(key: seq<Column>) {
    |key| == 4 || |key| == 6 || |key| == 8
  }

  function Rounds(key: seq<Column>): (nr: nat)
    requires KeyWords(key)
    ensures nr == 10 || nr == 12 || nr == 14
  {
    |key| + 6
  }

  function RotWord(c: Column): Column {
    Column(c.r1, c.r2, c.r3, c.r0)
  }

  /** x^(i-1), the first byte of Rcon[i]. */
  function Rcon(i: nat): bv8
    requires i > 0
  {
    if i == 1 then 1 else Xtime(Rcon(i - 1))
  }

  /** Word `i` of the expanded key. */
  function Word(box: Substitution, key: seq<Column>, i: nat): Column
    requires KeyWords(key)
  {
    var nk := |key|;
    if i < nk then key[i]
    else
      var temp := Word(box, key, i - 1);
      AddColumn(Word(box, key, i - nk),
                if i % nk == 0 then AddColumn(SubWord(box, RotWord(temp)), Column(Rcon(i / nk), 0, 0, 0))
                else if nk > 6 && i % nk == 4 then SubWord(box, temp)
                else temp)
  }

  /** The round keys: four words each, one more than there are rounds. */
  function KeyExpansion(box: Substitution, key: seq<Column>): (w: seq<State>)
    requires KeyWords(key)
    ensures |w| == Rounds(key) + 1
    ensures forall r :: 0 <= r <= Rounds(key) ==>
      w[r] == State(Word(box, key, 4 * r), Word(box, key, 4 * r + 1), Word(box, key, 4 * r + 2),
                    Word(box, key, 4 * r + 3))
  {
    seq(Rounds(key) + 1, r requires 0 <= r =>
      State(Word(box, key, 4 * r), Word(box, key, 4 * r + 1), Word(box, key, 4 * r + 2), Word(box, key, 4 * r + 3)))
  }

  // ------------------------------------------------ the ciphers, sections 5.1 and 5.3.5

  function Round(box: Substitution, s: State, k: State): State {
    AddRoundKey(MixColumns(ShiftRows(SubBytes(box, s))), k)
  }

  function RoundStep(box: Substitution): (State, State) -> State {
    (s: State, k: State) => Round(box, s, k)
  }

  function LastRound(box: Substitution, s: State, k: State): State {
    AddRoundKey(ShiftRows(SubBytes(box, s)), k)
  }

  /** `step` applied to `start` once per key, for keys 1 to `r` of `w`. */
  function Iterate<S, K>(step: (S, K) -> S, w: seq<K>, start: S, r: nat): S
    requires r < |w|
  {
    if r == 0 then start else step(Iterate(step, w, start, r - 1), w[r])
  }

  /** The state after the initial AddRoundKey and `r` full rounds. */
  function AfterRounds(box: Substitution, w: seq<State>, block: State, r: nat): State
    requires r < |w|
  {
    Iterate(RoundStep(box), w, AddRoundKey(block, w[0]), r)
  }

  /** Cipher of section 5.1 under the round keys `w`. */
  function Cipher(box: Substitution, w: seq<State>, block: State): State
    requires |w| >= 2
  {
    LastRound(box, AfterRounds(box, w, block, |w| - 2), w[|w| - 1])
  }

  function InvRound(box: Substitution, s: State, k: State): State {
    AddRoundKey(InvMixColumns(InvShiftRows(SubBytes(box, s))), k)
  }

  function InvRoundStep(box: Substitution): (State, State) -> State {
    (s: State, k: State) => InvRound(box, s, k)
  }

  function InvLastRound(box: Substitution, s: State, k: State): State {
    AddRoundKey(InvShiftRows(SubBytes(box, s)), k)
  }

  /** The round keys of the equivalent inverse cipher in the order it uses them; `mix` is InvMixColumns. */
  function InvKeys<K>(mix: K -> K, w: seq<K>): (dw: seq<K>)
    requires |w| >= 2
    ensures |dw| == |w|
    ensures dw[0] == w[|w| - 1] && dw[|w| - 1] == w[0]
    ensures forall r :: 0 < r < |w| - 1 ==> dw[r] == mix(w[|w| - 1 - r])
  {
    seq(|w|, r requires 0 <= r < |w| => if r == 0 || r == |w| - 1 then w[|w| - 1 - r] else mix(w[|w| - 1 - r]))
  }

  /** The state after the initial AddRoundKey and `r` inverse rounds. */
  function AfterInvRounds(box: Substitution, dw: seq<State>, block: State, r: nat): State
    requires r < |dw|
  {
    Iterate(InvRoundStep(box), dw, AddRoundKey(block, dw[0]), r)
  }

  /** EqInvCipher of section 5.3.5 under the round keys `dw`. */
  function EqInvCipher(box: Substitution, dw: seq<State>, block: State): State
    requires |dw| >= 2
  {
    InvLastRound(box, AfterInvRounds(box, dw, block, |dw| - 2), dw[|dw| - 1])
  }
}
