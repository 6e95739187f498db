/**
 The 32-bit words of the cipher and the bytes in them, least significant byte first.
 */
module AesWords {
  import opened Fips197

  /** byte(x, n): byte `n` of a word. */
  function Byte(x: bv32, n: nat): bv8
    requires n < 4
  {
    if n == 0 then (x & 0xff) as bv8
    else if n == 1 then ((x >> 8) & 0xff) as bv8
    else if n == 2 then ((x >> 16) & 0xff) as bv8
    else ((x >> 24) & 0xff) as bv8
  }

  /** A word as the column of its four bytes. */
  function Bytes(x: bv32): Column {
    Column(Byte(x, 0), Byte(x, 1), Byte(x, 2), Byte(x, 3))
  }

  /** The word with the bytes of a column. */
  function Pack(c: Column): bv32 {
    (c.r0 as bv32) | ((c.r1 as bv32) << 8) | ((c.r2 as bv32) << 16) | ((c.r3 as bv32) << 24)
  }

  lemma BytesOfPack(c: Column)
    ensures Bytes(Pack(c)) == c
  {
  }

  lemma PackOfBytes(x: bv32)
    ensures Pack(Bytes(x)) == x
  {
  }

  /** Exclusive or of words; named, so that proofs can rewrite with it. */
  function Xor(x: bv32, y: bv32): bv32 {
    x ^ y
  }

  lemma BytesOfXor(x: bv32, y: bv32)
    ensures Bytes(Xor(x, y)) == AddColumn(Bytes(x), Bytes(y))
  {
    BytesOfInlineXor(x, y);
  }

  lemma BytesOfInlineXor(x: bv32, y: bv32)
    ensures Bytes(x ^ y) == AddColumn(Bytes(x), Bytes(y))
  {
  }

  /** ror32: rotate a word right. */
  function Ror32(x: bv32, shift: bv32): bv32
    requires 0 < shift < 32
  {
    (x >> shift) | (x << (32 - shift))
  }

  lemma BytesOfRor8(x: bv32)
    ensures Bytes(Ror32(x, 8)) == RotWord(Bytes(x))
  {
  }

  lemma BytesOfRor16(x: bv32)
    ensures Bytes(Ror32(x, 16)) == RotWord(RotWord(Bytes(x)))
  {
  }

  lemma BytesOfRor24(x: bv32)
    ensures Bytes(Ror32(x, 24)) == RotWord(RotWord(RotWord(Bytes(x))))
  {
  }

  function Swap(x: bv32): bv32 {
    (x >> 24) | ((x >> 8) & 0xff00) | ((x << 8) & 0xff0000) | (x << 24)
  }

  lemma BytesOfSwap(x: bv32)
    ensures Bytes(Swap(x)) == Column(Byte(x, 3), Byte(x, 2), Byte(x, 1), Byte(x, 0))
  {
  }

  function StarX(x: bv32): bv32 {
    ((x & 0x7f7f7f7f) << 1) ^ (((x & 0x80808080) >> 7) * 0x1b)
  }

  lemma BytesOfStarX(x: bv32)
    ensures Bytes(StarX(x)) == Column(Xtime(Byte(x, 0)), Xtime(Byte(x, 1)), Xtime(Byte(x, 2)), Xtime(Byte(x, 3)))
  {
  }
}
