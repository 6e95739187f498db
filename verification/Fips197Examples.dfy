/**
 The examples of FIPS 197: the expanded keys of appendices A.1 to A.3, and the rounds of
 appendix B.
 */
module Fips197Examples {
  import opened Fips197

  /** Four bytes in order, the first on top. */
  function Bytes(x: bv32): Column {
    Column((x >> 24) as bv8, ((x >> 16) & 0xff) as bv8, ((x >> 8) & 0xff) as bv8, (x & 0xff) as bv8)
  }

  function Block(a: bv32, b: bv32, c: bv32, d: bv32): State {
    State(Bytes(a), Bytes(b), Bytes(c), Bytes(d))
  }

  ghost predicate WordIs(key: seq<Column>, i: nat, x: bv32)
    requires KeyWords(key)
  {
    Word(SBox, key, i) == Bytes(x)
  }

  /** What the recurrence adds to the word |key| back, the constant given. */
  function Temp(nk: nat, i: nat, last: Column, rcon: bv8): Column
    requires nk > 0
  {
    if i % nk == 0 then AddColumn(SubWord(SBox, RotWord(last)), Column(rcon, 0, 0, 0))
    else if nk > 6 && i % nk == 4 then SubWord(SBox, last)
    else last
  }

  lemma Rcons()
    ensures Rcon(1) == 0x01 && Rcon(2) == 0x02 && Rcon(3) == 0x04 && Rcon(4) == 0x08 && Rcon(5) == 0x10
    ensures Rcon(6) == 0x20 && Rcon(7) == 0x40 && Rcon(8) == 0x80 && Rcon(9) == 0x1b && Rcon(10) == 0x36
  {
  }

  lemma Step(key: seq<Column>, i: nat)
    requires KeyWords(key) && i >= |key|
    ensures Word(SBox, key, i) ==
            AddColumn(Word(SBox, key, i - |key|), Temp(|key|, i, Word(SBox, key, i - 1), Rcon(i / |key|)))
  {
    hide SBox, Rcon;
  }

  // ------------------------------------------------ a key of 128 bits

  const KEY128 := [Bytes(0x2b7e1516), Bytes(0x28aed2a6), Bytes(0xabf71588), Bytes(0x09cf4f3c)]

  lemma Key128From4()
    ensures WordIs(KEY128, 4, 0xa0fafe17) && WordIs(KEY128, 5, 0x88542cb1) && WordIs(KEY128, 6, 0x23a33939)
    ensures WordIs(KEY128, 7, 0x2a6c7605)
  {
    assert forall i :: 0 <= i < 4 ==> Word(SBox, KEY128, i) == KEY128[i];
    Rcons();
    hide Word, Rcon;
    Step(KEY128, 4); Step(KEY128, 5); Step(KEY128, 6); Step(KEY128, 7);
  }

  /** The expansion begins as the standard says. */
  lemma ExpandsKey128()
    ensures WordIs(KEY128, 8, 0xf2c295f2) && WordIs(KEY128, 9, 0x7a96b943) && WordIs(KEY128, 10, 0x5935807a)
    ensures WordIs(KEY128, 11, 0x7359f67f)
  {
    Rcons();
    hide Word, Rcon;
    Key128From4();
    Step(KEY128, 8); Step(KEY128, 9); Step(KEY128, 10); Step(KEY128, 11);
  }

  // ------------------------------------------------ a key of 192 bits

  const KEY192 := [Bytes(0x8e73b0f7), Bytes(0xda0e6452), Bytes(0xc810f32b), Bytes(0x809079e5), Bytes(0x62f8ead2),
                   Bytes(0x522c6b7b)]

  lemma Key192From6()
    ensures WordIs(KEY192, 6, 0xfe0c91f7) && WordIs(KEY192, 7, 0x2402f5a5) && WordIs(KEY192, 8, 0xec12068e)
  {
    assert forall i :: 0 <= i < 6 ==> Word(SBox, KEY192, i) == KEY192[i];
    Rcons();
    hide Word, Rcon;
    Step(KEY192, 6); Step(KEY192, 7); Step(KEY192, 8);
  }

  lemma Key192From9()
    ensures WordIs(KEY192, 9, 0x6c827f6b) && WordIs(KEY192, 10, 0x0e7a95b9) && WordIs(KEY192, 11, 0x5c56fec2)
  {
    assert forall i :: 0 <= i < 6 ==> Word(SBox, KEY192, i) == KEY192[i];
    hide Word, Rcon;
    Key192From6();
    Step(KEY192, 9); Step(KEY192, 10); Step(KEY192, 11);
  }

  lemma Key192From12()
    ensures WordIs(KEY192, 12, 0x4db7b4bd) && WordIs(KEY192, 13, 0x69b54118) && WordIs(KEY192, 14, 0x85a74796)
  {
    Rcons();
    hide Word, Rcon;
    Key192From6();
    Key192From9();
    Step(KEY192, 12); Step(KEY192, 13); Step(KEY192, 14);
  }

  /** The expansion begins as the standard says. */
  lemma ExpandsKey192()
    ensures WordIs(KEY192, 15, 0xe92538fd) && WordIs(KEY192, 16, 0xe75fad44) && WordIs(KEY192, 17, 0xbb095386)
  {
    hide Word, Rcon;
    Key192From9();
    Key192From12();
    Step(KEY192, 15); Step(KEY192, 16); Step(KEY192, 17);
  }

  // ------------------------------------------------ a key of 256 bits

  const KEY256 := [Bytes(0x603deb10), Bytes(0x15ca71be), Bytes(0x2b73aef0), Bytes(0x857d7781), Bytes(0x1f352c07),
                   Bytes(0x3b6108d7), Bytes(0x2d9810a3), Bytes(0x0914dff4)]

  lemma Key256From8()
    ensures WordIs(KEY256, 8, 0x9ba35411) && WordIs(KEY256, 9, 0x8e6925af) && WordIs(KEY256, 10, 0xa51a8b5f)
    ensures WordIs(KEY256, 11, 0x2067fcde)
  {
    assert forall i :: 0 <= i < 8 ==> Word(SBox, KEY256, i) == KEY256[i];
    Rcons();
    hide Word, Rcon;
    Step(KEY256, 8); Step(KEY256, 9); Step(KEY256, 10); Step(KEY256, 11);
  }

  lemma Key256From12()
    ensures WordIs(KEY256, 12, 0xa8b09c1a) && WordIs(KEY256, 13, 0x93d194cd) && WordIs(KEY256, 14, 0xbe49846e)
    ensures WordIs(KEY256, 15, 0xb75d5b9a)
  {
    assert forall i :: 0 <= i < 8 ==> Word(SBox, KEY256, i) == KEY256[i];
    hide Word, Rcon;
    Key256From8();
    Step(KEY256, 12); Step(KEY256, 13); Step(KEY256, 14); Step(KEY256, 15);
  }

  lemma Key256From16()
    ensures WordIs(KEY256, 16, 0xd59aecb8) && WordIs(KEY256, 17, 0x5bf3c917) && WordIs(KEY256, 18, 0xfee94248)
    ensures WordIs(KEY256, 19, 0xde8ebe96)
  {
    Rcons();
    hide Word, Rcon;
    Key256From8();
    Key256From12();
    Step(KEY256, 16); Step(KEY256, 17); Step(KEY256, 18); Step(KEY256, 19);
  }

  /** The expansion begins as the standard says. */
  lemma ExpandsKey256()
    ensures WordIs(KEY256, 20, 0xb5a9328a) && WordIs(KEY256, 21, 0x2678a647) && WordIs(KEY256, 22, 0x98312229)
    ensures WordIs(KEY256, 23, 0x2f6c79b3)
  {
    hide Word, Rcon;
    Key256From12();
    Key256From16();
    Step(KEY256, 20); Step(KEY256, 21); Step(KEY256, 22); Step(KEY256, 23);
  }

  // ------------------------------------------------ a block

  const PLAIN := Block(0x3243f6a8, 0x885a308d, 0x313198a2, 0xe0370734)

  /** The round keys of the example, appendix A.1. */
  const ROUND_KEYS := [Block(0x2b7e1516, 0x28aed2a6, 0xabf71588, 0x09cf4f3c),
                       Block(0xa0fafe17, 0x88542cb1, 0x23a33939, 0x2a6c7605),
                       Block(0xf2c295f2, 0x7a96b943, 0x5935807a, 0x7359f67f),
                       Block(0x3d80477d, 0x4716fe3e, 0x1e237e44, 0x6d7a883b),
                       Block(0xef44a541, 0xa8525b7f, 0xb671253b, 0xdb0bad00),
                       Block(0xd4d1c6f8, 0x7c839d87, 0xcaf2b8bc, 0x11f915bc),
                       Block(0x6d88a37a, 0x110b3efd, 0xdbf98641, 0xca0093fd),
                       Block(0x4e54f70e, 0x5f5fc9f3, 0x84a64fb2, 0x4ea6dc4f),
                       Block(0xead27321, 0xb58dbad2, 0x312bf560, 0x7f8d292f),
                       Block(0xac7766f3, 0x19fadc21, 0x28d12941, 0x575c006e),
                       Block(0xd014f9a8, 0xc9ee2589, 0xe13f0cc8, 0xb6630ca6)]

  /** The state after the initial AddRoundKey and after each of the rounds that follow. */
  const STATES := [Block(0x193de3be, 0xa0f4e22b, 0x9ac68d2a, 0xe9f84808),
                   Block(0xa49c7ff2, 0x689f352b, 0x6b5bea43, 0x026a5049),
                   Block(0xaa8f5f03, 0x61dde3ef, 0x82d24ad2, 0x6832469a),
                   Block(0x486c4eee, 0x671d9d0d, 0x4de3b138, 0xd65f58e7),
                   Block(0xe0927fe8, 0xc86363c0, 0xd9b13550, 0x85b8be01),
                   Block(0xf1006f55, 0xc1924cef, 0x7cc88b32, 0x5db5d50c),
                   Block(0x260e2e17, 0x3d41b77d, 0xe86472a9, 0xfdd28b25),
                   Block(0x5a4142b1, 0x1949dc1f, 0xa3e01965, 0x7a8c040c),
                   Block(0xea835cf0, 0x0445332d, 0x655d98ad, 0x8596b0c5),
                   Block(0xeb40f21e, 0x592e3884, 0x8ba113e7, 0x1bc342d2)]

  lemma Round1()
    ensures Round(SBox, Block(0x193de3be, 0xa0f4e22b, 0x9ac68d2a, 0xe9f84808),
                  Block(0xa0fafe17, 0x88542cb1, 0x23a33939, 0x2a6c7605)) ==
            Block(0xa49c7ff2, 0x689f352b, 0x6b5bea43, 0x026a5049)
  {
  }

  lemma Round2()
    ensures Round(SBox, Block(0xa49c7ff2, 0x689f352b, 0x6b5bea43, 0x026a5049),
                  Block(0xf2c295f2, 0x7a96b943, 0x5935807a, 0x7359f67f)) ==
            Block(0xaa8f5f03, 0x61dde3ef, 0x82d24ad2, 0x6832469a)
  {
  }

  lemma Round3()
    ensures Round(SBox, Block(0xaa8f5f03, 0x61dde3ef, 0x82d24ad2, 0x6832469a),
                  Block(0x3d80477d, 0x4716fe3e, 0x1e237e44, 0x6d7a883b)) ==
            Block(0x486c4eee, 0x671d9d0d, 0x4de3b138, 0xd65f58e7)
  {
  }

  lemma Round4()
    ensures Round(SBox, Block(0x486c4eee, 0x671d9d0d, 0x4de3b138, 0xd65f58e7),
                  Block(0xef44a541, 0xa8525b7f, 0xb671253b, 0xdb0bad00)) ==
            Block(0xe0927fe8, 0xc86363c0, 0xd9b13550, 0x85b8be01)
  {
  }

  lemma Round5()
    ensures Round(SBox, Block(0xe0927fe8, 0xc86363c0, 0xd9b13550, 0x85b8be01),
                  Block(0xd4d1c6f8, 0x7c839d87, 0xcaf2b8bc, 0x11f915bc)) ==
            Block(0xf1006f55, 0xc1924cef, 0x7cc88b32, 0x5db5d50c)
  {
  }

  lemma Round6()
    ensures Round(SBox, Block(0xf1006f55, 0xc1924cef, 0x7cc88b32, 0x5db5d50c),
                  Block(0x6d88a37a, 0x110b3efd, 0xdbf98641, 0xca0093fd)) ==
            Block(0x260e2e17, 0x3d41b77d, 0xe86472a9, 0xfdd28b25)
  {
  }

  lemma Round7()
    ensures Round(SBox, Block(0x260e2e17, 0x3d41b77d, 0xe86472a9, 0xfdd28b25),
                  Block(0x4e54f70e, 0x5f5fc9f3, 0x84a64fb2, 0x4ea6dc4f)) ==
            Block(0x5a4142b1, 0x1949dc1f, 0xa3e01965, 0x7a8c040c)
  {
  }

  lemma Round8()
    ensures Round(SBox, Block(0x5a4142b1, 0x1949dc1f, 0xa3e01965, 0x7a8c040c),
                  Block(0xead27321, 0xb58dbad2, 0x312bf560, 0x7f8d292f)) ==
            Block(0xea835cf0, 0x0445332d, 0x655d98ad, 0x8596b0c5)
  {
  }

  lemma Round9()
    ensures Round(SBox, Block(0xea835cf0, 0x0445332d, 0x655d98ad, 0x8596b0c5),
                  Block(0xac7766f3, 0x19fadc21, 0x28d12941, 0x575c006e)) ==
            Block(0xeb40f21e, 0x592e3884, 0x8ba113e7, 0x1bc342d2)
  {
  }

  lemma FirstAndLast()
    ensures AddRoundKey(PLAIN, Block(0x2b7e1516, 0x28aed2a6, 0xabf71588, 0x09cf4f3c)) ==
            Block(0x193de3be, 0xa0f4e22b, 0x9ac68d2a, 0xe9f84808)
    ensures LastRound(SBox, Block(0xeb40f21e, 0x592e3884, 0x8ba113e7, 0x1bc342d2),
                      Block(0xd014f9a8, 0xc9ee2589, 0xe13f0cc8, 0xb6630ca6)) ==
            Block(0x3925841d, 0x02dc09fb, 0xdc118597, 0x196a0b32)
  {
  }

  lemma {:induction false} StateAfter(w: seq<State>, states: seq<State>, block: State, r: nat)
    requires r < |states| < |w| && AddRoundKey(block, w[0]) == states[0]
    requires forall i {:trigger states[i]} :: 0 < i < |states| ==> Round(SBox, states[i - 1], w[i]) == states[i]
    ensures AfterRounds(SBox, w, block, r) == states[r]
  {
    hide SBox, Round, AddRoundKey;
    if r > 0 { StateAfter(w, states, block, r - 1); }
  }

  /** The Cipher turns the example's block into what appendix B says. */
  lemma EnciphersExample()
    ensures Cipher(SBox, ROUND_KEYS, PLAIN) ==
            Block(0x3925841d, 0x02dc09fb, 0xdc118597, 0x196a0b32)
  {
    Round1();
    Round2();
    Round3();
    Round4();
    Round5();
    Round6();
    Round7();
    Round8();
    Round9();
    FirstAndLast();
    hide SBox, Round, AddRoundKey, LastRound, AfterRounds, Block, Bytes;
    StateAfter(ROUND_KEYS, STATES, PLAIN, 9);
  }
}
