/**
 One 64-bit word of the port array, bit by bit.
 */
module PortBits {

  // Named, so that proofs about them need not look inside.
  function And(a: bv64, b: bv64): bv64 { a & b }

  function Or(a: bv64, b: bv64): bv64 { a | b }

  function AndNot(a: bv64, b: bv64): bv64 { a & !b }

  function Shifted(x: bv7): bv64
    requires x < 64
  {
    (1 as bv64) << x
  }

  /** (1LL << b) */
  function Bit(b: nat): bv64
    requires b < 64
  {
    Shifted(b as bv7)
  }

  predicate Has(word: bv64, b: nat)
    requires b < 64
  {
    And(word, Bit(b)) != 0
  }

  // ------------------------------------------------ masks

  lemma ShiftedSet(x: bv7)
    requires x < 64
    ensures Shifted(x) != 0
  {
  }

  lemma ShiftedApart(x: bv7, y: bv7)
    requires x < 64 && y < 64 && x != y
    ensures And(Shifted(x), Shifted(y)) == 0
  {
  }

  lemma SameMask(word: bv64, m: bv64)
    requires m != 0
    ensures And(Or(word, m), m) != 0
  {
    assert (word | m) & m == m;
  }

  lemma SameMaskCleared(word: bv64, m: bv64)
    ensures And(AndNot(word, m), m) == 0
  {
  }

  lemma OtherMask(word: bv64, m: bv64, n: bv64)
    requires And(m, n) == 0
    ensures And(Or(word, m), n) == And(word, n)
  {
  }

  lemma OtherMaskCleared(word: bv64, m: bv64, n: bv64)
    requires And(m, n) == 0
    ensures And(AndNot(word, m), n) == And(word, n)
  {
  }

  lemma Narrow(b: nat)
    requires b < 64
    ensures (b as bv7) < 64 && (b as bv7) as nat == b
  {
  }

  lemma BitSet(b: nat)
    requires b < 64
    ensures Bit(b) != 0
  {
    ShiftedSet(b as bv7);
    hide Shifted;
  }

  lemma BitsApart(b: nat, c: nat)
    requires b < 64 && c < 64 && b != c
    ensures And(Bit(b), Bit(c)) == 0
  {
    hide Shifted, And;
    Narrow(b);
    Narrow(c);
    ShiftedApart(b as bv7, c as bv7);
  }

  /** Setting one bit leaves the others alone. */
  lemma SetHas(word: bv64, b: nat, c: nat)
    requires b < 64 && c < 64
    ensures Has(Or(word, Bit(b)), c) <==> c == b || Has(word, c)
  {
    hide Bit, And, Or;
    if b == c {
      BitSet(b);
      SameMask(word, Bit(b));
    } else {
      BitsApart(b, c);
      OtherMask(word, Bit(b), Bit(c));
    }
  }

  /** Clearing one bit leaves the others alone. */
  lemma ClearHas(word: bv64, b: nat, c: nat)
    requires b < 64 && c < 64
    ensures Has(AndNot(word, Bit(b)), c) <==> c != b && Has(word, c)
  {
    hide Bit, And, AndNot;
    if b == c {
      SameMaskCleared(word, Bit(b));
    } else {
      BitsApart(b, c);
      OtherMaskCleared(word, Bit(b), Bit(c));
    }
  }

  // ------------------------------------------------ a word without bits is zero

  function Low(x: bv7): bv64
    requires x <= 64
  {
    if x == 64 then 0xFFFF_FFFF_FFFF_FFFF else ((1 as bv64) << x) - 1
  }

  lemma LowStep(x: bv7)
    requires x < 64
    ensures Low(x + 1) == Or(Low(x), Shifted(x))
  {
  }

  lemma Neither(word: bv64, m: bv64, n: bv64)
    requires And(word, m) == 0 && And(word, n) == 0
    ensures And(word, Or(m, n)) == 0
  {
  }

  lemma Previous(x: bv7)
    requires 0 < x <= 64
    ensures (x - 1) as nat < x as nat && (x - 1) as nat < 64
  {
  }

  lemma Widened(x: bv7)
    requires x < 64
    ensures x as nat < 64 && (x as nat) as bv7 == x
  {
  }

  lemma {:induction false} NoneBelow(word: bv64, x: bv7)
    requires x <= 64 && forall b: nat :: b < 64 ==> !Has(word, b)
    ensures And(word, Low(x)) == 0
    decreases x as nat
  {
    if x == 0 {
      assert Low(0) == 0;
    } else {
      var y := x - 1;
      Previous(x);
      Widened(y);
      assert y + 1 == x && y < 64;
      LowStep(y);
      hide And, Or, Low, Shifted;
      NoneBelow(word, y);
      assert !Has(word, y as nat);
      Neither(word, Low(y), Shifted(y));
    }
  }

  lemma AllOnes(word: bv64)
    requires And(word, 0xFFFF_FFFF_FFFF_FFFF) == 0
    ensures word == 0
  {
  }

  /** A word is zero exactly when none of its bits is set. */
  lemma ZeroIff(word: bv64)
    ensures word == 0 <==> forall b: nat :: b < 64 ==> !Has(word, b)
  {
    if forall b: nat :: b < 64 ==> !Has(word, b) {
      NoneBelow(word, 64);
      AllOnes(word);
    }
  }

  /** ffsll: the number of the first bit set, counting from 1, or 0. */
  method FirstSet(word: bv64) returns (bit: nat)
    ensures bit <= 64 && (bit == 0 <==> word == 0)
    ensures bit > 0 ==> Has(word, bit - 1) && forall b: nat :: b < bit - 1 ==> !Has(word, b)
  {
    hide Bit;
    ZeroIff(word);
    for i := 0 to 64
      invariant forall b: nat :: b < i ==> !Has(word, b)
    {
      if Has(word, i) {
        return i + 1;
      }
    }
    bit := 0;
  }
}
