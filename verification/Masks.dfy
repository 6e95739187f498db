/**
 Offsets of a ring whose size is a power of two: masking with size - 1 takes the
 remainder by size, also of differences that wrap around 32 bits.
 */
module Masks {
  function Pow2(k: nat): (p: nat)
    ensures p > 0
  {
    if k == 0 then 1 else 2 * Pow2(k - 1)
  }

  /** Bitwise and. */
  function And(x: nat, y: nat): nat {
    if x == 0 || y == 0 then 0
    else (if x % 2 == 1 && y % 2 == 1 then 1 else 0) + 2 * And(x / 2, y / 2)
  }

  /** The remainder of `p` by `size`: the slot of a ring in which position `p` lies. */
  function Slot(p: nat, size: nat): (s: nat)
    requires size > 0
    ensures s < size
  {
    if p < size then p else Slot(p - size, size)
  }

  // ------------------------------------------------ masking takes remainders

  lemma {:induction false} AndSmall(x: nat, k: nat)
    requires x < Pow2(k)
    ensures And(x, Pow2(k) - 1) == x
  {
    if k > 0 && x > 0 {
      AndSmall(x / 2, k - 1);
    }
  }

  lemma {:induction false} AndDropsHigh(x: nat, k: nat)
    ensures And(x + Pow2(k), Pow2(k) - 1) == And(x, Pow2(k) - 1)
  {
    if k > 0 {
      AndDropsHigh(x / 2, k - 1);
      assert (x + Pow2(k)) / 2 == x / 2 + Pow2(k - 1);
    }
  }

  lemma {:induction false} AndIsSlot(x: nat, k: nat)
    ensures And(x, Pow2(k) - 1) == Slot(x, Pow2(k))
    decreases x
  {
    if x < Pow2(k) {
      AndSmall(x, k);
    } else {
      AndDropsHigh(x - Pow2(k), k);
      AndIsSlot(x - Pow2(k), k);
    }
  }

  // ------------------------------------------------ slots

  lemma {:induction false} SlotAdd(p: nat, n: nat, size: nat)
    requires size > 0 && n < size
    ensures Slot(p + n, size) == if Slot(p, size) + n < size then Slot(p, size) + n else Slot(p, size) + n - size
    decreases p
  {
    if p >= size {
      SlotAdd(p - size, n, size);
    }
  }

  // ------------------------------------------------ the circular buffer macros

  lemma {:induction false} Pow2Monotone(k: nat, j: nat)
    requires k <= j
    ensures Pow2(k) <= Pow2(j)
    decreases j
  {
    if k < j {
      Pow2Monotone(k, j - 1);
    }
  }

  lemma {:induction false} SlotOfMultiple(x: nat, k: nat, j: nat)
    requires k <= j
    ensures Slot(x + Pow2(j), Pow2(k)) == Slot(x, Pow2(k))
    decreases j
  {
    if k < j {
      SlotOfMultiple(x + Pow2(j - 1), k, j - 1);
      SlotOfMultiple(x, k, j - 1);
    }
  }

  ghost predicate MasksAt(size: nat, x: nat)
    requires size > 0
  {
    And(x, size - 1) == Slot(x, size)
  }

  ghost predicate WrapsAt(size: nat, word: nat, x: nat)
    requires size > 0
  {
    Slot(x + word, size) == Slot(x, size)
  }

  /** `size - 1` masks out the remainder by `size`, and words wrap at a multiple of `size`. */
  ghost predicate RingSize(size: nat, word: nat) {
    && 0 < size <= word
    && (forall x :: MasksAt(size, x))
    && (forall x :: WrapsAt(size, word, x))
  }

  /** Powers of two are ring sizes. */
  lemma Pow2IsRingSize(k: nat, j: nat)
    requires k <= j
    ensures RingSize(Pow2(k), Pow2(j))
  {
    Pow2Monotone(k, j);
    forall x ensures MasksAt(Pow2(k), x) {
      AndIsSlot(x, k);
    }
    forall x ensures WrapsAt(Pow2(k), Pow2(j), x) {
      SlotOfMultiple(x, k, j);
    }
  }

  /** Subtraction of words that wrap at `word`. */
  function SubWord(a: nat, b: nat, word: nat): nat
    requires b <= a + word
  {
    if a >= b then a - b else a + word - b
  }

  /** CIRC_CNT(head, tail, size) */
  function CircCount(head: nat, tail: nat, size: nat, word: nat): nat
    requires size > 0 && tail <= head + word
  {
    And(SubWord(head, tail, word), size - 1)
  }

  /** CIRC_SPACE(head, tail, size) */
  function CircSpace(head: nat, tail: nat, size: nat, word: nat): nat
    requires size > 0 && head + 1 <= tail + word
  {
    CircCount(tail, head + 1, size, word)
  }

  /** The difference of a slot and an offset up to the size, wrapped or not, has the remainder of their distance. */
  lemma SubWordSlot(a: nat, b: nat, n: nat, size: nat, word: nat)
    requires RingSize(size, word) && a < size && b <= size && n < size && (a == b + n || a + size == b + n)
    ensures And(SubWord(a, b, word), size - 1) == n
  {
    assert MasksAt(size, SubWord(a, b, word));
    if a < b {
      assert WrapsAt(size, word, n);
      assert SubWord(a, b, word) + size == n + word;
      assert Slot(SubWord(a, b, word) + size, size) == Slot(SubWord(a, b, word), size);
    }
  }

  /** The count macro gives the distance of two positions from their slots, wrap-around included. */
  lemma CircCountIsDistance(w: nat, r: nat, size: nat, word: nat)
    requires RingSize(size, word) && r <= w < r + size
    ensures CircCount(Slot(w, size), Slot(r, size), size, word) == w - r
  {
    SlotAdd(r, w - r, size);
    SubWordSlot(Slot(w, size), Slot(r, size), w - r, size, word);
  }

  /** The space macro gives the room left behind the writer, one byte kept free. */
  lemma CircSpaceIsRoom(w: nat, r: nat, size: nat, word: nat)
    requires RingSize(size, word) && r <= w < r + size
    ensures CircSpace(Slot(w, size), Slot(r, size), size, word) == size - 1 - (w - r)
  {
    hide And, SubWord, Slot, RingSize;
    SlotAdd(r, w - r, size);
    SubWordSlot(Slot(r, size), Slot(w, size) + 1, size - 1 - (w - r), size, word);
  }

  /** Adding to an offset and masking moves the position. */
  lemma MaskAdvances(p: nat, n: nat, size: nat, word: nat)
    requires RingSize(size, word) && n < size
    ensures And(Slot(p, size) + n, size - 1) == Slot(p + n, size)
  {
    var x := Slot(p, size) + n;
    assert MasksAt(size, x);
    SlotAdd(p, n, size);
    if x >= size {
      assert Slot(x, size) == Slot(x - size, size);
    }
  }

  // ------------------------------------------------ distances on the ring

  /** How far ahead of slot `a` slot `i` lies, going round. */
  function Ahead(a: nat, i: nat, size: nat): nat
    requires a < size && i < size
  {
    if i >= a then i - a else i + size - a
  }

  lemma AheadOfPosition(a: nat, p: nat, size: nat)
    requires size > 0
    ensures a <= p < a + size ==> Ahead(Slot(a, size), Slot(p, size), size) == p - a
    ensures p < a < p + size ==> Ahead(Slot(a, size), Slot(p, size), size) == size - (a - p)
  {
    if a <= p < a + size {
      SlotAdd(a, p - a, size);
    }
    if p < a < p + size {
      SlotAdd(p, a - p, size);
    }
  }
}
