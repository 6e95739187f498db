/**
 The ring buffer: a byte array, two published offsets, and the cached offsets of the
 two sides that share it.
 */
module Ring {
  import opened Masks
  import opened RingSpec

  const ENOMEM := 12

  // ------------------------------------------------ positions and their slots

  ghost predicate SlotAt(slot: nat -> nat, size: nat, p: nat)
    requires size > 0
  {
    slot(p) == Slot(p, size)
  }

  /** `slot` is the remainder by `size`. */
  ghost predicate Slots(slot: nat -> nat, size: nat, word: nat) {
    RingSize(size, word) && forall p :: SlotAt(slot, size, p)
  }

  lemma SlotBound(slot: nat -> nat, size: nat, word: nat, p: nat)
    requires Slots(slot, size, word)
    ensures slot(p) < size <= word
  {
    assert SlotAt(slot, size, p);
  }

  lemma CountOf(slot: nat -> nat, size: nat, word: nat, w: nat, r: nat)
    requires Slots(slot, size, word) && r <= w < r + size
    ensures slot(r) <= slot(w) + word && CircCount(slot(w), slot(r), size, word) == w - r
  {
    assert SlotAt(slot, size, w) && SlotAt(slot, size, r);
    CircCountIsDistance(w, r, size, word);
  }

  lemma SpaceOf(slot: nat -> nat, size: nat, word: nat, w: nat, r: nat)
    requires Slots(slot, size, word) && r <= w < r + size
    ensures slot(w) + 1 <= slot(r) + word && CircSpace(slot(w), slot(r), size, word) == size - 1 - (w - r)
  {
    assert SlotAt(slot, size, w) && SlotAt(slot, size, r);
    CircSpaceIsRoom(w, r, size, word);
  }

  lemma ReadSlot(slot: nat -> nat, size: nat, word: nat, p: nat, j: nat)
    requires Slots(slot, size, word) && j < size
    ensures slot(p + j) == if slot(p) + j < size then slot(p) + j else slot(p) + j - size
  {
    assert SlotAt(slot, size, p + j) && SlotAt(slot, size, p);
    SlotAdd(p, j, size);
  }

  /** Every byte from the released position on is in its slot. */
  ghost predicate InSlots(s: State, b: seq<Byte>, slot: nat -> nat) {
    forall p :: s.released <= p < |s.written| ==> slot(p) < |b| && b[slot(p)] == s.written[p]
  }

  /** A buffer with `msg` copied in from `offset` on, going round. */
  function Overlay(b: seq<Byte>, offset: nat, msg: seq<Byte>): (r: seq<Byte>)
    requires offset < |b|
    ensures |r| == |b|
  {
    seq(|b|, i requires 0 <= i < |b| =>
      if Ahead(offset, i, |b|) < |msg| then msg[Ahead(offset, i, |b|)] else b[i])
  }

  /** No unreleased byte is overwritten by a write that fits behind the writer's copy of the read position. */
  lemma KeepsBytes(s: State, before: seq<Byte>, after: seq<Byte>, msg: seq<Byte>, slot: nat -> nat, word: nat)
    requires Inv(s) && |msg| <= Room(s)
    requires |before| == s.size && InSlots(s, before, slot)
    requires Slots(slot, s.size, word) && slot(|s.written|) < s.size
    requires after == Overlay(before, slot(|s.written|), msg)
    ensures Inv(s.(written := s.written + msg)) && InSlots(s.(written := s.written + msg), after, slot)
  {
    forall p | s.released <= p < |s.written| + |msg|
      ensures slot(p) < |after| && after[slot(p)] == (s.written + msg)[p]
    {
      assert SlotAt(slot, s.size, p) && SlotAt(slot, s.size, |s.written|);
      AheadOfPosition(|s.written|, p, s.size);
    }
  }

  /** `n` bytes of a buffer from `offset` on, going round. */
  function Window(b: seq<Byte>, offset: nat, n: nat): (r: seq<Byte>)
    requires offset < |b| && n < |b|
    ensures |r| == n
  {
    if offset + n >= |b| then b[offset..] + b[..offset + n - |b|] else b[offset..offset + n]
  }

  lemma WindowAt(b: seq<Byte>, offset: nat, n: nat, j: nat)
    requires offset < |b| && j < n < |b|
    ensures Window(b, offset, n)[j] == b[if offset + j < |b| then offset + j else offset + j - |b|]
  {
  }

  /** A read of committed bytes returns what was written. */
  lemma ReadsBytes(s: State, b: seq<Byte>, n: nat, slot: nat -> nat, word: nat)
    requires Inv(s) && |b| == s.size && InSlots(s, b, slot) && s.read + n <= s.seen
    requires Slots(slot, s.size, word) && slot(s.read) < s.size
    ensures Window(b, slot(s.read), n) == s.written[s.read..s.read + n]
  {
    hide Slots, InSlots;
    forall j | 0 <= j < n ensures Window(b, slot(s.read), n)[j] == s.written[s.read + j] {
      hide Window;
      ReadsByte(s, b, n, slot, word, j);
    }
  }

  lemma ReadsByte(s: State, b: seq<Byte>, n: nat, slot: nat -> nat, word: nat, j: nat)
    requires Inv(s) && |b| == s.size && InSlots(s, b, slot) && s.read + n <= s.seen && j < n
    requires Slots(slot, s.size, word) && slot(s.read) < s.size
    ensures Window(b, slot(s.read), n)[j] == s.written[s.read + j]
  {
    WindowAt(b, slot(s.read), n, j);
    ReadSlot(slot, s.size, word, s.read, j);
    hide Window, Slots;
  }

  // ------------------------------------------------ the ring

  method Memcpy(dst: array<Byte>, offset: nat, src: seq<Byte>)
    requires offset + |src| <= dst.Length
    modifies dst
    ensures dst[..] == old(dst[..offset]) + src + old(dst[offset + |src|..])
  {
    for i := 0 to |src|
      invariant dst[..] == old(dst[..offset]) + src[..i] + old(dst[offset + i..])
    {
      dst[offset + i] := src[i];
    }
  }

  /** Both ends of one queue: the writer's context, the reader's context, and what they share. */
  class RingBuffer {
    const base: array<Byte>
    const size: nat
    const word: nat // words wrap here: 2^32

    // shared: published offsets
    var readPtr: nat
    var writePtr: nat

    // the writer's context: its own offset and its copy of the read pointer
    var writerWrite: nat
    var writerRead: nat

    // the reader's context: its own offset and its copy of the write pointer
    var readerRead: nat
    var readerWrite: nat

    /** The queue this ring stands for, and the slot of each of its positions. */
    ghost var st: State
    ghost const slot: nat -> nat

    /** Offsets are positions modulo the size, and every byte from the released position on is in its slot. */
    ghost predicate Valid()
      reads this, base
    {
      && Slots(slot, size, word) && base.Length == size
      && st.size == size && Inv(st)
      && readPtr == slot(st.released) && writePtr == slot(st.committed)
      && writerWrite == slot(|st.written|) && writerRead == slot(st.freed)
      && readerRead == slot(st.read) && readerWrite == slot(st.seen)
      && InSlots(st, base[..], slot)
    }

    /** micscif_rb_init on both sides of an empty queue whose size is a power of two. */
    constructor (logSize: nat)
      requires logSize <= 32
      ensures Valid() && fresh(base) && st == Initial(Pow2(logSize))
    {
      base := new Byte[Pow2(logSize)];
      size, word := Pow2(logSize), Pow2(32);
      slot := (p: nat) => Slot(p, Pow2(logSize));
      readPtr, writePtr, writerWrite, writerRead, readerRead, readerWrite := 0, 0, 0, 0, 0, 0;
      st := Initial(Pow2(logSize));
      Pow2IsRingSize(logSize, 32);
    }

    /** micscif_rb_space */
    method Space() returns (n: nat)
      requires Valid()
      modifies this
      ensures Valid() && st == Refresh(old(st))
      ensures n == RingSpec.Space(old(st))
    {
      writerRead := readPtr;
      st := Refresh(st);
      SpaceOf(slot, size, word, |st.written|, st.freed);
      n := CircSpace(writerWrite, writerRead, size, word);
    }

    /** An offset moved on by `n`, masked to the size. */
    method Advance(offset: nat, n: nat, ghost p: nat, ghost q: nat) returns (next: nat)
      requires Slots(slot, size, word) && offset == slot(p) && n < size && q == p + n
      ensures next == slot(q)
    {
      assert SlotAt(slot, size, p) && SlotAt(slot, size, q);
      MaskAdvances(p, n, size, word);
      next := And(offset + n, size - 1);
    }

    /** memcpy_torb: one copy, or two around the end of the buffer. */
    method CopyIn(offset: nat, msg: seq<Byte>)
      requires base.Length == size && offset < size && |msg| < size
      modifies base
      ensures base[..] == Overlay(old(base[..]), offset, msg)
    {
      if offset + |msg| >= size {
        var size1 := size - offset;
        Memcpy(base, offset, msg[..size1]);
        Memcpy(base, 0, msg[size1..]);
      } else {
        Memcpy(base, offset, msg);
      }
    }

    /** memcpy_fromrb */
    method CopyOut(offset: nat, n: nat) returns (msg: seq<Byte>)
      requires base.Length == size && offset < size && n < size
      ensures msg == Window(base[..], offset, n)
    {
      if offset + n >= size {
        var size1 := size - offset;
        msg := base[offset..] + base[..n - size1];
      } else {
        msg := base[offset..offset + n];
      }
    }

    /** micscif_rb_write */
    method Write(msg: seq<Byte>) returns (ret: int)
      requires Valid()
      modifies this, base
      ensures Valid() && st == RingSpec.Write(old(st), msg)
      ensures ret == if RingSpec.Space(old(st)) < |msg| then -ENOMEM else 0
    {
      var space := Space();
      if space < |msg| {
        ret := -ENOMEM;
      } else {
        Append(msg);
        ret := 0;
      }
    }

    /** The part of micscif_rb_write behind the test for space; the reader may have released more since. */
    method Append(msg: seq<Byte>)
      requires Valid() && |msg| <= Room(st)
      modifies this, base
      ensures Valid() && st == RingSpec.Append(old(st), msg)
    {
      SlotBound(slot, size, word, |st.written|);
      ghost var before := base[..];
      CopyIn(writerWrite, msg);
      KeepsBytes(st, before, base[..], msg, slot, word);
      ghost var written := st.written + msg;
      writerWrite := Advance(writerWrite, |msg|, |st.written|, |written|);
      st := st.(written := written);
    }

    /** micscif_rb_commit */
    method Commit()
      requires Valid()
      modifies this
      ensures Valid() && st == RingSpec.Commit(old(st))
    {
      writePtr := writerWrite;
      st := RingSpec.Commit(st);
    }

    /** micscif_rb_count */
    method Count(n: nat) returns (count: nat)
      requires Valid()
      modifies this
      ensures Valid() && st == Look(old(st), n)
      ensures count == RingSpec.Count(old(st), n)
    {
      CountOf(slot, size, word, st.seen, st.read);
      if CircCount(readerWrite, readerRead, size, word) < n {
        readerWrite := writePtr;
      }
      st := Look(st, n);
      CountOf(slot, size, word, st.seen, st.read);
      count := CircCount(readerWrite, readerRead, size, word);
    }

    /** micscif_rb_get_next: `n` bytes, or none; the bytes stay unreleased. */
    method GetNext(n: nat) returns (msg: seq<Byte>, readSize: nat)
      requires Valid()
      modifies this
      ensures Valid() && st == RingSpec.GetNext(old(st), n)
      ensures msg == Got(old(st), n)
      ensures readSize == if RingSpec.Count(old(st), n) < n then 0 else n
    {
      var count := Count(n);
      if count < n {
        return [], 0;
      }
      msg := Take(n);
      readSize := n;
    }

    /** The part of micscif_rb_get_next behind the count. */
    method Take(n: nat) returns (msg: seq<Byte>)
      requires Valid() && st.read + n <= st.seen
      modifies this
      ensures Valid() && st == old(st).(read := old(st.read) + n)
      ensures msg == old(st.written[st.read..st.read + n])
    {
      SlotBound(slot, size, word, st.read);
      msg := CopyOut(readerRead, n);
      ReadsBytes(st, base[..], n, slot, word);
      hide InSlots;
      readerRead := Advance(readerRead, n, st.read, st.read + n);
      st := st.(read := st.read + n);
    }

    /** micscif_rb_update_read_ptr */
    method UpdateReadPtr()
      requires Valid()
      modifies this
      ensures Valid() && st == Release(old(st))
    {
      readPtr := readerRead;
      st := Release(st);
    }
  }
}
