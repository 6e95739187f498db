/**
 Key expansion: three unrolled loops, one per key size, and the decryption schedule.
 */
module AesSchedule {
  import opened Fips197
  import opened FipsInverse
  import opened AesTables
  import opened AesWords
  import opened AesLookup
  import opened AesCipher

  /** ls_box: the four last-round tables applied to the bytes of a word. */
  function LsBox(tab: Tables, x: bv32): bv32 {
    SumWords(tab.fl0(Byte(x, 0)), tab.fl1(Byte(x, 1)), tab.fl2(Byte(x, 2)), tab.fl3(Byte(x, 3)))
  }

  lemma LsBoxIsSubWord(tab: Tables, box: Substitution, x: bv32)
    requires Computes(tab.fl0, tab.fl1, tab.fl2, tab.fl3, SubLookup(box))
    ensures Bytes(LsBox(tab, x)) == SubWord(box, Bytes(x))
  {
    assert Bytes(LsBox(tab, x)) == SubLookup(box)(Byte(x, 0), Byte(x, 1), Byte(x, 2), Byte(x, 3));
  }

  /** The first `n` words of `s` are those of `w`. */
  ghost predicate Expanded(s: seq<bv32>, w: nat -> bv32, n: nat) {
    n <= |s| && forall j :: 0 <= j < n ==> s[j] == w(j)
  }

  ghost predicate FollowsAt(w: nat -> bv32, box: Substitution, key: seq<Column>, j: nat)
    requires KeyWords(key)
  {
    Bytes(w(j)) == Word(box, key, j)
  }

  /** `w` lists the words of the expanded key. */
  ghost predicate Follows(w: nat -> bv32, box: Substitution, key: seq<Column>)
    requires KeyWords(key)
  {
    forall j :: FollowsAt(w, box, key, j)
  }

  lemma RcoTabIsRcon(i: nat)
    requires i < 10
    ensures Bytes(RcoTab(i)) == Column(Rcon(i + 1), 0, 0, 0)
  {
    assert Rcon(1) == 1 && Rcon(2) == 2 && Rcon(3) == 4 && Rcon(4) == 8 && Rcon(5) == 16;
    assert Rcon(6) == 32 && Rcon(7) == 64 && Rcon(8) == 128;
    assert Rcon(9) == 27;
    assert Rcon(10) == 54;
  }

  lemma AddColumnCommutes(a: Column, b: Column)
    ensures AddColumn(a, b) == AddColumn(b, a)
  {
    AddCommutes(a.r0, b.r0);
    AddCommutes(a.r1, b.r1);
    AddCommutes(a.r2, b.r2);
    AddCommutes(a.r3, b.r3);
  }

  // ------------------------------------------------ the recurrence of section 5.2, by position in the group

  lemma Positions(nk: nat, i: nat, j: nat)
    requires nk == 4 || nk == 6 || nk == 8
    requires j < nk
    ensures (nk * i + j) % nk == j && (nk * i + j) / nk == i
  {
    if nk == 4 {
    } else if nk == 6 {
    } else {
    }
  }

  lemma WordAtGroupStart(box: Substitution, key: seq<Column>, i: nat)
    requires KeyWords(key)
    ensures Word(box, key, |key| * i + |key|)
         == AddColumn(Word(box, key, |key| * i),
                      AddColumn(SubWord(box, RotWord(Word(box, key, |key| * i + |key| - 1))),
                                Column(Rcon(i + 1), 0, 0, 0)))
  {
    Positions(|key|, i + 1, 0);
  }

  lemma WordInGroup(box: Substitution, key: seq<Column>, i: nat, j: nat)
    requires KeyWords(key) && 0 < j < |key| && !(|key| == 8 && j == 4)
    ensures Word(box, key, |key| * i + |key| + j)
         == AddColumn(Word(box, key, |key| * i + j), Word(box, key, |key| * i + |key| + j - 1))
  {
    Positions(|key|, i + 1, j);
  }

  lemma WordMidGroup(box: Substitution, key: seq<Column>, i: nat)
    requires |key| == 8
    ensures Word(box, key, 8 * i + 12) == AddColumn(Word(box, key, 8 * i + 4), SubWord(box, Word(box, key, 8 * i + 11)))
  {
    Positions(8, i + 1, 4);
  }

  // ------------------------------------------------ one word of the code each

  /** The first word of a group: the last word rotated and substituted, the round constant, and the old first word. */
  function FirstOfGroup(tab: Tables, t: bv32, i: nat, prev: bv32): bv32
    requires i < 10
  {
    Xor(Xor(LsBox(tab, Ror32(t, 8)), RcoTab(i)), prev)
  }

  lemma FirstOfGroupIsWord(tab: Tables, box: Substitution, key: seq<Column>, i: nat, t: bv32, prev: bv32)
    requires Computes(tab.fl0, tab.fl1, tab.fl2, tab.fl3, SubLookup(box))
    requires KeyWords(key) && i < 10
    requires Bytes(t) == Word(box, key, |key| * i + |key| - 1) && Bytes(prev) == Word(box, key, |key| * i)
    ensures Bytes(FirstOfGroup(tab, t, i, prev)) == Word(box, key, |key| * i + |key|)
  {
    BytesOfRor8(t);
    LsBoxIsSubWord(tab, box, Ror32(t, 8));
    RcoTabIsRcon(i);
    BytesOfXor(LsBox(tab, Ror32(t, 8)), RcoTab(i));
    BytesOfXor(Xor(LsBox(tab, Ror32(t, 8)), RcoTab(i)), prev);
    WordAtGroupStart(box, key, i);
    AddColumnCommutes(AddColumn(SubWord(box, RotWord(Bytes(t))), Column(Rcon(i + 1), 0, 0, 0)), Bytes(prev));
  }

  lemma NextInGroupIsWord(box: Substitution, key: seq<Column>, i: nat, j: nat, t: bv32, prev: bv32)
    requires KeyWords(key) && 0 < j < |key| && !(|key| == 8 && j == 4)
    requires Bytes(t) == Word(box, key, |key| * i + |key| + j - 1) && Bytes(prev) == Word(box, key, |key| * i + j)
    ensures Bytes(Xor(t, prev)) == Word(box, key, |key| * i + |key| + j)
  {
    BytesOfXor(t, prev);
    WordInGroup(box, key, i, j);
    AddColumnCommutes(Bytes(t), Bytes(prev));
  }

  lemma MidOfGroupIsWord(tab: Tables, box: Substitution, key: seq<Column>, i: nat, t: bv32, prev: bv32)
    requires Computes(tab.fl0, tab.fl1, tab.fl2, tab.fl3, SubLookup(box))
    requires |key| == 8
    requires Bytes(t) == Word(box, key, 8 * i + 11) && Bytes(prev) == Word(box, key, 8 * i + 4)
    ensures Bytes(Xor(prev, LsBox(tab, t))) == Word(box, key, 8 * i + 12)
  {
    LsBoxIsSubWord(tab, box, t);
    BytesOfXor(prev, LsBox(tab, t));
    WordMidGroup(box, key, i);
  }

  // ------------------------------------------------ the unrolled loops

  lemma ExtendExpanded(s: seq<bv32>, w: nat -> bv32, n: nat, x: bv32)
    requires n < |s| && Expanded(s, w, n) && Bytes(x) == Bytes(w(n))
    ensures Expanded(s[n := x], w, n + 1)
  {
    PackOfBytes(x);
    PackOfBytes(w(n));
  }

  /** The first statement pair of a group: `t` from the last word, stored at the group's start. */
  method StoreFirst(tab: Tables, enc: array<bv32>, nk: nat, i: nat, last: bv32,
                    ghost w: nat -> bv32, ghost box: Substitution, ghost key: seq<Column>)
    returns (t: bv32)
    requires Computes(tab.fl0, tab.fl1, tab.fl2, tab.fl3, SubLookup(box))
    requires KeyWords(key) && nk == |key| && Follows(w, box, key) && i < 10 && nk * i + nk < enc.Length
    requires Expanded(enc[..], w, nk * i + nk) && last == enc[nk * i + nk - 1]
    modifies enc
    ensures enc[..4] == old(enc[..4])
    ensures Expanded(enc[..], w, nk * i + nk + 1) && t == enc[nk * i + nk]
  {
    var n := nk * i + nk;
    ghost var before := enc[..];
    assert FollowsAt(w, box, key, n) && FollowsAt(w, box, key, n - 1) && FollowsAt(w, box, key, nk * i);
    FirstOfGroupIsWord(tab, box, key, i, last, enc[nk * i]);
    t := FirstOfGroup(tab, last, i, enc[nk * i]);
    ExtendExpanded(before, w, n, t);
    enc[n] := t;
    assert enc[..] == before[n := t];
  }

  /** A later statement pair: add the old word at offset `j` and store. */
  method StoreNext(enc: array<bv32>, nk: nat, i: nat, j: nat, last: bv32,
                   ghost w: nat -> bv32, ghost box: Substitution, ghost key: seq<Column>)
    returns (t: bv32)
    requires KeyWords(key) && nk == |key| && Follows(w, box, key)
    requires 0 < j < nk && !(nk == 8 && j == 4) && nk * i + nk + j < enc.Length
    requires Expanded(enc[..], w, nk * i + nk + j) && last == enc[nk * i + nk + j - 1]
    modifies enc
    ensures enc[..4] == old(enc[..4])
    ensures Expanded(enc[..], w, nk * i + nk + j + 1) && t == enc[nk * i + nk + j]
  {
    var n := nk * i + nk + j;
    ghost var before := enc[..];
    assert FollowsAt(w, box, key, n) && FollowsAt(w, box, key, n - 1) && FollowsAt(w, box, key, nk * i + j);
    NextInGroupIsWord(box, key, i, j, last, enc[nk * i + j]);
    t := Xor(last, enc[nk * i + j]);
    ExtendExpanded(before, w, n, t);
    enc[n] := t;
    assert enc[..] == before[n := t];
  }

  /** The middle of an eight-word group, where the last word is substituted again. */
  method StoreMid(tab: Tables, enc: array<bv32>, i: nat, last: bv32,
                  ghost w: nat -> bv32, ghost box: Substitution, ghost key: seq<Column>)
    returns (t: bv32)
    requires Computes(tab.fl0, tab.fl1, tab.fl2, tab.fl3, SubLookup(box))
    requires |key| == 8 && Follows(w, box, key) && 8 * i + 12 < enc.Length
    requires Expanded(enc[..], w, 8 * i + 12) && last == enc[8 * i + 11]
    modifies enc
    ensures enc[..4] == old(enc[..4])
    ensures Expanded(enc[..], w, 8 * i + 13) && t == enc[8 * i + 12]
  {
    ghost var before := enc[..];
    assert FollowsAt(w, box, key, 8 * i + 12) && FollowsAt(w, box, key, 8 * i + 11);
    assert FollowsAt(w, box, key, 8 * i + 4);
    MidOfGroupIsWord(tab, box, key, i, last, enc[8 * i + 4]);
    t := Xor(enc[8 * i + 4], LsBox(tab, last));
    ExtendExpanded(before, w, 8 * i + 12, t);
    enc[8 * i + 12] := t;
    assert enc[..] == before[8 * i + 12 := t];
  }

  method Loop4(tab: Tables, enc: array<bv32>, i: nat, last: bv32,
         ghost w: nat -> bv32, ghost box: Substitution, ghost key: seq<Column>)
    returns (t: bv32)
    requires Computes(tab.fl0, tab.fl1, tab.fl2, tab.fl3, SubLookup(box))
    requires |key| == 4 && Follows(w, box, key) && i < 10 && enc.Length == 60
    requires Expanded(enc[..], w, 4 * i + 4) && last == enc[4 * i + 3]
    modifies enc
    ensures enc[..4] == old(enc[..4])
    ensures Expanded(enc[..], w, 4 * i + 8) && t == enc[4 * i + 7]
  {
    hide Expanded, Follows, Computes, SubLookup;
    t := StoreFirst(tab, enc, 4, i, last, w, box, key);
    t := StoreNext(enc, 4, i, 1, t, w, box, key);
    t := StoreNext(enc, 4, i, 2, t, w, box, key);
    t := StoreNext(enc, 4, i, 3, t, w, box, key);
  }

  method Loop6(tab: Tables, enc: array<bv32>, i: nat, last: bv32,
         ghost w: nat -> bv32, ghost box: Substitution, ghost key: seq<Column>)
    returns (t: bv32)
    requires Computes(tab.fl0, tab.fl1, tab.fl2, tab.fl3, SubLookup(box))
    requires |key| == 6 && Follows(w, box, key) && i < 8 && enc.Length == 60
    requires Expanded(enc[..], w, 6 * i + 6) && last == enc[6 * i + 5]
    modifies enc
    ensures enc[..4] == old(enc[..4])
    ensures Expanded(enc[..], w, 6 * i + 12) && t == enc[6 * i + 11]
  {
    hide Expanded, Follows, Computes, SubLookup;
    t := StoreFirst(tab, enc, 6, i, last, w, box, key);
    t := StoreNext(enc, 6, i, 1, t, w, box, key);
    t := StoreNext(enc, 6, i, 2, t, w, box, key);
    t := StoreNext(enc, 6, i, 3, t, w, box, key);
    t := StoreNext(enc, 6, i, 4, t, w, box, key);
    t := StoreNext(enc, 6, i, 5, t, w, box, key);
  }

  method Loop8TopHalf(tab: Tables, enc: array<bv32>, i: nat, last: bv32,
         ghost w: nat -> bv32, ghost box: Substitution, ghost key: seq<Column>)
    returns (t: bv32)
    requires Computes(tab.fl0, tab.fl1, tab.fl2, tab.fl3, SubLookup(box))
    requires |key| == 8 && Follows(w, box, key) && i < 7 && enc.Length == 60
    requires Expanded(enc[..], w, 8 * i + 8) && last == enc[8 * i + 7]
    modifies enc
    ensures enc[..4] == old(enc[..4])
    ensures Expanded(enc[..], w, 8 * i + 12) && t == enc[8 * i + 11]
  {
    hide Expanded, Follows, Computes, SubLookup;
    t := StoreFirst(tab, enc, 8, i, last, w, box, key);
    t := StoreNext(enc, 8, i, 1, t, w, box, key);
    t := StoreNext(enc, 8, i, 2, t, w, box, key);
    t := StoreNext(enc, 8, i, 3, t, w, box, key);
  }

  method Loop8(tab: Tables, enc: array<bv32>, i: nat, last: bv32,
         ghost w: nat -> bv32, ghost box: Substitution, ghost key: seq<Column>)
    returns (t: bv32)
    requires Computes(tab.fl0, tab.fl1, tab.fl2, tab.fl3, SubLookup(box))
    requires |key| == 8 && Follows(w, box, key) && i < 6 && enc.Length == 60
    requires Expanded(enc[..], w, 8 * i + 8) && last == enc[8 * i + 7]
    modifies enc
    ensures enc[..4] == old(enc[..4])
    ensures Expanded(enc[..], w, 8 * i + 16) && t == enc[8 * i + 15]
  {
    hide Expanded, Follows, Computes, SubLookup;
    t := Loop8TopHalf(tab, enc, i, last, w, box, key);
    t := StoreMid(tab, enc, i, t, w, box, key);
    t := StoreNext(enc, 8, i, 5, t, w, box, key);
    t := StoreNext(enc, 8, i, 6, t, w, box, key);
    t := StoreNext(enc, 8, i, 7, t, w, box, key);
  }
}
