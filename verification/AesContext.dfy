/**
 The cipher context: two schedules of 60 words, filled by key expansion and read by
 encryption and decryption.
 */
module AesContext {
  import opened Fips197
  import opened AesWords
  import opened AesCipher
  import opened AesSchedule

  const EINVAL := 22

  // ------------------------------------------------ bytes in memory, on a little-endian machine

  /** The word stored at byte offset 4i. */
  function Load(bytes: seq<bv8>, i: nat): bv32
    requires 4 * i + 4 <= |bytes|
  {
    Pack(Column(bytes[4 * i], bytes[4 * i + 1], bytes[4 * i + 2], bytes[4 * i + 3]))
  }

  /** A 16-byte block as a state: byte 4c + r is row r of column c. */
  function Block(bytes: seq<bv8>): State
    requires |bytes| == 16
  {
    State(Column(bytes[0], bytes[1], bytes[2], bytes[3]), Column(bytes[4], bytes[5], bytes[6], bytes[7]),
          Column(bytes[8], bytes[9], bytes[10], bytes[11]), Column(bytes[12], bytes[13], bytes[14], bytes[15]))
  }

  /** The first `n` words of a key with the bytes of each word reversed. */
  function ReversedKey(inKey: seq<bv8>, n: nat): (key: seq<Column>)
    requires 4 * n <= |inKey|
    ensures |key| == n
    ensures forall i :: 0 <= i < n ==>
      key[i] == Column(inKey[4 * i + 3], inKey[4 * i + 2], inKey[4 * i + 1], inKey[4 * i])
  {
    seq(n, i requires 0 <= i < n => Column(inKey[4 * i + 3], inKey[4 * i + 2], inKey[4 * i + 1], inKey[4 * i]))
  }

  /** le32_to_cpu swaps the bytes of a key word. */
  lemma SwappedKeyWord(inKey: seq<bv8>, n: nat, i: nat)
    requires 4 * n <= |inKey| && i < n
    ensures Bytes(Swap(Load(inKey, i))) == ReversedKey(inKey, n)[i]
  {
    BytesOfPack(Column(inKey[4 * i], inKey[4 * i + 1], inKey[4 * i + 2], inKey[4 * i + 3]));
    BytesOfSwap(Load(inKey, i));
  }

  // ------------------------------------------------ the decryption schedule

  predicate KeyLength(n: nat) {
    n == 16 || n == 24 || n == 32
  }

  /** The index map of the decryption schedule: same column, round counted from the end. */
  function Mirror(end: nat, i: nat): (j: nat)
    requires end % 4 == 0 && i < end + 4
    ensures j < end + 4
    ensures 4 <= i < end <==> 4 <= j < end
  {
    end - i / 4 * 4 + i % 4
  }

  /** The map is its own inverse, so it is a bijection on the words of the schedule. */
  lemma MirrorInvolution(end: nat, i: nat)
    requires end % 4 == 0 && i < end + 4
    ensures Mirror(end, Mirror(end, i)) == i
  {
  }

  lemma MirrorDistinct(end: nat, i: nat)
    requires end % 4 == 0 && i < end + 4
    ensures forall k :: 0 <= k < i ==> Mirror(end, k) != Mirror(end, i)
  {
    forall k | 0 <= k < i ensures Mirror(end, k) != Mirror(end, i) {
      MirrorInvolution(end, i);
      MirrorInvolution(end, k);
    }
  }

  lemma MirrorEnds(end: nat, c: nat)
    requires end % 4 == 0 && c < 4
    ensures Mirror(end, c) == end + c && Mirror(end, end + c) == c
  {
  }

  /** Word `i` of `dec` is its mirror word of `enc`, passed through `imix` in the inner rounds. */
  ghost predicate MirroredAt<T>(enc: seq<T>, dec: seq<T>, imix: T -> T, end: nat, i: nat)
    requires end % 4 == 0 && end + 4 <= |enc| && end + 4 <= |dec| && i < end + 4
  {
    dec[i] == if 4 <= i < end then imix(enc[Mirror(end, i)]) else enc[Mirror(end, i)]
  }

  /** `dec` is the schedule `enc` of `end + 4` words mirrored. */
  ghost predicate Mirrored<T>(enc: seq<T>, dec: seq<T>, imix: T -> T, end: nat)
    requires end % 4 == 0 && end + 4 <= |enc| && end + 4 <= |dec|
  {
    forall i :: 0 <= i < end + 4 ==> MirroredAt(enc, dec, imix, end, i)
  }

  lemma MirroredFromInner<T>(enc: seq<T>, dec: seq<T>, imix: T -> T, end: nat)
    requires end % 4 == 0 && 4 <= end && end + 4 <= |enc| && end + 4 <= |dec|
    requires dec[..4] == enc[end..end + 4] && dec[end..end + 4] == enc[..4]
    requires forall k :: 4 <= k < end ==> dec[Mirror(end, k)] == imix(enc[k])
    ensures Mirrored(enc, dec, imix, end)
  {
    forall i | 0 <= i < end + 4 ensures MirroredAt(enc, dec, imix, end, i) {
      if i < 4 {
        MirrorEnds(end, i);
        assert dec[..4][i] == enc[end..end + 4][i];
      } else if i < end {
        MirrorInvolution(end, i);
      } else {
        MirrorEnds(end, i - end);
        assert dec[end..end + 4][i - end] == enc[..4][i - end];
      }
    }
  }

  /** The last loop of key expansion: fills the inner rounds of the decryption schedule. */
  method InvertInner<T>(enc: array<T>, dec: array<T>, end: nat, imix: T -> T)
    requires enc != dec && end % 4 == 0 && 4 <= end && end + 4 <= enc.Length && end + 4 <= dec.Length
    requires dec[..4] == enc[end..end + 4] && dec[end..end + 4] == enc[..4]
    modifies dec
    ensures Mirrored(enc[..], dec[..], imix, end)
  {
    for i := 4 to end
      invariant dec[..4] == enc[end..end + 4] && dec[end..end + 4] == enc[..4]
      invariant forall k :: 4 <= k < i ==> dec[Mirror(end, k)] == imix(enc[k])
    {
      MirrorDistinct(end, i);
      var j := Mirror(end, i);
      dec[j] := imix(enc[i]);
    }
    MirroredFromInner(enc[..], dec[..], imix, end);
  }

  /** The first round key of decryption is the last of encryption. */
  method CopyEnd<T>(enc: array<T>, dec: array<T>, end: nat)
    requires enc != dec && 4 <= end && end + 4 <= enc.Length && end + 4 <= dec.Length
    modifies dec
    ensures dec[..4] == enc[end..end + 4] && dec[end..end + 4] == old(dec[end..end + 4])
  {
    dec[0] := enc[end];
    dec[1] := enc[end + 1];
    dec[2] := enc[end + 2];
    dec[3] := enc[end + 3];
  }

  class Context {
    const enc: array<bv32>
    const dec: array<bv32>
    var keyLength: nat

    ghost predicate Valid() {
      enc.Length == 60 && dec.Length == 60 && enc != dec
    }

    constructor ()
      ensures Valid() && fresh(enc) && fresh(dec)
    {
      enc := new bv32[60];
      dec := new bv32[60];
      keyLength := 0;
    }

    /** The context holds the schedules of `key`, under what the tables mean. */
    ghost predicate Scheduled(w: nat -> bv32, imix: bv32 -> bv32, key: seq<Column>)
      requires Valid() && KeyWords(key)
      reads this, enc, dec
    {
      var end := 4 * Rounds(key);
      && keyLength == 4 * |key|
      && Expanded(enc[..], w, end + 4)
      && Mirrored(enc[..], dec[..], imix, end)
    }

    /** crypto_aes_expand_key */
    method ExpandKey(tab: Tables, inKey: seq<bv8>, keyLen: nat, ghost m: Meaning, ghost w: nat -> bv32)
      returns (ret: int)
      requires Valid() && Means(tab, m)
      requires KeyLength(keyLen) ==> keyLen <= |inKey| && Follows(w, m.box, ReversedKey(inKey, keyLen / 4))
      modifies this, enc, dec
      ensures ret == if KeyLength(keyLen) then 0 else -EINVAL
      ensures KeyLength(keyLen) ==> Scheduled(w, tab.imix, ReversedKey(inKey, keyLen / 4))
      ensures !KeyLength(keyLen) ==>
        keyLength == old(keyLength) && enc[..] == old(enc[..]) && dec[..] == old(dec[..])
    {
      if !KeyLength(keyLen) {
        return -EINVAL;
      }
      keyLength := keyLen;
      ghost var key := ReversedKey(inKey, keyLen / 4);
      LoadKey(inKey, keyLen, w, m.box, key);
      Stretch(tab, keyLen, m, w, key);
      var end := keyLen + 24;
      CopyEnd(enc, dec, end);
      InvertInner(enc, dec, end, tab.imix);
      ret := 0;
    }

    /** The key words go to the start of one schedule, the first four also to the end of the other. */
    method LoadKey(inKey: seq<bv8>, keyLen: nat, ghost w: nat -> bv32, ghost box: Substitution, ghost key: seq<Column>)
      requires Valid() && KeyLength(keyLen) && keyLen <= |inKey|
      requires key == ReversedKey(inKey, keyLen / 4) && Follows(w, box, key)
      modifies enc, dec
      ensures Expanded(enc[..], w, keyLen / 4)
      ensures dec[keyLen + 24..keyLen + 28] == enc[..4]
    {
      for i := 0 to keyLen / 4
        invariant Expanded(enc[..], w, i)
        invariant forall c :: 0 <= c < 4 && c < i ==> dec[keyLen + 24 + c] == enc[c]
      {
        var x := Swap(Load(inKey, i));
        SwappedKeyWord(inKey, keyLen / 4, i);
        assert FollowsAt(w, box, key, i);
        ghost var before := enc[..];
        ExtendExpanded(before, w, i, x);
        enc[i] := x;
        assert enc[..] == before[i := x];
        if i < 4 {
          dec[keyLen + 24 + i] := x;
        }
      }
    }

    /** The switch on the key length, with its three unrolled loops. */
    method Stretch(tab: Tables, keyLen: nat, ghost m: Meaning, ghost w: nat -> bv32, ghost key: seq<Column>)
      requires Valid() && Means(tab, m) && KeyLength(keyLen)
      requires |key| == keyLen / 4 && Follows(w, m.box, key)
      requires Expanded(enc[..], w, keyLen / 4)
      modifies enc
      ensures Expanded(enc[..], w, keyLen + 28)
      ensures enc[..4] == old(enc[..4])
    {
      if keyLen == 16 {
        var t := enc[3];
        for i := 0 to 10
          invariant enc[..4] == old(enc[..4])
          invariant Expanded(enc[..], w, 4 * i + 4) && t == enc[4 * i + 3]
        {
          t := Loop4(tab, enc, i, t, w, m.box, key);
        }
      } else if keyLen == 24 {
        var t := enc[5];
        for i := 0 to 8
          invariant enc[..4] == old(enc[..4])
          invariant Expanded(enc[..], w, 6 * i + 6) && t == enc[6 * i + 5]
        {
          t := Loop6(tab, enc, i, t, w, m.box, key);
        }
      } else {
        var t := enc[7];
        for i := 0 to 6
          invariant enc[..4] == old(enc[..4])
          invariant Expanded(enc[..], w, 8 * i + 8) && t == enc[8 * i + 7]
        {
          t := Loop8(tab, enc, i, t, w, m.box, key);
        }
        t := Loop8TopHalf(tab, enc, 6, t, w, m.box, key);
      }
    }
  }

  /** The first round key is added to the words of the block. */
  method AddFirstKey(b0: array<bv32>, input: array<bv8>, key: array<bv32>)
    requires b0.Length == 4 && input.Length == 16 && key.Length >= 4 && b0 != key
    modifies b0
    ensures StateOf(b0[..]) == AddRoundKey(Block(input[..]), StateOf(key[0..4]))
  {
    var block := input[..];
    b0[0] := Xor(Load(block, 0), key[0]);
    b0[1] := Xor(Load(block, 1), key[1]);
    b0[2] := Xor(Load(block, 2), key[2]);
    b0[3] := Xor(Load(block, 3), key[3]);
    BytesOfKeyed(block, 0, key[0]);
    BytesOfKeyed(block, 1, key[1]);
    BytesOfKeyed(block, 2, key[2]);
    BytesOfKeyed(block, 3, key[3]);
  }

  lemma BytesOfKeyed(block: seq<bv8>, i: nat, k: bv32)
    requires 4 * i + 4 <= |block|
    ensures Bytes(Xor(Load(block, i), k))
         == AddColumn(Column(block[4 * i], block[4 * i + 1], block[4 * i + 2], block[4 * i + 3]), Bytes(k))
  {
    BytesOfPack(Column(block[4 * i], block[4 * i + 1], block[4 * i + 2], block[4 * i + 3]));
    BytesOfXor(Load(block, i), k);
  }

  /** The four words of the result, byte by byte. */
  method StoreBlock(out: array<bv8>, b0: array<bv32>)
    requires out.Length == 16 && b0.Length == 4
    modifies out
    ensures Block(out[..]) == old(StateOf(b0[..]))
  {
    for c := 0 to 4
      invariant forall k :: 0 <= k < c ==>
        Column(out[4 * k], out[4 * k + 1], out[4 * k + 2], out[4 * k + 3]) == Bytes(b0[k])
    {
      out[4 * c] := Byte(b0[c], 0);
      out[4 * c + 1] := Byte(b0[c], 1);
      out[4 * c + 2] := Byte(b0[c], 2);
      out[4 * c + 3] := Byte(b0[c], 3);
    }
    assert Column(out[4 * 0], out[4 * 0 + 1], out[4 * 0 + 2], out[4 * 0 + 3]) == Bytes(b0[0]);
    assert Column(out[4 * 1], out[4 * 1 + 1], out[4 * 1 + 2], out[4 * 1 + 3]) == Bytes(b0[1]);
    assert Column(out[4 * 2], out[4 * 2 + 1], out[4 * 2 + 2], out[4 * 2 + 3]) == Bytes(b0[2]);
    assert Column(out[4 * 3], out[4 * 3 + 1], out[4 * 3 + 2], out[4 * 3 + 3]) == Bytes(b0[3]);
  }

  /** The states after each number of steps. */
  ghost function StatesOf(step: (State, State) -> State, w: seq<State>, start: State): (at: nat -> State)
    ensures Runs(at, step, w, start)
  {
    var at := (r: nat) => if r < |w| then Iterate(step, w, start, r) else start;
    assert forall r :: RunsAt(at, step, w, start, r);
    at
  }

  /** Allocates the two buffers and loads the block into the first. */
  method LoadBlock(key: array<bv32>, input: array<bv8>, ghost w: seq<State>,
                   ghost step: (State, State) -> State, ghost start: State, ghost at: nat -> State)
    returns (b0: array<bv32>, b1: array<bv32>)
    requires input.Length == 16 && 0 < |w| && 4 * |w| <= key.Length && w == RoundKeys(key[..], |w|)
    requires start == AddRoundKey(Block(input[..]), w[0]) && Runs(at, step, w, start)
    ensures fresh(b0) && fresh(b1) && b0.Length == 4 && Ready(b0, b1, key, 4, w, at, 0)
  {
    b0, b1 := new bv32[4], new bv32[4];
    AddFirstKey(b0, input, key);
    assert RunsAt(at, step, w, start, 0);
  }

  ghost predicate EncryptsAt(f: State -> State, m: Meaning, w: seq<State>, block: State)
    requires |w| >= 2
  {
    f(block) == EncryptWith(m, w, block)
  }

  /** `f` is what encryption computes under the round keys `w`. */
  ghost predicate Encrypts(f: State -> State, m: Meaning, w: seq<State>)
    requires |w| >= 2
  {
    forall block :: EncryptsAt(f, m, w, block)
  }

  lemma EncryptFromStates(f: State -> State, m: Meaning, w: seq<State>, block: State, at: nat -> State)
    requires |w| >= 2 && Encrypts(f, m, w) && Runs(at, ShiftStep(m.enc), w, AddRoundKey(block, w[0]))
    ensures f(block) == ShiftRound(SubLookup(m.box), at(|w| - 2), w[|w| - 1])
  {
    assert EncryptsAt(f, m, w, block);
    assert RunsAt(at, ShiftStep(m.enc), w, AddRoundKey(block, w[0]), |w| - 2);
  }

  /** The rounds of aes_encrypt on freshly loaded buffers. */
  method EncryptStates(tab: Tables, key: array<bv32>, keyLength: nat, input: array<bv8>, ghost m: Meaning,
                       ghost w: seq<State>, ghost start: State, ghost at: nat -> State)
    returns (b0: array<bv32>)
    requires Means(tab, m) && input.Length == 16
    requires 4 * |w| <= key.Length && |w| == RoundCount(keyLength) + 1 && w == RoundKeys(key[..], |w|)
    requires start == AddRoundKey(Block(input[..]), w[0]) && Runs(at, ShiftStep(m.enc), w, start)
    ensures fresh(b0) && b0.Length == 4
    ensures StateOf(b0[..]) == ShiftRound(SubLookup(m.box), at(|w| - 2), w[|w| - 1])
  {
    var b1;
    b0, b1 := LoadBlock(key, input, w, ShiftStep(m.enc), start, at);
    EncRounds(tab, b0, b1, key, keyLength, m, w, start, at);
  }

  method EncryptWords(tab: Tables, key: array<bv32>, keyLength: nat, input: array<bv8>,
                      ghost m: Meaning, ghost w: seq<State>, ghost f: State -> State)
    returns (b0: array<bv32>)
    requires Means(tab, m) && input.Length == 16
    requires 4 * |w| <= key.Length && |w| == RoundCount(keyLength) + 1 && w == RoundKeys(key[..], |w|)
    requires Encrypts(f, m, w)
    ensures fresh(b0) && b0.Length == 4 && StateOf(b0[..]) == f(Block(input[..]))
  {
    ghost var start := AddRoundKey(Block(input[..]), w[0]);
    ghost var at := StatesOf(ShiftStep(m.enc), w, start);
    EncryptFromStates(f, m, w, Block(input[..]), at);
    b0 := EncryptStates(tab, key, keyLength, input, m, w, start, at);
  }

  /** aes_encrypt under a schedule; input and output may be the same buffer. */
  method EncryptBlock(tab: Tables, key: array<bv32>, keyLength: nat, out: array<bv8>, input: array<bv8>,
                      ghost m: Meaning, ghost w: seq<State>, ghost f: State -> State)
    requires Means(tab, m) && out.Length == 16 && input.Length == 16
    requires 4 * |w| <= key.Length && |w| == RoundCount(keyLength) + 1 && w == RoundKeys(key[..], |w|)
    requires Encrypts(f, m, w)
    modifies out
    ensures Block(out[..]) == f(old(Block(input[..])))
  {
    ghost var block := Block(input[..]);
    var b0 := EncryptWords(tab, key, keyLength, input, m, w, f);
    ghost var s := StateOf(b0[..]);
    assert s == f(block);
    StoreBlock(out, b0);
  }

  ghost predicate DecryptsAt(f: State -> State, m: Meaning, w: seq<State>, block: State)
    requires |w| >= 2
  {
    f(block) == DecryptWith(m, w, block)
  }

  /** `f` is what decryption computes under the round keys `w`. */
  ghost predicate Decrypts(f: State -> State, m: Meaning, w: seq<State>)
    requires |w| >= 2
  {
    forall block :: DecryptsAt(f, m, w, block)
  }

  lemma DecryptFromStates(f: State -> State, m: Meaning, w: seq<State>, block: State, at: nat -> State)
    requires |w| >= 2 && Decrypts(f, m, w) && Runs(at, UnshiftStep(m.dec), w, AddRoundKey(block, w[0]))
    ensures f(block) == UnshiftRound(SubLookup(m.inv), at(|w| - 2), w[|w| - 1])
  {
    assert DecryptsAt(f, m, w, block);
    assert RunsAt(at, UnshiftStep(m.dec), w, AddRoundKey(block, w[0]), |w| - 2);
  }

  /** The rounds of aes_decrypt on freshly loaded buffers. */
  method DecryptStates(tab: Tables, key: array<bv32>, keyLength: nat, input: array<bv8>, ghost m: Meaning,
                       ghost w: seq<State>, ghost start: State, ghost at: nat -> State)
    returns (b0: array<bv32>)
    requires Means(tab, m) && input.Length == 16
    requires 4 * |w| <= key.Length && |w| == RoundCount(keyLength) + 1 && w == RoundKeys(key[..], |w|)
    requires start == AddRoundKey(Block(input[..]), w[0]) && Runs(at, UnshiftStep(m.dec), w, start)
    ensures fresh(b0) && b0.Length == 4
    ensures StateOf(b0[..]) == UnshiftRound(SubLookup(m.inv), at(|w| - 2), w[|w| - 1])
  {
    var b1;
    b0, b1 := LoadBlock(key, input, w, UnshiftStep(m.dec), start, at);
    DecRounds(tab, b0, b1, key, keyLength, m, w, start, at);
  }

  method DecryptWords(tab: Tables, key: array<bv32>, keyLength: nat, input: array<bv8>,
                      ghost m: Meaning, ghost w: seq<State>, ghost f: State -> State)
    returns (b0: array<bv32>)
    requires Means(tab, m) && input.Length == 16
    requires 4 * |w| <= key.Length && |w| == RoundCount(keyLength) + 1 && w == RoundKeys(key[..], |w|)
    requires Decrypts(f, m, w)
    ensures fresh(b0) && b0.Length == 4 && StateOf(b0[..]) == f(Block(input[..]))
  {
    ghost var start := AddRoundKey(Block(input[..]), w[0]);
    ghost var at := StatesOf(UnshiftStep(m.dec), w, start);
    DecryptFromStates(f, m, w, Block(input[..]), at);
    b0 := DecryptStates(tab, key, keyLength, input, m, w, start, at);
  }

  /** aes_decrypt under a schedule; input and output may be the same buffer. */
  method DecryptBlock(tab: Tables, key: array<bv32>, keyLength: nat, out: array<bv8>, input: array<bv8>,
                      ghost m: Meaning, ghost w: seq<State>, ghost f: State -> State)
    requires Means(tab, m) && out.Length == 16 && input.Length == 16
    requires 4 * |w| <= key.Length && |w| == RoundCount(keyLength) + 1 && w == RoundKeys(key[..], |w|)
    requires Decrypts(f, m, w)
    modifies out
    ensures Block(out[..]) == f(old(Block(input[..])))
  {
    ghost var block := Block(input[..]);
    var b0 := DecryptWords(tab, key, keyLength, input, m, w, f);
    ghost var s := StateOf(b0[..]);
    assert s == f(block);
    StoreBlock(out, b0);
  }
}
