/**
 The entry points of the cipher with the program's own tables.
 */
module AesProgram {
  import opened Fips197
  import opened FipsInverse
  import opened AesWords
  import opened AesCipher
  import opened AesSchedule
  import opened AesContext
  import opened AesTheorems

  function CipherUnder(w: seq<State>): State -> State
    requires |w| >= 2
  {
    (s: State) => Cipher(SBox, w, s)
  }

  function EqInvCipherUnder(w: seq<State>): State -> State
    requires |w| >= 2
  {
    (s: State) => EqInvCipher(InvSBox, w, s)
  }

  lemma CipherEncrypts(w: seq<State>)
    requires |w| >= 2
    ensures Encrypts(CipherUnder(w), Standard(SBox, InvSBox), w)
  {
    hide SBox, InvSBox;
    forall block ensures EncryptsAt(CipherUnder(w), Standard(SBox, InvSBox), w, block) {
      EncryptWithIsCipher(SBox, InvSBox, w, block);
    }
  }

  lemma EqInvCipherDecrypts(w: seq<State>)
    requires |w| >= 2
    ensures Decrypts(EqInvCipherUnder(w), Standard(SBox, InvSBox), w)
  {
    hide SBox, InvSBox;
    forall block ensures DecryptsAt(EqInvCipherUnder(w), Standard(SBox, InvSBox), w, block) {
      DecryptWithIsEqInvCipher(SBox, InvSBox, w, block);
    }
  }

  ghost predicate KeysIn(enc: seq<bv32>, dec: seq<bv32>, keyLength: nat, w: seq<State>, dw: seq<State>)
    requires |enc| == |dec| == 60
  {
    && |w| == RoundCount(keyLength) + 1 && w == RoundKeys(enc, |w|)
    && |dw| == |w| && dw == RoundKeys(dec, |w|)
  }

  /** The context holds the round keys `w` and those of the equivalent inverse cipher. */
  ghost predicate HoldsKeys(ctx: Context, w: seq<State>, dw: seq<State>)
    reads ctx, ctx.enc, ctx.dec
  {
    ctx.Valid() && KeysIn(ctx.enc[..], ctx.dec[..], ctx.keyLength, w, dw)
  }

  /** Decryption undoes encryption: for every key schedule and every block. */
  lemma DecryptionUndoesEncryption(key: seq<Column>, block: State)
    requires KeyWords(key)
    ensures var w := KeyExpansion(SBox, key);
            EqInvCipher(InvSBox, InvKeys(InvMixColumns, w), Cipher(SBox, w, block)) == block
  {
    SBoxesUndo();
    EqInvCipherOfCipher(SBox, InvSBox, KeyExpansion(SBox, key), block);
  }

  /** The words of an expanded key. */
  function ScheduleWords(box: Substitution, key: seq<Column>): (w: nat -> bv32)
    requires KeyWords(key)
  {
    (j: nat) => Pack(Word(box, key, j))
  }

  lemma ScheduleWordsFollow(box: Substitution, key: seq<Column>)
    requires KeyWords(key)
    ensures Follows(ScheduleWords(box, key), box, key)
  {
    forall j ensures FollowsAt(ScheduleWords(box, key), box, key, j) {
      BytesOfPack(Word(box, key, j));
    }
  }

  /** A scheduled context holds the round keys of sections 5.2 and 5.3.5, for its key length. */
  lemma ScheduledHoldsKeys(ctx: Context, ws: nat -> bv32, box: Substitution, imix: bv32 -> bv32, mix: State -> State,
                           key: seq<Column>)
    requires ctx.Valid() && KeyWords(key) && Follows(ws, box, key) && MixesWords(mix, imix)
    requires ctx.Scheduled(ws, imix, key)
    ensures HoldsKeys(ctx, KeyExpansion(box, key), InvKeys(mix, KeyExpansion(box, key)))
  {
    EncKeysAreExpansion(ctx.enc[..], ws, box, key);
    DecKeysAreInverse(ctx.enc[..], ctx.dec[..], imix, mix, Rounds(key));
  }

  /** crypto_aes_expand_key: the schedules are those of the key with each four-byte group reversed. */
  method SetKey(ctx: Context, inKey: seq<bv8>, keyLen: nat) returns (ret: int)
    requires ctx.Valid() && (KeyLength(keyLen) ==> keyLen <= |inKey|)
    modifies ctx, ctx.enc, ctx.dec
    ensures ret == if KeyLength(keyLen) then 0 else -EINVAL
    ensures KeyLength(keyLen) ==>
      var w := KeyExpansion(SBox, ReversedKey(inKey, keyLen / 4));
      HoldsKeys(ctx, w, InvKeys(InvMixColumns, w))
  {
    hide SBox, InvSBox;
    ghost var ws: nat -> bv32 := (j: nat) => 0;
    if KeyLength(keyLen) {
      ws := ScheduleWords(SBox, ReversedKey(inKey, keyLen / 4));
      ScheduleWordsFollow(SBox, ReversedKey(inKey, keyLen / 4));
    }
    ProgramMeansStandard();
    ret := ctx.ExpandKey(Program(), inKey, keyLen, Standard(SBox, InvSBox), ws);
    if KeyLength(keyLen) {
      ImixMixesWords();
      ScheduledHoldsKeys(ctx, ws, SBox, ImixWord, InvMixColumns, ReversedKey(inKey, keyLen / 4));
    }
  }

  // ------------------------------------------------ when that is the expansion of the key as given

  /** The key as section 5.2 reads it: four bytes to a word, in order. */
  function KeyAsGiven(inKey: seq<bv8>, n: nat): (key: seq<Column>)
    requires 4 * n <= |inKey|
    ensures |key| == n
    ensures forall i :: 0 <= i < n ==>
      key[i] == Column(inKey[4 * i], inKey[4 * i + 1], inKey[4 * i + 2], inKey[4 * i + 3])
  {
    seq(n, i requires 0 <= i < n => Column(inKey[4 * i], inKey[4 * i + 1], inKey[4 * i + 2], inKey[4 * i + 3]))
  }

  /** Group `i` of the key reads the same backwards. */
  predicate Palindrome(inKey: seq<bv8>, i: nat)
    requires 4 * i + 3 < |inKey|
  {
    inKey[4 * i] == inKey[4 * i + 3] && inKey[4 * i + 1] == inKey[4 * i + 2]
  }

  /** Keys of one length have the same round keys only if they are the same. */
  lemma ExpansionDeterminesKey(box: Substitution, a: seq<Column>, b: seq<Column>)
    requires KeyWords(a) && |a| == |b|
    ensures KeyExpansion(box, a) == KeyExpansion(box, b) <==> a == b
  {
    if KeyExpansion(box, a) == KeyExpansion(box, b) {
      forall i | 0 <= i < |a| ensures a[i] == b[i] {
        assert KeyExpansion(box, a)[i / 4] == KeyExpansion(box, b)[i / 4];
        assert i == 4 * (i / 4) + i % 4;
        assert Word(box, a, i) == Word(box, b, i);
      }
    }
  }

  /** The schedules are those of the key as given exactly if every four-byte group reads the same backwards. */
  lemma ExpandsAsGivenIff(box: Substitution, inKey: seq<bv8>, keyLen: nat)
    requires KeyLength(keyLen) && keyLen <= |inKey|
    ensures KeyExpansion(box, ReversedKey(inKey, keyLen / 4)) == KeyExpansion(box, KeyAsGiven(inKey, keyLen / 4)) <==>
            forall i :: 0 <= i < keyLen / 4 ==> Palindrome(inKey, i)
  {
    var n := keyLen / 4;
    var a, b := ReversedKey(inKey, n), KeyAsGiven(inKey, n);
    ExpansionDeterminesKey(box, a, b);
    if a == b {
      forall i | 0 <= i < n ensures Palindrome(inKey, i) { assert a[i] == b[i]; }
    } else if forall i :: 0 <= i < n ==> Palindrome(inKey, i) {
      forall i | 0 <= i < n ensures a[i] == b[i] { assert Palindrome(inKey, i); }
    }
  }

  /** The key whose first byte is 1 and whose other bytes are 0 is not expanded as given. */
  lemma NotAsGiven(box: Substitution, keyLen: nat)
    requires KeyLength(keyLen)
    ensures var inKey := seq(keyLen, i => if i == 0 then 1 as bv8 else 0);
            KeyExpansion(box, ReversedKey(inKey, keyLen / 4)) != KeyExpansion(box, KeyAsGiven(inKey, keyLen / 4))
  {
    var inKey := seq(keyLen, i => if i == 0 then 1 as bv8 else 0);
    ExpandsAsGivenIff(box, inKey, keyLen);
    assert !Palindrome(inKey, 0);
  }

  // ------------------------------------------------ encryption and decryption

  /** aes_encrypt: the Cipher of section 5.1 under the context's round keys. */
  method Encrypt(ctx: Context, out: array<bv8>, input: array<bv8>, ghost w: seq<State>, ghost dw: seq<State>)
    requires HoldsKeys(ctx, w, dw) && out.Length == 16 && input.Length == 16
    modifies out
    ensures Block(out[..]) == CipherUnder(w)(old(Block(input[..])))
  {
    hide Program, SBox, InvSBox;
    ProgramMeansStandard();
    CipherEncrypts(w);
    EncryptBlock(Program(), ctx.enc, ctx.keyLength, out, input, Standard(SBox, InvSBox), w, CipherUnder(w));
  }

  /** aes_decrypt: the equivalent inverse cipher of section 5.3.5 under the context's round keys. */
  method Decrypt(ctx: Context, out: array<bv8>, input: array<bv8>, ghost w: seq<State>, ghost dw: seq<State>)
    requires HoldsKeys(ctx, w, dw) && out.Length == 16 && input.Length == 16
    modifies out
    ensures Block(out[..]) == EqInvCipherUnder(dw)(old(Block(input[..])))
  {
    hide Program, SBox, InvSBox;
    ProgramMeansStandard();
    EqInvCipherDecrypts(dw);
    DecryptBlock(Program(), ctx.dec, ctx.keyLength, out, input, Standard(SBox, InvSBox), dw, EqInvCipherUnder(dw));
  }

  lemma BlockDeterminesBytes(a: seq<bv8>, b: seq<bv8>)
    requires |a| == 16 && |b| == 16 && Block(a) == Block(b)
    ensures a == b
  {
  }

  /** Encryption leaves the schedules alone, so decryption runs under the same key. */
  method EncryptThenDecrypt(ctx: Context, plain: array<bv8>, cipher: array<bv8>, back: array<bv8>,
                            ghost w: seq<State>, ghost dw: seq<State>)
    requires HoldsKeys(ctx, w, dw) && plain.Length == cipher.Length == back.Length == 16
    requires plain != cipher && plain != back && cipher != back
    modifies cipher, back
    ensures Block(cipher[..]) == CipherUnder(w)(Block(plain[..]))
    ensures Block(back[..]) == EqInvCipherUnder(dw)(Block(cipher[..]))
  {
    ghost var enc, dec := ctx.enc[..], ctx.dec[..];
    Encrypt(ctx, cipher, plain, w, dw);
    assert ctx.enc[..] == enc && ctx.dec[..] == dec;
    Decrypt(ctx, back, cipher, w, dw);
  }

  /** For every key of 16, 24 or 32 bytes and every block: expand, encrypt, decrypt gives the block back. */
  method RoundTrip(ctx: Context, inKey: seq<bv8>, plain: array<bv8>, cipher: array<bv8>, back: array<bv8>)
    requires ctx.Valid() && KeyLength(|inKey|)
    requires plain.Length == cipher.Length == back.Length == 16 && plain != cipher && plain != back && cipher != back
    modifies ctx, ctx.enc, ctx.dec, cipher, back
    ensures Block(cipher[..]) == Cipher(SBox, KeyExpansion(SBox, ReversedKey(inKey, |inKey| / 4)), Block(plain[..]))
    ensures back[..] == plain[..]
  {
    ghost var key := ReversedKey(inKey, |inKey| / 4);
    ghost var w := KeyExpansion(SBox, key);
    var ret := SetKey(ctx, inKey, |inKey|);
    EncryptThenDecrypt(ctx, plain, cipher, back, w, InvKeys(InvMixColumns, w));
    DecryptionUndoesEncryption(key, Block(plain[..]));
    BlockDeterminesBytes(back[..], plain[..]);
  }
}
