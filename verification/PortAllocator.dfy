/**
 The port allocator: an array of words with one bit per free port, and a hint.
 */
module PortAllocator {
  import opened PortBits
  import opened PortSpec

  // ------------------------------------------------ the array as a set of ports

  predicate HasPort(bits: seq<bv64>, p: nat)
    requires |bits| == WORDS && p < PORTS
  {
    Has(bits[p / WORD], p % WORD)
  }

  function FreeIn(bits: seq<bv64>): set<nat>
    requires |bits| == WORDS
  {
    set p: nat | p < PORTS && HasPort(bits, p)
  }

  lemma SetPort(bits: seq<bv64>, p: nat, w: nat, b: nat)
    requires |bits| == WORDS && p < PORTS && w == p / WORD && b == p % WORD
    ensures FreeIn(bits[w := Or(bits[w], Bit(b))]) == FreeIn(bits) + {p}
  {
    hide Has, Or, Bit;
    var after := bits[w := Or(bits[w], Bit(b))];
    forall q: nat | q < PORTS ensures HasPort(after, q) <==> HasPort(bits, q) || q == p {
      if q / WORD == w { SetHas(bits[w], b, q % WORD); }
    }
  }

  lemma ClearPort(bits: seq<bv64>, p: nat, w: nat, b: nat)
    requires |bits| == WORDS && p < PORTS && w == p / WORD && b == p % WORD
    ensures FreeIn(bits[w := AndNot(bits[w], Bit(b))]) == FreeIn(bits) - {p}
  {
    hide Has, AndNot, Bit;
    var after := bits[w := AndNot(bits[w], Bit(b))];
    forall q: nat | q < PORTS ensures HasPort(after, q) <==> HasPort(bits, q) && q != p {
      if q / WORD == w { ClearHas(bits[w], b, q % WORD); }
    }
  }

  lemma WordEmpty(bits: seq<bv64>, w: nat)
    requires |bits| == WORDS && w < WORDS
    ensures bits[w] == 0 <==> InWord(FreeIn(bits), w) == {}
  {
    hide Has;
    ZeroIff(bits[w]);
    assert forall p :: p in InWord(FreeIn(bits), w) ==> HasPort(bits, p);
    if bits[w] != 0 {
      var b: nat :| b < 64 && Has(bits[w], b);
      assert HasPort(bits, w * WORD + b);
      assert w * WORD + b in InWord(FreeIn(bits), w);
    }
  }

  const ONES: bv64 := 0xFFFF_FFFF_FFFF_FFFF

  lemma OnesHave(b: nat)
    requires b < 64
    ensures Has(ONES, b)
  {
    BitSet(b);
    hide Bit;
    assert And(ONES, Bit(b)) == Bit(b);
  }

  /** port_bits[0] ^= 1 on a full word */
  function Flip(word: bv64): bv64 {
    word ^ 1
  }

  lemma FlipOnes()
    ensures Flip(ONES) == AndNot(ONES, Bit(0))
  {
  }

  lemma FullArray(bits: seq<bv64>)
    requires |bits| == WORDS && (forall i :: 0 <= i < WORDS ==> bits[i] == ONES)
    ensures FreeIn(bits[0 := Flip(bits[0])]) == AllPorts()
  {
    FlipOnes();
    ClearPort(bits, 0, 0, 0);
    hide Has, AndNot, Flip;
    forall q: nat | q < PORTS ensures HasPort(bits, q) { OnesHave(q % WORD); }
  }

  // ------------------------------------------------ the allocator

  class Allocator {
    const portBits: array<bv64>
    var initArray: bool
    var firstFree: nat
    var rsvd: nat
    var freed: nat
    var err: nat

    ghost predicate Valid()
      reads this
    {
      portBits.Length == WORDS && firstFree <= WORDS
    }

    ghost function View(): Ports
      reads this, portBits
      requires Valid()
    {
      Ports(initArray, FreeIn(portBits[..]), firstFree, rsvd, freed, err)
    }

    /** Static storage before its first use. */
    constructor ()
      ensures Valid() && fresh(portBits) && initArray && firstFree == 0
    {
      portBits := new bv64[WORDS](i => 0);
      initArray, firstFree, rsvd, freed, err := true, 0, 0, 0, 0;
    }

    /** init_scif_array */
    method InitArray()
      requires Valid()
      modifies this, portBits
      ensures Valid() && View() == Init(old(View()))
    {
      hide Has, FreeIn, AllPorts;
      if initArray {
        for i := 0 to WORDS
          invariant Valid() && forall j :: 0 <= j < i ==> portBits[j] == ONES
        {
          portBits[i] := ONES;
        }
        ghost var full := portBits[..];
        FullArray(full);
        firstFree := RSVD / WORD;
        portBits[0] := Flip(portBits[0]);
        assert portBits[..] == full[0 := Flip(full[0])];
        rsvd, freed, err := 0, 0, 0;
        initArray := false;
      }
    }

    /** __scif_clrbit */
    method ClrBit(ix: nat, bit: nat) returns (r: nat)
      requires Valid() && ix < WORDS && 1 <= bit <= 64
      modifies portBits
      ensures r == if ix * WORD + bit - 1 in old(View()).free then bit else 0
      ensures View() == old(View()).(free := old(View()).free - {ix * WORD + bit - 1})
    {
      hide Has, And, AndNot, Bit;
      ghost var p, before := ix * WORD + bit - 1, portBits[..];
      assert p / WORD == ix && p % WORD == bit - 1;
      assert p in FreeIn(before) <==> HasPort(before, p);
      ClearPort(before, p, ix, bit - 1);
      var msk := Bit(bit - 1);
      if Has(portBits[ix], bit - 1) {
        portBits[ix] := AndNot(portBits[ix], msk);
        assert portBits[..] == before[ix := AndNot(before[ix], msk)];
        return bit;
      }
      r := 0;
    }

    /** __scif_setbit */
    method SetBit(ix: nat, bit: nat)
      requires Valid() && ix < WORDS && 1 <= bit <= 64
      modifies portBits
      ensures View() == old(View()).(free := old(View()).free + {ix * WORD + bit - 1})
    {
      hide Has, Or, Bit;
      ghost var p, before := ix * WORD + bit - 1, portBits[..];
      assert p / WORD == ix && p % WORD == bit - 1;
      SetPort(before, p, ix, bit - 1);
      portBits[ix] := Or(portBits[ix], Bit(bit - 1));
      assert portBits[..] == before[ix := Or(before[ix], Bit(bit - 1))];
    }

    /** __scif_ffsclr */
    method FfsClr(ix: nat) returns (bit: nat)
      requires Valid() && ix < WORDS
      modifies portBits
      ensures bit <= 64 && (bit == 0 <==> InWord(old(View()).free, ix) == {})
      ensures bit > 0 ==> IsLeast(ix * WORD + bit - 1, InWord(old(View()).free, ix))
      ensures View() == if bit == 0 then old(View()) else old(View()).(free := old(View()).free - {ix * WORD + bit - 1})
    {
      hide Has, AndNot, Bit;
      ghost var before := portBits[..];
      bit := FirstSet(portBits[ix]);
      WordEmpty(before, ix);
      if bit != 0 {
        ghost var p := ix * WORD + bit - 1;
        assert p / WORD == ix && p % WORD == bit - 1 && HasPort(before, p);
        forall q | q in InWord(FreeIn(before), ix) ensures p <= q {
          assert HasPort(before, q) && q == ix * WORD + q % WORD;
        }
        ClearPort(before, p, ix, bit - 1);
        portBits[ix] := AndNot(portBits[ix], Bit(bit - 1));
        assert portBits[..] == before[ix := AndNot(before[ix], Bit(bit - 1))];
      }
    }

    /** rsrv_scif_port */
    method RsrvPort(port: Port) returns (r: Port)
      requires Valid()
      modifies this, portBits
      ensures Valid() && View() == Reserve(old(View()), port).0 && r == Reserve(old(View()), port).1
      ensures r == if port != 0 && port in Init(old(View())).free then port else 0
      ensures r != 0 ==> View().free == Init(old(View())).free - {port}
    {
      ReserveIffFree(View(), port);
      hide FreeIn;
      if port == 0 {
        err := err + 1;
        return 0;
      }
      InitArray();
      var ix := port / WORD;
      var bit := ClrBit(ix, 1 + port % WORD);
      if bit != 0 {
        r := bit - 1 + WORD * ix;
        rsvd := rsvd + 1;
      } else {
        r := 0;
        err := err + 1;
      }
    }

    /** get_scif_port */
    method GetPort() returns (port: Port)
      requires Valid()
      modifies this, portBits
      ensures Valid() && Gets(old(View()), View(), port)
    {
      hide FreeIn;
      InitArray();
      ghost var t := View();
      if firstFree == WORDS {
        err := err + 1;
        return 0;
      }
      var bit := FfsClr(firstFree);
      if bit != 0 {
        port := bit - 1 + WORD * firstFree;
        ghost var free := View().free;
        while firstFree < WORDS && portBits[firstFree] == 0
          invariant Valid() && t.firstFree <= firstFree && View() == t.(free := free, firstFree := firstFree)
          invariant forall u :: t.firstFree <= u < firstFree ==> InWord(free, u) == {}
        {
          WordEmpty(portBits[..], firstFree);
          firstFree := firstFree + 1;
        }
        if firstFree < WORDS { WordEmpty(portBits[..], firstFree); }
        rsvd := rsvd + 1;
      } else {
        port := 0;
        err := err + 1;
      }
    }

    /** put_scif_port */
    method PutPort(port: Port)
      requires Valid()
      modifies this, portBits
      ensures Valid() && View() == Put(old(View()), port)
      ensures View().free == if port != 0 then old(View()).free + {port} else old(View()).free
    {
      hide FreeIn;
      if port == 0 {
        err := err + 1;
        return;
      }
      var ix := port / WORD;
      SetBit(ix, 1 + port % WORD);
      if port >= RSVD && ix < firstFree {
        firstFree := ix;
      }
      freed := freed + 1;
    }
  }
}
