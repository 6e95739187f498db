/**
 A mask of nodes, one bit each in an array of bytes.
 */
module NodeMask {

  /** Bit `b` of a byte. */
  function BitOf(b: nat): bv8
    requires b < 8
  {
    (1 as bv8) << b
  }

  predicate Has(mask: seq<bv8>, node: nat) {
    node / 8 < |mask| && mask[node / 8] & BitOf(node % 8) != 0
  }

  /** Setting or clearing one bit of a byte leaves the other seven alone. */
  lemma OneBit(byte: bv8, b: nat, c: nat)
    requires b < 8 && c < 8
    ensures (byte | BitOf(b)) & BitOf(c) != 0 <==> c == b || byte & BitOf(c) != 0
    ensures (byte & !BitOf(b)) & BitOf(c) != 0 <==> c != b && byte & BitOf(c) != 0
  {
  }

  /** A byte with bit `b` set or cleared. */
  function WithBit(byte: bv8, b: nat, val: bool): bv8
    requires b < 8
  {
    if val then byte | BitOf(b) else byte & !BitOf(b)
  }

  /** The same for a byte of a mask. */
  lemma WithBitHas(byte: bv8, b: nat, val: bool, c: nat)
    requires b < 8 && c < 8
    ensures WithBit(byte, b, val) & BitOf(c) != 0 <==> if c == b then val else byte & BitOf(c) != 0
  {
    OneBit(byte, b, c);
    hide BitOf;
  }

  lemma AfterSet(mask: seq<bv8>, node: nat, val: bool, j: nat)
    requires node / 8 < |mask|
    ensures var after := mask[node / 8 := WithBit(mask[node / 8], node % 8, val)];
            Has(after, j) <==> if j == node then val else Has(mask, j)
  {
    hide BitOf, WithBit;
    SameNode(node, j);
    var byte, b, c := mask[node / 8], node % 8, j % 8;
    var after := mask[node / 8 := WithBit(byte, b, val)];
    if j / 8 == node / 8 {
      WithBitHas(byte, b, val, c);
      assert Has(after, j) <==> WithBit(byte, b, val) & BitOf(c) != 0;
      assert Has(mask, j) <==> byte & BitOf(c) != 0;
    } else {
      assert Has(after, j) <==> Has(mask, j);
    }
  }

  lemma SameNode(node: nat, j: nat)
    ensures j == node <==> j / 8 == node / 8 && j % 8 == node % 8
  {
  }

  /** set_nodemask_bit */
  method SetBit(mask: array<bv8>, node: nat, val: bool)
    requires node / 8 < mask.Length
    modifies mask
    ensures forall j: nat :: Has(mask[..], j) <==> if j == node then val else Has(old(mask[..]), j)
  {
    hide Has, WithBit;
    var index := node / 8;
    var b := node - index * 8;
    assert b == node % 8;
    mask[index] := WithBit(mask[index], b, val);
    forall j: nat ensures Has(mask[..], j) <==> if j == node then val else Has(old(mask[..]), j) {
      AfterSet(old(mask[..]), node, val, j);
    }
  }

  /** get_nodemask_bit */
  method GetBit(mask: array<bv8>, node: nat) returns (bit: bool)
    requires node / 8 < mask.Length
    ensures bit == Has(mask[..], node)
  {
    var index := node / 8;
    var b := node - index * 8;
    bit := mask[index] & BitOf(b) != 0;
  }

  /** nodemask_isvalid */
  method IsValid(mask: array<bv8>, nodes: nat) returns (valid: bool)
    requires nodes <= 8 * mask.Length
    ensures valid <==> exists i: nat :: i < nodes && Has(mask[..], i)
  {
    for i := 0 to nodes
      invariant forall j: nat :: j < i ==> !Has(mask[..], j)
    {
      var bit := GetBit(mask, i);
      if bit {
        return true;
      }
    }
    valid := false;
  }
}
