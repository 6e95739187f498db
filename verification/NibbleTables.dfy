/**
 Constant tables of 256 entries, as sixteen rows of sixteen: the high nibble of the index
 selects the row, the low nibble the entry.
 */
module NibbleTables {

  datatype Sixteen<T> = Sixteen(v0: T, v1: T, v2: T, v3: T, v4: T, v5: T, v6: T, v7: T,
                                v8: T, v9: T, v10: T, v11: T, v12: T, v13: T, v14: T, v15: T)

  type Table<T> = Sixteen<Sixteen<T>>

  /** The one of sixteen that the low four bits of `i` select. */
  function Select<T>(s: Sixteen<T>, i: bv8): T {
    if i & 8 == 0 then
      if i & 4 == 0 then
        if i & 2 == 0 then if i & 1 == 0 then s.v0 else s.v1 else if i & 1 == 0 then s.v2 else s.v3
      else
        if i & 2 == 0 then if i & 1 == 0 then s.v4 else s.v5 else if i & 1 == 0 then s.v6 else s.v7
    else
      if i & 4 == 0 then
        if i & 2 == 0 then if i & 1 == 0 then s.v8 else s.v9 else if i & 1 == 0 then s.v10 else s.v11
      else
        if i & 2 == 0 then if i & 1 == 0 then s.v12 else s.v13 else if i & 1 == 0 then s.v14 else s.v15
  }

  function Lookup<T>(t: Table<T>, x: bv8): T {
    Select(Select(t, x >> 4), x & 15)
  }

  function Each<T, U>(f: T -> U, s: Sixteen<T>): Sixteen<U> {
    Sixteen(f(s.v0), f(s.v1), f(s.v2), f(s.v3), f(s.v4), f(s.v5), f(s.v6), f(s.v7),
            f(s.v8), f(s.v9), f(s.v10), f(s.v11), f(s.v12), f(s.v13), f(s.v14), f(s.v15))
  }

  /** Every entry of a table. */
  function Every<T, U>(f: T -> U, t: Table<T>): Table<U> {
    Sixteen(Each(f, t.v0), Each(f, t.v1), Each(f, t.v2), Each(f, t.v3), Each(f, t.v4), Each(f, t.v5), Each(f, t.v6),
            Each(f, t.v7), Each(f, t.v8), Each(f, t.v9), Each(f, t.v10), Each(f, t.v11), Each(f, t.v12),
            Each(f, t.v13), Each(f, t.v14), Each(f, t.v15))
  }

  lemma SelectEach<T, U>(f: T -> U, s: Sixteen<T>, i: bv8)
    ensures Select(Each(f, s), i) == f(Select(s, i))
  {
  }

  lemma SelectEvery<T, U>(f: T -> U, t: Table<T>, i: bv8)
    ensures Select(Every(f, t), i) == Each(f, Select(t, i))
  {
    hide Each;
  }

  /** A table made from another, entry by entry, is looked up like the other. */
  lemma LookupEvery<T, U>(f: T -> U, t: Table<T>, x: bv8)
    ensures Lookup(Every(f, t), x) == f(Lookup(t, x))
  {
    hide Select, Each, Every;
    SelectEvery(f, t, x >> 4);
    SelectEach(f, Select(t, x >> 4), x & 15);
  }
}
