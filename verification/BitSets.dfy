/** Growable bit sets of 64-bit chunks refine finite sets of naturals (src/bitset.rs). */
module BitSets {
  import opened Wrappers
  import opened Bits

  type Chunks = seq<Word>

  predicate Has(data: Chunks, i: nat) { i / Size < |data| && Bit(data[i / Size], i % Size) }

  /** The set that chunks stand for. */
  function Elements(data: Chunks): set<nat> { set i: nat | i < Size * |data| && Has(data, i) }

  lemma ElementsHas(data: Chunks, i: nat)
    ensures i in Elements(data) <==> Has(data, i)
  {
    hide Bit;
  }

  lemma HasAt(data: Chunks, c: nat, b: nat)
    requires c < |data| && b < Size
    ensures (Size * c + b) / Size == c && (Size * c + b) % Size == b && (Has(data, Size * c + b) <==> Bit(data[c], b))
  {
    hide Bit;
  }

  /** Chunks that agree bit by bit with a combination of two others stand for the combination of their sets. */
  lemma SameElements(data: Chunks, s: set<nat>)
    requires forall i: nat :: Has(data, i) <==> i in s
    ensures Elements(data) == s
  {
    hide Has;
    forall i: nat ensures i in Elements(data) <==> i in s {
      ElementsHas(data, i);
    }
  }

  predicate NoTrailingZeroes(data: Chunks) { data != [] ==> data[|data| - 1] != 0 }

  function Max(a: nat, b: nat): nat { if a < b then b else a }

  /** Chunks needed for `cap` bits. */
  function LenNeeded(cap: nat): (n: nat)
    ensures Size * n >= cap && forall k: nat :: Size * k >= cap ==> k >= n
  {
    if cap % Size == 0 then cap / Size else cap / Size + 1
  }

  class BitSet {
    var data: Chunks

    ghost function Members(): set<nat>
      reads this
    {
      Elements(data)
    }

    constructor ()
      ensures data == [] && Members() == {}
    {
      data := [];
    }

    method Test(i: nat) returns (b: bool)
      ensures b <==> i in Members()
    {
      hide Mask, And;
      ElementsHas(data, i);
      if i / Size < |data| {
        return And(data[i / Size], Mask(i % Size)) != 0;
      }
      return false;
    }

    /** Insert or remove; returns whether the element was there. Only inserting adds chunks. */
    method SetTo(i: nat, val: bool) returns (was: bool)
      modifies this
      ensures Members() == if val then old(Members()) + {i} else old(Members()) - {i}
      ensures was <==> i in old(Members())
      ensures |data| == if val then Max(|old(data)|, i / Size + 1) else |old(data)|
    {
      hide Mask, And, Or, Not, Bit;
      var mask := Mask(i % Size);
      var at := i / Size;
      ElementsHas(data, i);
      if at >= |data| {
        if !val {
          assert Members() == old(Members()) - {i};
          return false;
        }
        while |data| <= at
          invariant |old(data)| <= |data| <= Max(|old(data)|, at + 1)
          invariant Members() == old(Members())
        {
          PaddedElements(data);
          data := data + [0];
        }
        ElementsHas(data, i);
      }
      var chunk := data[at];
      BitIs(chunk, i % Size);
      was := And(chunk, mask) != 0;
      if val {
        UpdatedElements(data, i, Or(chunk, mask), val);
        data := data[at := Or(chunk, mask)];
      } else {
        UpdatedElements(data, i, And(chunk, Not(mask)), val);
        data := data[at := And(chunk, Not(mask))];
      }
    }

    /** Sound always; complete unless the other set has more chunks. */
    method IsSuperset(other: BitSet) returns (b: bool)
      ensures b <==> other.Members() <= Members() && |other.data| <= |data|
      ensures NoTrailingZeroes(other.data) ==> (b <==> other.Members() <= Members())
    {
      hide Mask, And, Or, Not, Bit, NoTrailingZeroes, Elements;
      if other.Members() <= Members() && NoTrailingZeroes(other.data) {
        SupersetLength(data, other.data);
      }
      if |data| < |other.data| {
        return false;
      }
      var c := 0;
      while c < |other.data|
        invariant 0 <= c <= |other.data|
        invariant forall i: nat :: i < Size * c && i in other.Members() ==> i in Members()
      {
        var either := Or(data[c], other.data[c]);
        var otherOnly := And(either, Not(data[c]));
        ChunkCovered(data, other.data, c);
        if otherOnly != 0 {
          return false;
        }
        c := c + 1;
      }
      ElementsBound(other.data);
      return true;
    }

    method IntersectsWith(other: BitSet) returns (b: bool)
      ensures b <==> Members() * other.Members() != {}
    {
      hide Mask, And, Or, Not, Bit, Elements;
      var c := 0;
      while c < |data| && c < |other.data|
        invariant 0 <= c <= |data| && c <= |other.data|
        invariant forall i: nat :: i < Size * c ==> !(i in Members() && i in other.Members())
      {
        ChunkMeets(data, other.data, c);
        if And(data[c], other.data[c]) != 0 {
          ghost var i: nat :| i in Members() && i in other.Members();
          assert i in Members() * other.Members();
          return true;
        }
        c := c + 1;
      }
      ElementsBound(data);
      ElementsBound(other.data);
      assert Members() * other.Members() == {};
      return false;
    }

    /** Removes the other set's members; zero chunks may remain at the end. */
    method DifferenceWith(other: BitSet)
      requires other != this
      modifies this
      ensures Members() == old(Members()) - other.Members() && |data| == |old(data)|
    {
      hide Mask, And, Or, Not, Bit, Elements;
      var c := 0;
      while c < |data| && c < |other.data|
        invariant 0 <= c <= |data| == |old(data)| && c <= |other.data|
        invariant forall k :: c <= k < |data| ==> data[k] == old(data)[k]
        invariant forall k :: 0 <= k < c ==> data[k] == And(old(data)[k], Not(other.data[k]))
      {
        data := data[c := And(data[c], Not(other.data[c]))];
        c := c + 1;
      }
      DifferenceElements(old(data), other.data, data);
    }

    method PadTrailingZeroes(len: nat)
      modifies this
      ensures Members() == old(Members()) && |data| == Max(|old(data)|, len)
    {
      while |data| < len
        invariant |old(data)| <= |data| <= Max(|old(data)|, len) && Members() == old(Members())
      {
        PaddedElements(data);
        data := data + [0];
      }
    }

    /** Drops the zero chunks at the end, which no member is in. */
    method StripTrailingZeroes()
      modifies this
      ensures Members() == old(Members()) && NoTrailingZeroes(data)
      ensures |data| <= |old(data)| && data == old(data)[..|data|]
    {
      while data != []
        invariant |data| <= |old(data)| && data == old(data)[..|data|] && Members() == old(Members())
      {
        var x := data[|data| - 1];
        if x != 0 {
          return;
        }
        var init := data[..|data| - 1];
        assert data == init + [0];
        PaddedElements(init);
        data := init;
      }
    }
  }

  // ---------------------------------------------------------------- chunks and members

  lemma BitIs(x: Word, i: nat)
    ensures Bit(x, i) <==> And(x, Mask(i)) != 0
  {
    hide Mask, And;
  }

  lemma PaddedElements(data: Chunks)
    ensures Elements(data + [0]) == Elements(data)
  {
    hide Bit, Elements;
    forall i: nat ensures Has(data + [0], i) <==> i in Elements(data) {
      ZeroBit(i % Size);
      ElementsHas(data, i);
    }
    SameElements(data + [0], Elements(data));
  }

  lemma UpdatedElements(data: Chunks, i: nat, x: Word, val: bool)
    requires i / Size < |data|
    requires x == if val then Or(data[i / Size], Mask(i % Size)) else And(data[i / Size], Not(Mask(i % Size)))
    ensures Elements(data[i / Size := x]) == if val then Elements(data) + {i} else Elements(data) - {i}
  {
    hide Mask, And, Or, Not, Bit, Elements;
    var s := if val then Elements(data) + {i} else Elements(data) - {i};
    forall j: nat ensures Has(data[i / Size := x], j) <==> j in s {
      ElementsHas(data, j);
      SetBit(data[i / Size], i % Size, j % Size);
      assert j / Size == i / Size && j % Size == i % Size ==> j == i;
    }
    SameElements(data[i / Size := x], s);
  }

  /** Without zero chunks at the end, a longer set has a member beyond the shorter one. */
  lemma SupersetLength(data: Chunks, other: Chunks)
    requires Elements(other) <= Elements(data) && NoTrailingZeroes(other)
    ensures |other| <= |data|
  {
    hide Bit, Elements;
    if |other| > |data| {
      var c := |other| - 1;
      var b := SomeBit(other[c]);
      HasAt(other, c, b);
      ElementsHas(other, Size * c + b);
      ElementsHas(data, Size * c + b);
    }
  }

  /** One chunk's worth of the superset test. */
  lemma ChunkCovered(data: Chunks, other: Chunks, c: nat)
    requires c < |data| && c < |other|
    ensures And(Or(data[c], other[c]), Not(data[c])) == 0 <==>
            forall i: nat :: Size * c <= i < Size * (c + 1) && i in Elements(other) ==> i in Elements(data)
  {
    hide Mask, And, Or, Not, Bit, Elements;
    var x := And(Or(data[c], other[c]), Not(data[c]));
    forall b: nat | b < Size
      ensures Bit(x, b) <==> Size * c + b in Elements(other) && Size * c + b !in Elements(data)
    {
      Bitwise(Or(data[c], other[c]), Not(data[c]), b);
      Bitwise(data[c], other[c], b);
      MemberAt(data, c, b);
      MemberAt(other, c, b);
    }
    if x != 0 {
      var b := SomeBit(x);
    } else {
      forall i: nat | Size * c <= i < Size * (c + 1) && i in Elements(other) ensures i in Elements(data) {
        ZeroBit(i - Size * c);
        assert i == Size * c + (i - Size * c);
      }
    }
  }

  lemma MemberAt(data: Chunks, c: nat, b: nat)
    requires c < |data| && b < Size
    ensures Size * c + b in Elements(data) <==> Bit(data[c], b)
  {
    hide Bit, Elements;
    HasAt(data, c, b);
    ElementsHas(data, Size * c + b);
  }

  lemma ElementsBound(data: Chunks)
    ensures forall i: nat :: i in Elements(data) ==> i < Size * |data|
  {
    hide Bit;
  }

  /** One chunk's worth of the intersection test. */
  lemma ChunkMeets(data: Chunks, other: Chunks, c: nat)
    requires c < |data| && c < |other|
    ensures And(data[c], other[c]) == 0 <==>
            forall i: nat :: Size * c <= i < Size * (c + 1) ==> !(i in Elements(data) && i in Elements(other))
  {
    hide Mask, And, Or, Not, Bit, Elements;
    forall b: nat | b < Size
      ensures Bit(And(data[c], other[c]), b) <==> Size * c + b in Elements(data) && Size * c + b in Elements(other)
    {
      Bitwise(data[c], other[c], b);
      MemberAt(data, c, b);
      MemberAt(other, c, b);
    }
    if And(data[c], other[c]) != 0 {
      var b := SomeBit(And(data[c], other[c]));
    } else {
      forall i: nat | Size * c <= i < Size * (c + 1) ensures !(i in Elements(data) && i in Elements(other)) {
        ZeroBit(i - Size * c);
        assert i == Size * c + (i - Size * c);
      }
    }
  }

  lemma DifferenceElements(before: Chunks, other: Chunks, after: Chunks)
    requires |after| == |before|
    requires forall k :: 0 <= k < |after| ==>
      after[k] == if k < |other| then And(before[k], Not(other[k])) else before[k]
    ensures Elements(after) == Elements(before) - Elements(other)
  {
    hide Mask, And, Or, Not, Bit, Elements;
    var s := Elements(before) - Elements(other);
    forall i: nat ensures Has(after, i) <==> i in s {
      ElementsHas(before, i);
      ElementsHas(other, i);
      if i / Size < |after| && i / Size < |other| {
        Bitwise(before[i / Size], Not(other[i / Size]), i % Size);
        Bitwise(other[i / Size], 0, i % Size);
      }
    }
    SameElements(after, s);
  }

  // ---------------------------------------------------------------- iteration

  /** Walks over the bits of a set, chunk by chunk. */
  class SparseIter {
    const a: BitSet
    var n: Option<Word>
    var maj: nat
    var min: nat

    ghost predicate Valid()
      reads this, a
    {
      min <= Size && n == if maj < |a.data| then Some(a.data[maj]) else None
    }

    /** Everything below has been visited. */
    ghost function Position(): nat
      reads this
    {
      Size * maj + min
    }

    constructor (a: BitSet)
      ensures Valid() && this.a == a && Position() == 0
    {
      this.a := a;
      n := if |a.data| > 0 then Some(a.data[0]) else None;
      maj := 0;
      min := 0;
    }

    /** The least member not visited yet. */
    method Next() returns (r: Option<nat>)
      requires Valid()
      modifies this
      ensures Valid()
      ensures match r
              case Some(i) =>
                && i in a.Members() && old(Position()) <= i && Position() == i + 1
                && forall j: nat :: old(Position()) <= j < i ==> j !in a.Members()
              case None => forall j: nat :: old(Position()) <= j ==> j !in a.Members()
    {
      hide Mask, And, Or, Not, Bit, Elements;
      while true
        invariant Valid() && old(Position()) <= Position()
        invariant forall j: nat :: old(Position()) <= j < Position() ==> j !in a.Members()
        decreases Size * |a.data| - Position(), if min == Size then 1 else 0
      {
        if min == Size {
          min := 0;
          maj := maj + 1;
          n := if maj < |a.data| then Some(a.data[maj]) else None;
        }
        match n {
          case Some(x) =>
            var val := And(Mask(min), x);
            MemberAt(a.data, maj, min);
            BitIs(x, min);
            AndSwap(Mask(min), x);
            min := min + 1;
            if val != 0 {
              return Some(maj * Size + (min - 1));
            }
          case None =>
            ElementsBound(a.data);
            return None;
        }
      }
    }
  }

  lemma AndSwap(x: Word, y: Word)
    ensures And(x, y) == And(y, x)
  {
  }

  predicate Ascending(xs: seq<nat>) { forall i, j :: 0 <= i < j < |xs| ==> xs[i] < xs[j] }

  /** Iterating yields every member exactly once, in ascending order. */
  method Sparse(a: BitSet) returns (xs: seq<nat>)
    ensures Ascending(xs) && forall i: nat :: i in xs <==> i in a.Members()
  {
    hide Elements;
    var iter := new SparseIter(a);
    xs := [];
    while true
      invariant iter.Valid() && fresh(iter) && iter.a == a
      invariant Ascending(xs) && forall k :: 0 <= k < |xs| ==> xs[k] < iter.Position()
      invariant forall i: nat :: i < iter.Position() ==> (i in xs <==> i in a.Members())
      decreases Size * |a.data| - iter.Position()
    {
      var r := iter.Next();
      if r.None? {
        return;
      }
      ElementsBound(a.data);
      xs := xs + [r.value];
    }
  }
}
