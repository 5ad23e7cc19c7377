/** Single bits of 64-bit words. The word operations have names, so that proofs about many words can treat them as
    opaque and only the lemmas about single words look inside. */
module Bits {
  type Word = bv64

  const Size: nat := 64

  function And(x: Word, y: Word): Word { x & y }

  function Or(x: Word, y: Word): Word { x | y }

  function Not(x: Word): Word { !x }

  function Twice(x: Word): Word { x << 1 }

  /** The bits below a single bit. */
  function Under(m: Word): Word { m - 1 }

  /** `1 << i` */
  function Mask(i: nat): Word { if i == 0 then 1 else Twice(Mask(i - 1)) }

  predicate Bit(x: Word, i: nat) { And(x, Mask(i)) != 0 }

  // ---------------------------------------------------------------- the 64 masks

  function Times16(x: Word): Word { x << 4 }

  lemma MaskNext(i: nat)
    ensures Mask(i + 1) == Twice(Mask(i)) && Mask(0) == 1
  {
    hide Twice;
  }

  lemma ShiftFour(i: nat)
    ensures Mask(i + 4) == Times16(Mask(i))
  {
    hide Mask, Twice, Times16;
    MaskNext(i);
    MaskNext(i + 1);
    MaskNext(i + 2);
    MaskNext(i + 3);
    FourShifts(Mask(i));
  }

  lemma FourShifts(m: Word)
    ensures Twice(Twice(Twice(Twice(m)))) == Times16(m)
  {
  }

  lemma TopMask()
    ensures Mask(Size - 1) == 0x8000_0000_0000_0000
  {
    ShiftFour(0); ShiftFour(4); ShiftFour(8); ShiftFour(12); ShiftFour(16); ShiftFour(20); ShiftFour(24); ShiftFour(28);
    ShiftFour(32); ShiftFour(36); ShiftFour(40); ShiftFour(44); ShiftFour(48); ShiftFour(52); ShiftFour(56);
    assert Mask(60) == 0x1000_0000_0000_0000 && Mask(61) == Twice(Mask(60)) && Mask(62) == Twice(Mask(61))
      && Mask(63) == Twice(Mask(62));
  }

  /** One bit and no more. */
  predicate Single(m: Word) { m != 0 && And(m, Under(m)) == 0 }

  lemma {:induction false} NonZero(i: nat)
    requires i < Size
    ensures Mask(i) != 0
    decreases Size - i
  {
    hide Mask;
    if i == Size - 1 {
      TopMask();
    } else {
      NonZero(i + 1);
      MaskNext(i);
    }
  }

  lemma {:induction false} MaskSingle(i: nat)
    requires i < Size
    ensures Single(Mask(i))
    ensures i > 0 ==> Under(Mask(i)) == Or(Under(Mask(i - 1)), Mask(i - 1))
  {
    hide Mask, Single, Or, Under, And, Twice;
    NonZero(i);
    MaskNext(0);
    OneSingle();
    if i > 0 {
      MaskNext(i - 1);
      MaskSingle(i - 1);
      Doubled(Mask(i - 1));
    }
  }

  lemma OneSingle()
    ensures Single(1)
  {
  }

  lemma Doubled(m: Word)
    requires Single(m) && Twice(m) != 0
    ensures Single(Twice(m)) && Under(Twice(m)) == Or(Under(m), m)
  {
  }

  lemma {:induction false} Below(i: nat, j: nat)
    requires i < j < Size
    ensures And(Mask(i), Under(Mask(j))) == Mask(i)
  {
    hide Mask, Single, Or, Under, And, Twice;
    MaskSingle(j);
    if i < j - 1 {
      Below(i, j - 1);
    }
    Covered(Mask(i), Mask(j - 1));
  }

  lemma Covered(a: Word, m: Word)
    requires a == m || And(a, Under(m)) == a
    ensures And(a, Or(Under(m), m)) == a
  {
  }

  /** Different masks do not overlap. */
  lemma Apart(i: nat, j: nat)
    requires i < Size && j < Size && i != j
    ensures And(Mask(i), Mask(j)) == 0
  {
    hide Mask, Or, Under, And, Twice;
    var lo, hi := if i < j then i else j, if i < j then j else i;
    Below(lo, hi);
    MaskSingle(hi);
    Disjoint(Mask(lo), Mask(hi));
  }

  lemma Disjoint(a: Word, m: Word)
    requires And(a, Under(m)) == a && And(m, Under(m)) == 0
    ensures And(a, m) == 0 && And(m, a) == 0
  {
  }

  // ---------------------------------------------------------------- words as sets of bits

  lemma ZeroBit(i: nat)
    ensures !Bit(0, i)
  {
    hide Mask;
    NoBits(Mask(i));
  }

  lemma NoBits(x: Word)
    ensures And(0, x) == 0 && And(x, 0) == 0
  {
  }

  /** The operations on words work bit by bit. */
  lemma Bitwise(x: Word, y: Word, i: nat)
    requires i < Size
    ensures Bit(And(x, y), i) <==> Bit(x, i) && Bit(y, i)
    ensures Bit(Or(x, y), i) <==> Bit(x, i) || Bit(y, i)
    ensures Bit(Not(x), i) <==> !Bit(x, i)
  {
    hide Mask, Or, Under, And, Twice, Not, Single;
    MaskSingle(i);
    AndSingle(x, y, Mask(i));
    OrSingle(x, y, Mask(i));
    NotSingle(x, Mask(i));
  }

  lemma AndSingle(x: Word, y: Word, m: Word)
    requires Single(m)
    ensures And(And(x, y), m) != 0 <==> And(x, m) != 0 && And(y, m) != 0
  {
    hide And, Single;
    AndSplit(x, y, m);
    AllOrNothing(x, m);
    AllOrNothing(y, m);
  }

  lemma AndSplit(x: Word, y: Word, m: Word)
    ensures And(And(x, y), m) == And(And(x, m), And(y, m))
    ensures And(m, m) == m && And(0, m) == 0 && And(m, 0) == 0 && And(0, 0) == 0
  {
  }

  lemma AllOrNothing(x: Word, m: Word)
    requires Single(m)
    ensures (And(x, m) == 0 || And(x, m) == m) && m != 0
  {
  }

  lemma OrSingle(x: Word, y: Word, m: Word)
    requires Single(m)
    ensures And(Or(x, y), m) != 0 <==> And(x, m) != 0 || And(y, m) != 0
  {
    hide And, Or, Not, Single;
    DeMorgan(x, y);
    NotSingle(x, m);
    NotSingle(y, m);
    AndSingle(Not(x), Not(y), m);
    NotSingle(And(Not(x), Not(y)), m);
  }

  lemma DeMorgan(x: Word, y: Word)
    ensures Or(x, y) == Not(And(Not(x), Not(y)))
  {
  }

  lemma NotSingle(x: Word, m: Word)
    requires Single(m)
    ensures And(Not(x), m) != 0 <==> And(x, m) == 0
  {
    NotBits(x, m);
  }

  lemma NotBits(x: Word, m: Word)
    requires m != 0 && m & (m - 1) == 0
    ensures (!x) & m != 0 <==> x & m == 0
  {
  }

  lemma SetBit(x: Word, i: nat, j: nat)
    requires i < Size && j < Size
    ensures Bit(Or(x, Mask(i)), j) <==> Bit(x, j) || j == i
    ensures Bit(And(x, Not(Mask(i))), j) <==> Bit(x, j) && j != i
  {
    hide Mask, Or, Under, And, Twice, Not;
    MaskBit(i, j);
    Bitwise(x, Mask(i), j);
    Bitwise(x, Not(Mask(i)), j);
    Bitwise(Mask(i), 0, j);
  }

  lemma MaskBit(i: nat, j: nat)
    requires i < Size && j < Size
    ensures Bit(Mask(i), j) <==> i == j
  {
    hide Mask, Or, Under, And, Twice, Not;
    if i == j {
      NonZero(i);
      AndSame(Mask(i));
    } else {
      Apart(i, j);
    }
  }

  lemma AndSame(m: Word)
    ensures And(m, m) == m
  {
  }

  /** A word that is not zero has a bit. */
  lemma SomeBit(x: Word) returns (i: nat)
    requires x != 0
    ensures i < Size && Bit(x, i)
  {
    hide Mask, Or, Under, And, Twice, Not, Single;
    TopMask();
    AllBits(x);
    if And(x, Mask(Size - 1)) != 0 {
      i := Size - 1;
    } else {
      i := LowBit(x, Size - 1);
    }
  }

  lemma AllBits(x: Word)
    requires x != 0
    ensures And(x, 0x8000_0000_0000_0000) != 0 || And(x, Under(0x8000_0000_0000_0000)) != 0
  {
  }

  lemma {:induction false} LowBit(x: Word, j: nat) returns (i: nat)
    requires j < Size && And(x, Under(Mask(j))) != 0
    ensures i < j && Bit(x, i)
  {
    hide Mask, Or, Under, And, Twice, Not, Single;
    if j == 0 {
      MaskNext(0);
      NothingUnder(x);
    } else {
      MaskSingle(j);
      SplitBits(x, Mask(j - 1));
      if And(x, Mask(j - 1)) != 0 {
        i := j - 1;
      } else {
        i := LowBit(x, j - 1);
      }
    }
  }

  lemma NothingUnder(x: Word)
    ensures And(x, Under(1)) == 0
  {
  }

  lemma SplitBits(x: Word, m: Word)
    requires And(x, Or(Under(m), m)) != 0
    ensures And(x, m) != 0 || And(x, Under(m)) != 0
  {
  }
}
