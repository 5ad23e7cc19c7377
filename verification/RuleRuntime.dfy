/** The chunk loops that test and apply a rule's masks (src/proto/mod.rs), against their meaning as sets. */
module RuleRuntime {
  import opened Bits
  import opened BitSets

  /** The masks of a rule, as the chunks of four bit sets. */
  datatype Masks = Masks(guardReady: Chunks, guardFull: Chunks, assignVals: Chunks, assignMask: Chunks)

  function Min(a: nat, b: nat): nat { if a < b then a else b }

  // ---------------------------------------------------------------- meaning

  /** Everything the rule involves is ready, and full exactly where it must be. */
  predicate SetGuard(ready: set<nat>, full: set<nat>, m: Masks) {
    forall l <- Elements(m.guardReady) :: l in ready && (l in full <==> l in Elements(m.guardFull))
  }

  function SetAssign(full: set<nat>, m: Masks): set<nat> { full - Elements(m.assignMask) + Elements(m.assignVals) }

  /** Where the zip of the four chunk vectors ends. */
  function GuardEnd(ready: nat, memory: nat, m: Masks): nat {
    Size * Min(Min(ready, memory), Min(|m.guardReady|, |m.guardFull|))
  }

  function AssignEnd(memory: nat, m: Masks): nat { Size * Min(memory, Min(|m.assignVals|, |m.assignMask|)) }

  /** What the loop really tests: the guard as far as all four vectors reach. */
  predicate ChunkGuard(ready: Chunks, memory: Chunks, m: Masks) {
    forall l <- Elements(m.guardReady) :: l < GuardEnd(|ready|, |memory|, m) ==>
      l in Elements(ready) && (l in Elements(memory) <==> l in Elements(m.guardFull))
  }

  // ---------------------------------------------------------------- the loops

  method IsReady(memory: BitSet, ready: BitSet, m: Masks) returns (b: bool)
    ensures b <==> ChunkGuard(ready.data, memory.data, m)
  {
    hide Mask, And, Or, Not, Bit, Elements;
    var end := Min(Min(|ready.data|, |memory.data|), Min(|m.guardReady|, |m.guardFull|));
    var c := 0;
    while c < end
      invariant 0 <= c <= end
      invariant forall l <- Elements(m.guardReady) :: l < Size * c ==>
                  l in ready.Members() && (l in memory.Members() <==> l in Elements(m.guardFull))
    {
      var mr, mv, gr, gv := ready.data[c], memory.data[c], m.guardReady[c], m.guardFull[c];
      var shouldBePos := And(gr, gv);
      var shouldBeNeg := And(gr, Not(gv));
      var arePos := And(mr, mv);
      var areNeg := And(mr, Not(mv));
      var falseNeg := And(shouldBePos, Not(arePos));
      var falsePos := And(shouldBeNeg, Not(areNeg));
      GuardChunk(ready.data, memory.data, m, c);
      if Or(falseNeg, falsePos) != 0 {
        return false;
      }
      c := c + 1;
    }
    return true;
  }

  method AssignMemoryBits(memory: BitSet, m: Masks)
    modifies memory
    ensures |memory.data| == |old(memory.data)|
    ensures forall l: nat :: l in memory.Members() <==>
              if l < AssignEnd(|old(memory.data)|, m) then l in SetAssign(old(memory.Members()), m)
                else l in old(memory.Members())
  {
    hide Mask, And, Or, Not, Bit, Elements;
    var end := Min(|memory.data|, Min(|m.assignVals|, |m.assignMask|));
    var c := 0;
    while c < end
      invariant 0 <= c <= end && |memory.data| == |old(memory.data)|
      invariant forall k ::
        0 <= k < c ==> memory.data[k] == Assigned(old(memory.data)[k], m.assignVals[k], m.assignMask[k])
      invariant forall k :: c <= k < |memory.data| ==> memory.data[k] == old(memory.data)[k]
    {
      var av, am := m.assignVals[c], m.assignMask[c];
      memory.data := memory.data[c := Or(memory.data[c], Or(av, am))];
      memory.data := memory.data[c := And(memory.data[c], Or(av, Not(am)))];
      c := c + 1;
    }
    forall l: nat ensures l in memory.Members() <==>
              if l < AssignEnd(|old(memory.data)|, m) then l in SetAssign(old(memory.Members()), m)
                else l in old(memory.Members())
    {
      AssignedAt(old(memory.data), memory.data, m, l);
    }
  }

  function Assigned(mv: Word, av: Word, am: Word): Word { And(Or(mv, Or(av, am)), Or(av, Not(am))) }

  /** Readiness is subtracted exactly, whatever the lengths. */
  method SubtractReadiness(ready: BitSet, m: Masks)
    modifies ready
    ensures ready.Members() == old(ready.Members()) - Elements(m.guardReady) && |ready.data| == |old(ready.data)|
  {
    hide Mask, And, Or, Not, Bit, Elements;
    var c := 0;
    while c < |ready.data| && c < |m.guardReady|
      invariant 0 <= c <= |ready.data| == |old(ready.data)| && c <= |m.guardReady|
      invariant forall k :: c <= k < |ready.data| ==> ready.data[k] == old(ready.data)[k]
      invariant forall k :: 0 <= k < c ==> ready.data[k] == And(old(ready.data)[k], Not(m.guardReady[k]))
    {
      ready.data := ready.data[c := And(ready.data[c], Not(m.guardReady[c]))];
      c := c + 1;
    }
    DifferenceElements(old(ready.data), m.guardReady, ready.data);
  }

  // ---------------------------------------------------------------- one chunk

  function Bad(mr: Word, mv: Word, gr: Word, gv: Word): Word {
    Or(And(And(gr, gv), Not(And(mr, mv))), And(And(gr, Not(gv)), Not(And(mr, Not(mv)))))
  }

  lemma BadBit(mr: Word, mv: Word, gr: Word, gv: Word, b: nat)
    requires b < Size
    ensures Bit(Bad(mr, mv, gr, gv), b) <==> Bit(gr, b) && !(Bit(mr, b) && (Bit(mv, b) <==> Bit(gv, b)))
  {
    hide Mask, And, Or, Not, Bit;
    Bitwise(And(And(gr, gv), Not(And(mr, mv))), And(And(gr, Not(gv)), Not(And(mr, Not(mv)))), b);
    Bitwise(And(gr, gv), Not(And(mr, mv)), b);
    Bitwise(And(gr, Not(gv)), Not(And(mr, Not(mv))), b);
    Bitwise(gr, gv, b);
    Bitwise(gr, Not(gv), b);
    Bitwise(mr, mv, b);
    Bitwise(mr, Not(mv), b);
    Bitwise(gv, gv, b);
    Bitwise(mv, mv, b);
    Bitwise(And(mr, mv), mr, b);
    Bitwise(And(mr, Not(mv)), mr, b);
  }

  lemma GuardChunk(ready: Chunks, memory: Chunks, m: Masks, c: nat)
    requires c < |ready| && c < |memory| && c < |m.guardReady| && c < |m.guardFull|
    ensures Bad(ready[c], memory[c], m.guardReady[c], m.guardFull[c]) == 0 <==>
            forall l <- Elements(m.guardReady) :: Size * c <= l < Size * (c + 1) ==>
              l in Elements(ready) && (l in Elements(memory) <==> l in Elements(m.guardFull))
  {
    hide Mask, And, Or, Not, Bit, Elements, Bad;
    var x := Bad(ready[c], memory[c], m.guardReady[c], m.guardFull[c]);
    forall b: nat | b < Size
      ensures var l := Size * c + b;
              Bit(x, b) <==>
                l in Elements(m.guardReady)
                  && !(l in Elements(ready) && (l in Elements(memory) <==> l in Elements(m.guardFull)))
    {
      BadBit(ready[c], memory[c], m.guardReady[c], m.guardFull[c], b);
      MemberAt(ready, c, b);
      MemberAt(memory, c, b);
      MemberAt(m.guardReady, c, b);
      MemberAt(m.guardFull, c, b);
    }
    if x != 0 {
      var b := SomeBit(x);
      assert Size * c + b in Elements(m.guardReady);
    } else {
      forall l <- Elements(m.guardReady) | Size * c <= l < Size * (c + 1)
        ensures l in Elements(ready) && (l in Elements(memory) <==> l in Elements(m.guardFull))
      {
        ZeroBit(l - Size * c);
        assert l == Size * c + (l - Size * c);
      }
    }
  }

  lemma AssignedBit(mv: Word, av: Word, am: Word, b: nat)
    requires b < Size
    ensures Bit(Assigned(mv, av, am), b) <==> Bit(av, b) || (Bit(mv, b) && !Bit(am, b))
  {
    hide Mask, And, Or, Not, Bit;
    Bitwise(Or(mv, Or(av, am)), Or(av, Not(am)), b);
    Bitwise(mv, Or(av, am), b);
    Bitwise(av, am, b);
    Bitwise(av, Not(am), b);
    Bitwise(am, am, b);
  }

  lemma AssignedAt(before: Chunks, after: Chunks, m: Masks, l: nat)
    requires |after| == |before|
    requires var end := Min(|before|, Min(|m.assignVals|, |m.assignMask|));
             && (forall k :: 0 <= k < end ==> after[k] == Assigned(before[k], m.assignVals[k], m.assignMask[k]))
             && forall k :: end <= k < |after| ==> after[k] == before[k]
    ensures l in Elements(after) <==>
            if l < AssignEnd(|before|, m) then l in SetAssign(Elements(before), m) else l in Elements(before)
  {
    hide Bit, Elements, Assigned;
    ElementsHas(before, l);
    ElementsHas(after, l);
    ElementsHas(m.assignVals, l);
    ElementsHas(m.assignMask, l);
    if l < AssignEnd(|before|, m) {
      AssignedBit(before[l / Size], m.assignVals[l / Size], m.assignMask[l / Size], l % Size);
    }
  }

  // ---------------------------------------------------------------- when the loops mean what they should

  predicate AllBelow(s: set<nat>, end: nat) { forall l <- s :: l < end }

  /** The loop tests the guard, for all contents of vectors of these lengths, exactly when the zip reaches every
      location of the rule. */
  lemma GuardExact(m: Masks, kr: nat, km: nat)
    ensures (forall ready: Chunks, memory: Chunks :: |ready| == kr && |memory| == km ==>
               (ChunkGuard(ready, memory, m) <==> SetGuard(Elements(ready), Elements(memory), m)))
            <==> AllBelow(Elements(m.guardReady), GuardEnd(kr, km, m))
  {
    hide Elements;
    if !AllBelow(Elements(m.guardReady), GuardEnd(kr, km, m)) {
      var l :| l in Elements(m.guardReady) && l >= GuardEnd(kr, km, m);
      var ready, memory := Fooled(m, kr, km, l);
      assert ChunkGuard(ready, memory, m) && !SetGuard(Elements(ready), Elements(memory), m);
    }
  }

  /** The contents cut or padded to `n` chunks. */
  function Resized(data: Chunks, n: nat): Chunks { seq(n, k requires 0 <= k < n => if k < |data| then data[k] else 0) }

  lemma ResizedElements(data: Chunks, n: nat, l: nat)
    ensures l in Elements(Resized(data, n)) <==> l < Size * n && l in Elements(data)
  {
    hide Bit, Elements;
    ElementsHas(data, l);
    ElementsHas(Resized(data, n), l);
    ZeroBit(l % Size);
  }

  lemma Fooled(m: Masks, kr: nat, km: nat, l: nat) returns (ready: Chunks, memory: Chunks)
    requires l in Elements(m.guardReady) && l >= GuardEnd(kr, km, m)
    ensures |ready| == kr && |memory| == km && ChunkGuard(ready, memory, m) && l !in Elements(ready)
  {
    hide Elements, Bit, Mask, And, Not, Or;
    memory := Resized(m.guardFull, km);
    var full := Resized(m.guardReady, kr);
    forall i: nat ensures i in Elements(memory) <==> i < Size * km && i in Elements(m.guardFull)
                  ensures i in Elements(full) <==> i < Size * kr && i in Elements(m.guardReady)
    {
      ResizedElements(m.guardFull, km, i);
      ResizedElements(m.guardReady, kr, i);
    }
    if l / Size < kr {
      ready := full[l / Size := And(full[l / Size], Not(Mask(l % Size)))];
      UpdatedElements(full, l, ready[l / Size], false);
    } else {
      ready := full;
    }
  }

  /** Likewise for the assignment. */
  lemma AssignExact(m: Masks, full: Chunks, after: set<nat>)
    requires Elements(m.assignVals) <= Elements(m.assignMask) && AllBelow(Elements(m.assignMask), AssignEnd(|full|, m))
    requires forall l: nat :: l in after <==>
               if l < AssignEnd(|full|, m) then l in SetAssign(Elements(full), m) else l in Elements(full)
    ensures after == SetAssign(Elements(full), m)
  {
    hide Elements;
    forall l: nat ensures l in after <==> l in SetAssign(Elements(full), m) {
    }
  }
}
