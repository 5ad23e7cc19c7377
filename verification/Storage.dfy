/** The recycling allocator for values at rest (src/proto/memory.rs): a freed slot is kept for the next value of the
    same layout. The system allocator answers any address that is not allocated. */
module Storage {
  import opened Wrappers

  type Ptr = int
  type Val = int
  type TypeId = nat
  type Layout = nat

  /** What is known of a type; `clone` is there if the type can be cloned. */
  datatype TypeInfo = TypeInfo(typeId: TypeId, layout: Layout, clone: Option<Val -> Val>)

  // ---------------------------------------------------------------- what a storage is for

  /** The values at rest, by pointer. */
  type Contents = map<Ptr, Val>

  datatype Op = Put(at: Ptr, v: Val) | Take(at: Ptr) | Forget(at: Ptr) | Destroy(at: Ptr)

  predicate Allowed(s: Contents, op: Op) { if op.Put? then op.at !in s else op.at in s }

  function Applied(s: Contents, op: Op): Contents
    requires Allowed(s, op)
  {
    if op.Put? then s[op.at := op.v] else s - {op.at}
  }

  predicate AllAllowed(s: Contents, ops: seq<Op>)
    decreases |ops|
  {
    ops == [] || (Allowed(s, ops[0]) && AllAllowed(Applied(s, ops[0]), ops[1..]))
  }

  function AppliedAll(s: Contents, ops: seq<Op>): Contents
    requires AllAllowed(s, ops)
    decreases |ops|
  {
    if ops == [] then s else AppliedAll(Applied(s, ops[0]), ops[1..])
  }

  function Having(s: Contents, v: Val): set<Ptr> { set p | p in s && s[p] == v }

  /** How many slots hold `v`. */
  function Slots(s: Contents, v: Val): nat { |Having(s, v)| }

  function PutIn(ops: seq<Op>, v: Val): nat {
    if ops == [] then 0 else (if ops[0].Put? && ops[0].v == v then 1 else 0) + PutIn(ops[1..], v)
  }

  /** How often `v` was taken, forgotten or destroyed. */
  function Gone(s: Contents, ops: seq<Op>, v: Val): nat
    requires AllAllowed(s, ops)
    decreases |ops|
  {
    if ops == [] then 0
    else (if !ops[0].Put? && s[ops[0].at] == v then 1 else 0) + Gone(Applied(s, ops[0]), ops[1..], v)
  }

  lemma SlotsAfterPut(s: Contents, p: Ptr, w: Val, v: Val)
    requires p !in s
    ensures Slots(s[p := w], v) == Slots(s, v) + if w == v then 1 else 0
  {
    assert Having(s[p := w], v) == Having(s, v) + if w == v then {p} else {};
  }

  lemma SlotsAfterTake(s: Contents, p: Ptr, v: Val)
    requires p in s
    ensures Slots(s, v) == Slots(s - {p}, v) + if s[p] == v then 1 else 0
  {
    assert Having(s - {p}, v) == Having(s, v) - {p};
    assert s[p] == v ==> p in Having(s, v);
  }

  lemma SlotsAfter(s: Contents, op: Op, v: Val)
    requires Allowed(s, op)
    ensures Slots(s, v) + (if op.Put? && op.v == v then 1 else 0) ==
            Slots(Applied(s, op), v) + (if !op.Put? && s[op.at] == v then 1 else 0)
  {
    hide Slots;
    if op.Put? {
      SlotsAfterPut(s, op.at, op.v, v);
    } else {
      SlotsAfterTake(s, op.at, v);
    }
  }

  /** Over any sequence of operations no value is lost or made up. */
  lemma {:induction false} NothingLost(s: Contents, ops: seq<Op>, v: Val)
    requires AllAllowed(s, ops)
    ensures Slots(s, v) + PutIn(ops, v) == Gone(s, ops, v) + Slots(AppliedAll(s, ops), v)
    decreases |ops|
  {
    hide Slots, Applied;
    if ops != [] {
      SlotsAfter(s, ops[0], v);
      NothingLost(Applied(s, ops[0]), ops[1..], v);
    }
  }

  /** The values handed out, in order. */
  function TakenBy(s: Contents, ops: seq<Op>): seq<Val>
    requires AllAllowed(s, ops)
    decreases |ops|
  {
    if ops == [] then []
    else (if ops[0].Take? then [s[ops[0].at]] else []) + TakenBy(Applied(s, ops[0]), ops[1..])
  }

  /** The values dropped, in order, each with where it was. */
  function DestroyedBy(s: Contents, ops: seq<Op>): seq<(Ptr, Val)>
    requires AllAllowed(s, ops)
    decreases |ops|
  {
    if ops == [] then []
    else (if ops[0].Destroy? then [(ops[0].at, s[ops[0].at])] else []) + DestroyedBy(Applied(s, ops[0]), ops[1..])
  }

  /** One more operation at the end. */
  lemma {:induction false} OneMore(s: Contents, ops: seq<Op>, op: Op)
    requires AllAllowed(s, ops) && Allowed(AppliedAll(s, ops), op)
    ensures AllAllowed(s, ops + [op]) && AppliedAll(s, ops + [op]) == Applied(AppliedAll(s, ops), op)
    decreases |ops|
  {
    hide Applied, Allowed;
    var more := ops + [op];
    if ops == [] {
      assert more == [op] && [op][1..] == [];
    } else {
      assert more[0] == ops[0] && more[1..] == ops[1..] + [op];
      OneMore(Applied(s, ops[0]), ops[1..], op);
    }
  }

  lemma {:induction false} OneMoreTaken(s: Contents, ops: seq<Op>, op: Op)
    requires AllAllowed(s, ops) && Allowed(AppliedAll(s, ops), op) && AllAllowed(s, ops + [op])
    ensures TakenBy(s, ops + [op]) == TakenBy(s, ops) + if op.Take? then [AppliedAll(s, ops)[op.at]] else []
    decreases |ops|
  {
    hide Applied;
    var more := ops + [op];
    if ops == [] {
      assert more == [op] && [op][1..] == [];
    } else {
      assert more[0] == ops[0] && more[1..] == ops[1..] + [op];
      OneMoreTaken(Applied(s, ops[0]), ops[1..], op);
    }
  }

  lemma {:induction false} OneMoreDestroyed(s: Contents, ops: seq<Op>, op: Op)
    requires AllAllowed(s, ops) && Allowed(AppliedAll(s, ops), op) && AllAllowed(s, ops + [op])
    ensures DestroyedBy(s, ops + [op]) == DestroyedBy(s, ops) + if op.Destroy? then
      [(op.at, AppliedAll(s, ops)[op.at])] else []
    decreases |ops|
  {
    hide Applied;
    var more := ops + [op];
    if ops == [] {
      assert more == [op] && [op][1..] == [];
    } else {
      assert more[0] == ops[0] && more[1..] == ops[1..] + [op];
      OneMoreDestroyed(Applied(s, ops[0]), ops[1..], op);
    }
  }

  // ---------------------------------------------------------------- the allocator

  predicate Distinct(xs: seq<Ptr>) { forall i, j :: 0 <= i < j < |xs| ==> xs[i] != xs[j] }

  type FreeLists = map<Layout, seq<Ptr>>
  type Types = map<TypeId, TypeInfo>

  predicate Owns(free: FreeLists, owned: map<Ptr, TypeId>, types: Types, heap: map<Ptr, Layout>, p: Ptr) {
    p in owned && owned[p] in types && p in heap && heap[p] == types[owned[p]].layout && heap[p] in free
  }

  predicate Listed(free: FreeLists, heap: map<Ptr, Layout>, p: Ptr)
  {
    p in heap && heap[p] in free && p in free[heap[p]]
  }

  /** A list of free slots: no repetitions, all allocated with this layout, none owned. */
  predicate Spare(owned: map<Ptr, TypeId>, heap: map<Ptr, Layout>, l: Layout, vec: seq<Ptr>) {
    Distinct(vec) && forall p <- vec :: p !in owned && p in heap && heap[p] == l
  }

  /** Every allocation is either owned or free, under its own layout; every owned type is known. */
  ghost predicate Sound(free: FreeLists, owned: map<Ptr, TypeId>, types: Types, heap: map<Ptr, Layout>) {
    && (forall t <- types :: types[t].typeId == t)
    && (forall p <- owned :: Owns(free, owned, types, heap, p))
    && (forall l <- free :: Spare(owned, heap, l, free[l]))
    && (forall p <- heap :: p in owned || Listed(free, heap, p))
  }

  lemma KnownSound(free: FreeLists, owned: map<Ptr, TypeId>, types: Types, heap: map<Ptr, Layout>, info: TypeInfo)
    requires Sound(free, owned, types, heap) && (info.typeId in types ==> types[info.typeId] == info)
    ensures var free' := if info.layout in free then free else free[info.layout := []];
            Sound(free', owned, types[info.typeId := info], heap) && info.layout in free'
  {
  }

  lemma ReuseSound(free: FreeLists, owned: map<Ptr, TypeId>, types: Types, heap: map<Ptr, Layout>, info: TypeInfo,
      init: seq<Ptr>, p: Ptr)
    requires Sound(free, owned, types, heap) && info.typeId in types && types[info.typeId] == info
    requires info.layout in free && free[info.layout] == init + [p]
    ensures p !in owned && p in heap && Sound(free[info.layout := init], owned[p := info.typeId], types, heap)
  {
    var vec, l, owned' := init + [p], info.layout, owned[p := info.typeId];
    assert Spare(owned, heap, l, vec) && p in vec;
    assert Spare(owned', heap, l, init) by {
      forall q <- init ensures q in vec && q != p {
        var i :| 0 <= i < |init| && init[i] == q;
        assert vec[i] == q && vec[|init|] == p;
      }
      assert forall i, j :: 0 <= i < j < |init| ==> vec[i] == init[i] && vec[j] == init[j];
    }
    forall k <- free | k != l ensures Spare(owned', heap, k, free[k]) {
      assert Spare(owned, heap, k, free[k]);
    }
    forall q <- heap ensures q in owned' || Listed(free[l := init], heap, q) {
      assert q in owned || Listed(free, heap, q);
    }
  }

  lemma NewSound(free: FreeLists, owned: map<Ptr, TypeId>, types: Types, heap: map<Ptr, Layout>, info: TypeInfo, p: Ptr)
    requires Sound(free, owned, types, heap) && info.typeId in types && types[info.typeId] == info
    requires info.layout in free
    requires p !in heap
    ensures p !in owned && Sound(free, owned[p := info.typeId], types, heap[p := info.layout])
  {
    assert p in owned ==> Owns(free, owned, types, heap, p);
    forall l <- free ensures Spare(owned[p := info.typeId], heap[p := info.layout], l, free[l]) {
      assert Spare(owned, heap, l, free[l]);
    }
    forall q <- heap ensures q in owned || Listed(free, heap[p := info.layout], q) {
      assert q in owned || Listed(free, heap, q);
    }
  }

  lemma FreedSound(free: FreeLists, owned: map<Ptr, TypeId>, types: Types, heap: map<Ptr, Layout>, p: Ptr)
    requires Sound(free, owned, types, heap) && p in owned
    ensures p in heap && heap[p] in free && owned[p] in types && heap[p] == types[owned[p]].layout
    ensures Sound(free[heap[p] := free[heap[p]] + [p]], owned - {p}, types, heap)
  {
    assert Owns(free, owned, types, heap, p);
    var l := heap[p];
    var vec := free[l];
    assert Spare(owned, heap, l, vec);
    assert Spare(owned - {p}, heap, l, vec + [p]) by {
      assert forall i :: 0 <= i < |vec| ==> vec[i] in vec;
    }
    forall k <- free | k != l ensures Spare(owned - {p}, heap, k, free[k]) {
      assert Spare(owned, heap, k, free[k]);
    }
    forall q <- heap ensures q in owned - {p} || Listed(free[l := vec + [p]], heap, q) {
      assert q in owned || Listed(free, heap, q);
    }
    forall q <- owned - {p} ensures Owns(free[l := vec + [p]], owned - {p}, types, heap, q) {
      assert Owns(free, owned, types, heap, q);
    }
  }

  lemma DroppedSound(free: FreeLists, owned: map<Ptr, TypeId>, types: Types, heap: map<Ptr, Layout>, p: Ptr)
    requires Sound(free, owned, types, heap) && p in owned
    ensures p in heap && owned[p] in types && heap[p] == types[owned[p]].layout
    ensures Sound(free, owned - {p}, types, heap - {p})
  {
    assert Owns(free, owned, types, heap, p);
    forall l <- free ensures Spare(owned - {p}, heap - {p}, l, free[l]) {
      assert Spare(owned, heap, l, free[l]);
    }
    forall q <- heap - {p} ensures q in owned - {p} || Listed(free, heap - {p}, q) {
      assert q in owned || Listed(free, heap, q);
    }
    forall q <- owned - {p} ensures Owns(free, owned - {p}, types, heap - {p}, q) {
      assert Owns(free, owned, types, heap, q);
    }
  }

  /** What is allocated is owned or free, under its own layout. */
  predicate Covered(free: FreeLists, owned: map<Ptr, TypeId>, heap: map<Ptr, Layout>) {
    && owned.Keys <= heap.Keys
    && (forall l <- free :: Spare(owned, heap, l, free[l]))
    && (forall p <- heap :: p in owned || Listed(free, heap, p))
  }

  lemma SoundCovered(free: FreeLists, owned: map<Ptr, TypeId>, types: Types, heap: map<Ptr, Layout>)
    requires Sound(free, owned, types, heap)
    ensures Covered(free, owned, heap)
  {
    forall p <- owned ensures p in heap {
      assert Owns(free, owned, types, heap, p);
    }
  }

  predicate Within(heap: map<Ptr, Layout>, all: map<Ptr, Layout>) { forall p <- heap :: p in all && heap[p] == all[p] }

  lemma WithinLess(heap: map<Ptr, Layout>, gone: set<Ptr>, all: map<Ptr, Layout>)
    ensures Within(all, all) && (Within(heap, all) ==> Within(heap - gone, all))
  {
  }

  /** Deallocating the free list of one layout leaves the rest as it is. */
  lemma ShrunkCovered(free: FreeLists, owned: map<Ptr, TypeId>, heap: map<Ptr, Layout>, l: Layout)
    requires Covered(free, owned, heap) && l in free
    ensures Spare(owned, heap, l, free[l]) && Covered(free - {l}, owned, heap - set p | p in free[l])
  {
    var gone := set p | p in free[l];
    assert Spare(owned, heap, l, free[l]);
    forall k <- free - {l} ensures Spare(owned, heap - gone, k, free[k]) {
      assert Spare(owned, heap, k, free[k]);
    }
    forall q <- heap - gone ensures q in owned || Listed(free - {l}, heap - gone, q) {
      assert q in owned || Listed(free, heap, q);
    }
  }

  lemma AllShrunk(owned: map<Ptr, TypeId>, heap: map<Ptr, Layout>)
    requires Covered(map[], owned, heap)
    ensures heap.Keys == owned.Keys
  {
    hide Spare;
    forall p ensures p in heap <==> p in owned {
      assert p in heap ==> p in owned || Listed(map[], heap, p);
    }
  }

  class Storage {
    var free: map<Layout, seq<Ptr>>
    var owned: map<Ptr, TypeId>
    var typeInfo: map<TypeId, TypeInfo>
    /** The world outside: what is allocated and with what layout, what it holds, and the values dropped so far. */
    var heap: map<Ptr, Layout>
    var memory: map<Ptr, Val>
    var dropped: seq<(Ptr, Val)>

    ghost predicate Valid()
      reads this
    {
      Sound(free, owned, typeInfo, heap) && owned.Keys <= memory.Keys
    }

    /** The values at rest. */
    ghost function View(): Contents
      requires Valid()
      reads this
    {
      map p | p in owned :: memory[p]
    }

    /** A type's information is the same wherever it comes from. */
    ghost predicate Agrees(info: TypeInfo)
      reads this
    {
      info.typeId in typeInfo ==> typeInfo[info.typeId] == info
    }

    constructor ()
      ensures Valid() && View() == map[] && heap == map[] && dropped == []
    {
      free := map[];
      owned := map[];
      typeInfo := map[];
      heap := map[];
      memory := map[];
      dropped := [];
    }

    /** Registers a type and its layout. */
    method Register(info: TypeInfo)
      requires Valid() && Agrees(info)
      modifies this`typeInfo, this`free
      ensures Valid() && info.typeId in typeInfo && typeInfo[info.typeId] == info && info.layout in free
      ensures free == if info.layout in old(free) then old(free) else old(free)[info.layout := []]
      ensures typeInfo == old(typeInfo)[info.typeId := info]
    {
      hide Sound;
      KnownSound(free, owned, typeInfo, heap, info);
      if info.typeId !in typeInfo {
        typeInfo := typeInfo[info.typeId := info];
      }
      assert typeInfo == old(typeInfo)[info.typeId := info];
      if info.layout !in free {
        free := free[info.layout := []];
      }
    }

    /** A slot that nobody owns: a free one of the right layout, else a new allocation. */
    method Claim(info: TypeInfo, address: Ptr) returns (dest: Ptr)
      requires Valid() && info.typeId in typeInfo && typeInfo[info.typeId] == info && info.layout in free
      requires address !in heap
      modifies this`free, this`heap, this`owned
      ensures Sound(free, owned, typeInfo, heap) && dest !in old(owned) && owned == old(owned)[dest := info.typeId]
      ensures var vec := old(free)[info.layout];
              if vec != [] then dest == vec[|vec| - 1] && heap == old(heap)
                && free == old(free)[info.layout := vec[..|vec| - 1]]
              else dest == address && heap == old(heap)[address := info.layout] && free == old(free)
    {
      hide Sound;
      var layout := info.layout;
      var vec := free[layout];
      if |vec| > 0 {
        dest := vec[|vec| - 1];
        assert vec == vec[..|vec| - 1] + [dest];
        ReuseSound(free, owned, typeInfo, heap, info, vec[..|vec| - 1], dest);
        free := free[layout := vec[..|vec| - 1]];
      } else {
        dest := address;
        NewSound(free, owned, typeInfo, heap, info, dest);
        heap := heap[dest := layout];
      }
      owned := owned[dest := info.typeId];
    }

    /** An owned slot for a value about to be written. */
    method Alloc(info: TypeInfo, address: Ptr, v: Val) returns (dest: Ptr)
      requires Valid() && Agrees(info) && address !in heap
      modifies this
      ensures Valid() && Agrees(info) && dest !in old(owned) && dest in owned && owned[dest] == info.typeId
      ensures View() == Applied(old(View()), Put(dest, v)) && dropped == old(dropped)
      ensures typeInfo == old(typeInfo)[info.typeId := info]
      ensures var spare := info.layout in old(free) && old(free)[info.layout] != [];
              && (spare ==> dest in old(free)[info.layout] && heap == old(heap))
              && (!spare ==> dest == address && heap == old(heap)[address := info.layout])
    {
      hide Sound;
      Register(info);
      dest := Claim(info, address);
      memory := memory[dest := v];
    }

    method MoveIn(v: Val, info: TypeInfo, address: Ptr) returns (dest: Ptr)
      requires Valid() && Agrees(info) && address !in heap
      modifies this
      ensures Valid() && Agrees(info) && dest !in old(owned)
      ensures View() == Applied(old(View()), Put(dest, v)) && dropped == old(dropped)
      ensures typeInfo == old(typeInfo)[info.typeId := info]
    {
      dest := Alloc(info, address, v);
    }

    /** The slot is claimed before cloning. If the type cannot be cloned the code panics, and the slot stays owned with
        whatever it held, `found`: no value has been put there. */
    method CloneIn(v: Val, info: TypeInfo, address: Ptr, found: Val) returns (r: Result<Ptr, Ptr>)
      requires Valid() && Agrees(info) && address !in heap
      modifies this
      ensures Valid() && Agrees(info) && dropped == old(dropped) && typeInfo == old(typeInfo)[info.typeId := info]
      ensures r.Ok? <==> info.clone.Some?
      ensures match r
              case Ok(dest) =>
                && dest !in old(owned) && info.clone.Some?
                && View() == Applied(old(View()), Put(dest, info.clone.value(v)))
              case Err(dest) => dest !in old(owned) && View() == Applied(old(View()), Put(dest, found))
    {
      var dest := Alloc(info, address, if info.clone.Some? then info.clone.value(v) else found);
      r := if info.clone.Some? then Ok(dest) else Err(dest);
    }

    /** Makes an owned slot free, under its layout. */
    method InnerFree(ptr: Ptr, layout: Layout)
      requires Valid() && ptr in owned && owned[ptr] in typeInfo && typeInfo[owned[ptr]].layout == layout
      modifies this`owned, this`free
      ensures Valid() && View() == old(View()) - {ptr} && owned == old(owned) - {ptr}
      ensures layout in old(free) && free == old(free)[layout := old(free)[layout] + [ptr]]
    {
      hide Sound;
      FreedSound(free, owned, typeInfo, heap, ptr);
      owned := owned - {ptr};
      var vec := free[layout];
      free := free[layout := vec + [ptr]];
    }

    method MoveOut(src: Ptr, layout: Layout) returns (v: Val)
      requires Valid() && src in owned && owned[src] in typeInfo && typeInfo[owned[src]].layout == layout
      modifies this
      ensures Valid() && v == old(View())[src] && View() == Applied(old(View()), Take(src))
      ensures heap == old(heap) && dropped == old(dropped) && typeInfo == old(typeInfo)
    {
      v := memory[src];
      InnerFree(src, layout);
    }

    method ForgetInside(ptr: Ptr, info: TypeInfo)
      requires Valid() && ptr in owned && owned[ptr] in typeInfo && typeInfo[owned[ptr]] == info
      modifies this
      ensures Valid() && View() == Applied(old(View()), Forget(ptr))
      ensures heap == old(heap) && dropped == old(dropped) && typeInfo == old(typeInfo)
    {
      InnerFree(ptr, info.layout);
    }

    method DropInside(ptr: Ptr, info: TypeInfo)
      requires Valid() && ptr in owned && owned[ptr] in typeInfo && typeInfo[owned[ptr]] == info
      modifies this
      ensures Valid() && View() == Applied(old(View()), Destroy(ptr)) && heap == old(heap) && typeInfo == old(typeInfo)
      ensures dropped == old(dropped) + [(ptr, old(View())[ptr])]
    {
      dropped := dropped + [(ptr, memory[ptr])];
      InnerFree(ptr, info.layout);
    }

    /** `dealloc`: only what is allocated, and with its own layout. */
    method Dealloc(ptr: Ptr, layout: Layout)
      requires ptr in heap && heap[ptr] == layout
      modifies this`heap
      ensures heap == old(heap) - {ptr}
    {
      heap := heap - {ptr};
    }

    /** Deallocates the free slots of one layout, each once. */
    method DeallocAll(layout: Layout, vec: seq<Ptr>)
      requires Distinct(vec) && forall p <- vec :: p in heap && heap[p] == layout
      modifies this`heap
      ensures heap == old(heap) - (set p | p in vec)
    {
      var i := 0;
      while i < |vec|
        invariant 0 <= i <= |vec|
        invariant heap == old(heap) - set p | p in vec[..i]
      {
        assert vec[i] in vec && vec[i] !in vec[..i];
        Dealloc(vec[i], layout);
        i := i + 1;
        assert vec[..i] == vec[..i - 1] + [vec[i - 1]];
      }
      assert vec[..i] == vec;
    }

    /** Deallocates all free slots and forgets their layouts; a value still owned could then not be freed any more, as
        its layout has no list. */
    method ShrinkToFit()
      requires Valid()
      modifies this`free, this`heap
      ensures free == map[] && heap.Keys == owned.Keys && Within(heap, old(heap))
    {
      hide Sound, Covered, Within;
      SoundCovered(free, owned, typeInfo, heap);
      WithinLess(heap, {}, heap);
      while free.Keys != {}
        invariant Covered(free, owned, heap) && Within(heap, old(heap))
        decreases |free|
      {
        var layout :| layout in free.Keys;
        var vec := free[layout];
        ShrunkCovered(free, owned, heap, layout);
        WithinLess(heap, set p | p in vec, old(heap));
        free := free - {layout};
        DeallocAll(layout, vec);
      }
      assert free == map[];
      AllShrunk(owned, heap);
    }

    /** Drops one value at rest and deallocates its slot. */
    method DropOne(ptr: Ptr)
      requires Valid() && ptr in owned
      modifies this`owned, this`dropped, this`heap
      ensures Valid() && owned == old(owned) - {ptr} && dropped == old(dropped) + [(ptr, old(memory)[ptr])]
      ensures ptr in old(heap) && heap == old(heap) - {ptr}
    {
      hide Sound;
      DroppedSound(free, owned, typeInfo, heap, ptr);
      var info := typeInfo[owned[ptr]];
      owned := owned - {ptr};
      dropped := dropped + [(ptr, memory[ptr])];
      Dealloc(ptr, info.layout);
    }

    /** Drops all values at rest, each once. */
    method DropOwned()
      requires Valid()
      modifies this`owned, this`dropped, this`heap
      ensures Valid() && owned == map[]
      ensures old(dropped) <= dropped && EachOnce(dropped[|old(dropped)|..], old(View()))
    {
      hide Sound, Partly, EachOnce;
      ghost var last: seq<(Ptr, Val)> := [];
      ghost var view := View();
      DroppedAll(last, view);
      assert owned.Keys == view.Keys;
      while owned.Keys != {}
        invariant Valid() && owned.Keys <= view.Keys && dropped == old(dropped) + last
        invariant Partly(last, owned.Keys, view)
        decreases |owned|
      {
        var todo := owned.Keys;
        NonEmpty(todo);
        var ptr :| ptr in todo;
        DropMore(last, owned.Keys, view, ptr);
        DropOne(ptr);
        last := last + [(ptr, view[ptr])];
      }
      DroppedAll(last, view);
    }

    /** Every value at rest is dropped once, every allocation deallocated once. */
    method Drop()
      requires Valid()
      modifies this
      ensures heap == map[] && free == map[] && owned == map[]
      ensures old(dropped) <= dropped
      ensures var ds := dropped[|old(dropped)|..];
              && (forall p, v :: (p, v) in ds <==> p in old(View()) && old(View())[p] == v)
              && (forall i, j :: 0 <= i < j < |ds| ==> ds[i].0 != ds[j].0)
    {
      hide Sound;
      DropOwned();
      ShrinkToFit();
    }
  }

  /** All pairs of the map and no others, each once. */
  predicate EachOnce(ds: seq<(Ptr, Val)>, s: Contents) {
    && (forall p <- s :: (p, s[p]) in ds)
    && (forall d <- ds :: d.0 in s && d.1 == s[d.0])
    && forall i, j :: 0 <= i < j < |ds| ==> ds[i].0 != ds[j].0
  }

  /** All pairs of the map but those of `todo`. */
  predicate Partly(ds: seq<(Ptr, Val)>, todo: set<Ptr>, s: Contents) {
    && (forall p <- s :: p in todo || (p, s[p]) in ds)
    && (forall i, j :: 0 <= i < j < |ds| ==> ds[i].0 != ds[j].0)
    && forall d <- ds :: d.0 !in todo && d.0 in s && d.1 == s[d.0]
  }

  lemma NonEmpty(s: set<Ptr>)
    requires s != {}
    ensures exists p :: p in s
  {
    assert (forall p :: p !in s) ==> s == {};
  }

  lemma DroppedAll(ds: seq<(Ptr, Val)>, s: Contents)
    ensures Partly([], s.Keys, s)
    ensures Partly(ds, {}, s) ==> EachOnce(ds, s)
  {
  }

  lemma DropMore(ds: seq<(Ptr, Val)>, todo: set<Ptr>, s: Contents, p: Ptr)
    requires Partly(ds, todo, s) && p in todo && p in s
    ensures Partly(ds + [(p, s[p])], todo - {p}, s)
  {
    var ds' := ds + [(p, s[p])];
    assert forall i :: 0 <= i < |ds| ==> ds'[i] == ds[i] && ds[i] in ds;
    assert ds'[|ds|] == (p, s[p]) && (p, s[p]) in ds';
  }

  // ---------------------------------------------------------------- any sequence of requests

  /** What a user asks of a storage. */
  datatype Request =
    | AskMoveIn(v: Val, info: TypeInfo) | AskCloneIn(v: Val, info: TypeInfo)
    | AskMoveOut(src: Ptr) | AskForget(src: Ptr) | AskDrop(src: Ptr)

  /** The operation on the contents that a request amounts to. */
  ghost predicate Serves(op: Op, r: Request) {
    match r
    case AskMoveIn(v, _) => op.Put? && op.v == v
    case AskCloneIn(v, info) => op.Put? && info.clone.Some? && op.v == info.clone.value(v)
    case AskMoveOut(src) => op == Take(src)
    case AskForget(src) => op == Forget(src)
    case AskDrop(src) => op == Destroy(src)
  }

  /** A value moved in is put as it is, one cloned in as its clone; what is named is taken, forgotten or dropped. */
  lemma ServesMeans(op: Op, r: Request)
    ensures Serves(op, r) <==>
            match r
            case AskMoveIn(v, _) => exists p :: op == Put(p, v)
            case AskCloneIn(v, info) => info.clone != None && exists p :: op == Put(p, info.clone.value(v))
            case AskMoveOut(src) => op == Take(src)
            case AskForget(src) => op == Forget(src)
            case AskDrop(src) => op == Destroy(src)
  {
    assert op.Put? ==> op == Put(op.at, op.v);
  }

  /** A type's information is that of the program's types. */
  ghost predicate Typed(types: Types, r: Request) {
    r.AskMoveIn? || r.AskCloneIn? ==> r.info.typeId in types && types[r.info.typeId] == r.info
  }

  ghost predicate Known(known: Types, types: Types) { forall t <- known :: t in types && known[t] == types[t] }

  lemma OwnedKnown(st: Storage, p: Ptr)
    requires st.Valid() && p in st.owned
    ensures st.owned[p] in st.typeInfo
  {
    assert Owns(st.free, st.owned, st.typeInfo, st.heap, p);
  }

  predicate Panics(r: Request, owned: map<Ptr, TypeId>) {
    match r
    case AskMoveIn(_, _) => false
    case AskCloneIn(_, info) => info.clone.None?
    case _ => r.src !in owned
  }

  /** An address that is not allocated. */
  method NewAddress(heap: map<Ptr, Layout>) returns (p: Ptr)
    ensures p !in heap
  {
    p := 0;
    while p in heap
      decreases |set q | q in heap && q >= p|
    {
      ghost var above := set q | q in heap && q >= p;
      p := p + 1;
      assert (set q | q in heap && q >= p) == above - {p - 1};
    }
  }

  /** Serves one request; what is taken out is handed over. */
  method ServeOne(st: Storage, r: Request, ghost types: Types) returns (op: Op, out: seq<Val>)
    requires st.Valid() && Typed(types, r) && Known(st.typeInfo, types)
    requires r.AskMoveOut? || r.AskForget? || r.AskDrop? ==> r.src in st.owned
    requires r.AskCloneIn? ==> r.info.clone.Some?
    modifies st
    ensures st.Valid() && Known(st.typeInfo, types)
    ensures Serves(op, r) && Allowed(old(st.View()), op) && st.View() == Applied(old(st.View()), op)
    ensures out == if op.Take? then [old(st.View())[op.at]] else []
    ensures st.dropped == old(st.dropped) + if op.Destroy? then [(op.at, old(st.View())[op.at])] else []
  {
    hide Sound, Applied;
    out := [];
    match r {
      case AskMoveIn(v, info) =>
        var address := NewAddress(st.heap);
        var dest := st.MoveIn(v, info, address);
        op := Put(dest, v);
      case AskCloneIn(v, info) =>
        var address := NewAddress(st.heap);
        var r := st.CloneIn(v, info, address, v);
        op := Put(r.value, info.clone.value(v));
      case AskMoveOut(src) =>
        OwnedKnown(st, src);
        var v := st.MoveOut(src, st.typeInfo[st.owned[src]].layout);
        op, out := Take(src), [v];
      case AskForget(src) =>
        OwnedKnown(st, src);
        st.ForgetInside(src, st.typeInfo[st.owned[src]]);
        op := Forget(src);
      case AskDrop(src) =>
        OwnedKnown(st, src);
        st.DropInside(src, st.typeInfo[st.owned[src]]);
        op := Destroy(src);
    }
  }

  /** Serves requests in order, up to the first that panics: it names a pointer that is not owned, or clones a value
      of a type that cannot be cloned. No value is lost or made up: what was there or came in has been handed out,
      dropped or forgotten, or is still there. */
  method Serve(st: Storage, requests: seq<Request>, ghost types: Types) returns (ops: seq<Op>, taken: seq<Val>)
    requires st.Valid() && Known(st.typeInfo, types) && forall i :: 0 <= i < |requests| ==> Typed(types, requests[i])
    modifies st
    ensures st.Valid() && |ops| <= |requests| && forall i :: 0 <= i < |ops| ==> Serves(ops[i], requests[i])
    ensures |ops| < |requests| ==>
              match requests[|ops|]
              case AskMoveIn(_, _) => false
              case AskCloneIn(_, info) => info.clone == None
              case r => r.src !in st.View()
    ensures AllAllowed(old(st.View()), ops) && st.View() == AppliedAll(old(st.View()), ops)
    ensures taken == TakenBy(old(st.View()), ops) && st.dropped == old(st.dropped) + DestroyedBy(old(st.View()), ops)
    ensures forall v :: Slots(old(st.View()), v) + PutIn(ops, v) == Gone(old(st.View()), ops, v) + Slots(st.View(), v)
  {
    hide Sound, Applied, Serves, Known, Typed, Slots;
    ops, taken := [], [];
    ghost var s := st.View();
    var i := 0;
    while i < |requests|
      invariant 0 <= i == |ops| <= |requests| && st.Valid() && Known(st.typeInfo, types)
      invariant forall k :: 0 <= k < i ==> Serves(ops[k], requests[k])
      invariant AllAllowed(s, ops) && st.View() == AppliedAll(s, ops)
      invariant taken == TakenBy(s, ops) && st.dropped == old(st.dropped) + DestroyedBy(s, ops)
    {
      var r := requests[i];
      if Panics(r, st.owned) {
        break;
      }
      var op, out := ServeOne(st, r, types);
      OneMore(s, ops, op);
      OneMoreTaken(s, ops, op);
      OneMoreDestroyed(s, ops, op);
      ops, taken := ops + [op], taken + out;
      i := i + 1;
    }
    forall v ensures Slots(s, v) + PutIn(ops, v) == Gone(s, ops, v) + Slots(st.View(), v) {
      NothingLost(s, ops, v);
    }
  }
}
