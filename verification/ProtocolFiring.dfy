/** The invariant through a firing: selecting a rule, filling cells, dispatching messages, emptying cells. */
module ProtocolFiring {
  import opened Wrappers
  import opened Protocol
  import opened ProtocolInvariant

  // ---------------------------------------------------------------- emptying a cell

  lemma MakeEmptyShape(s: State, m: Loc)
    requires Slots(s) && SlotAt(s, m).Some? && m !in s.ready
    ensures MakeEmpty(s, m) == s.(ptr := s.ptr - {m}, ready := s.ready + {m},
                                  refs := MakeEmpty(s, m).refs, store := MakeEmpty(s, m).store)
    ensures var x := SlotAt(s, m).value;
            && x in s.refs && x in s.store
            && (if s.refs[x] == 1 then MakeEmpty(s, m).refs == s.refs - {x} && MakeEmpty(s, m).store == s.store - {x}
                else MakeEmpty(s, m).refs == s.refs[x := s.refs[x] - 1] && MakeEmpty(s, m).store == s.store)
  {
    hide Holders;
  }

  lemma MakeEmptyHolders(s: State, m: Loc, s': State)
    requires Slots(s) && SlotAt(s, m).Some? && s'.ptr == s.ptr - {m}
    ensures var x := SlotAt(s, m).value;
            && x in s.refs && m in Holders(s, x) && Holders(s', x) == Holders(s, x) - {m}
            && |Holders(s', x)| == s.refs[x] - 1
            && forall k :: k != m && SlotAt(s, k) == Some(x) ==> s.refs[x] != 1
    ensures forall y :: y != SlotAt(s, m).value ==> Holders(s', y) == Holders(s, y)
  {
    var x := s.ptr[m].at;
    assert Holders(s', x) == Holders(s, x) - {m};
    forall k | k != m && SlotAt(s, k) == Some(x) ensures s.refs[x] != 1 {
      assert k in Holders(s', x);
    }
  }

  lemma MakeEmptySlots(s: State, m: Loc)
    requires Slots(s) && SlotAt(s, m).Some? && m !in s.ready
    ensures Slots(MakeEmpty(s, m))
    ensures MakeEmpty(s, m) == s.(ptr := s.ptr - {m}, ready := s.ready + {m},
                                  refs := MakeEmpty(s, m).refs, store := MakeEmpty(s, m).store)
    ensures forall k :: k != m && SlotAt(s, k).Some? ==>
              && SlotAt(s, k).value in MakeEmpty(s, m).store && SlotAt(s, k).value in s.store
              && MakeEmpty(s, m).store[SlotAt(s, k).value] == s.store[SlotAt(s, k).value]
  {
    hide MakeEmpty, Holders;
    MakeEmptyShape(s, m);
    var s' := MakeEmpty(s, m);
    MakeEmptyHolders(s, m, s');
    assert forall k <- s'.ptr :: s'.ptr[k].Slot? ==> SlotAt(s, k) == Some(s'.ptr[k].at);
    assert forall y <- s'.refs :: y in s.refs && s'.refs[y] == |Holders(s', y)|;
  }

  /** A cell that is emptied becomes ready; whoever emptied it is served. */
  lemma EmptiedGood(c: Config, s: State, m: Loc, s': State)
    requires Locations(c, s) && IsMemo(c, m) && m !in s.mem && m !in s.ready
    requires m in s'.ready && m !in s'.mem && m !in s'.ptr && RoleOf(s'.lock, m) == Idle && !Busy(s', m)
    requires Lookup(s'.call, m) == Lookup(s.call, m) && Lookup(s'.box, m) == Lookup(s.box, m)
    ensures Good(c, m, ViewOf(s', m), Busy(s', m))
  {
    hide Locations, Busy, RoleOf;
    GoodAt(c, s, m);
  }

  lemma BusyCell(c: Config, s: State, m: Loc)
    requires Locations(c, s) && Busy(s, m) && IsMemo(c, m)
    ensures SlotAt(s, m).Some? && m !in s.ready && m !in s.mem
  {
    hide Busy;
    GoodAt(c, s, m);
  }

  /** The last getter of a memory putter re-enters the lock and empties the cell. */
  lemma FinalizeMemoInv(c: Config, s: State, g: Loc)
    requires Inv(c, s) && g in s.call && s.call[g].Get? && s.call[g].phase.Finalizing? && IsMemo(c, s.call[g].phase.src)
    requires s.lock.Free?
    ensures Inv(c, DoFinalize(c, s, g))
  {
    hide Locations, Counts, Slots, Takers, LockOk, Good, Busy, Out, Closers, MakeEmpty;
    var src := s.call[g].phase.src;
    var s1 := SetPhase(s, g, Served);
    var s' := DoFinalize(c, s, g);
    PledgedToPutter(c, s, g);
    BusyCell(c, s, src);
    SlotsKept(s, s1);
    MakeEmptySlots(s1, src);
    SlotsKept(MakeEmpty(s1, src), s');
    CallKinds(c, s, src);
    CloseSets(c, s, g, s');
    ServedGood(c, s, g, s');
    EmptiedGood(c, s, src, s');
    Relocate(c, s, s', {g, src});
    EmptyLock(c, s'.lock);
    ClosedTakers(c, s, g, s');
  }

  lemma CallKinds(c: Config, s: State, l: Loc)
    requires Locations(c, s)
    ensures l in s.call ==> if s.call[l].Put? then IsPoPu(c, l) else IsPoGe(c, l)
  {
    GoodAt(c, s, l);
  }

  lemma EmptyLock(c: Config, k: Lock)
    requires Rest(k) == [] && Sends(k) == []
    ensures forall s: State :: s.lock == k ==> LockOk(c, s)
    ensures forall l :: RoleOf(k, l) == Idle
  {
  }

  // ---------------------------------------------------------------- selecting a rule

  lemma ActionKinds(c: Config, acts: seq<Action>)
    requires ActionsOk(c, acts)
    ensures Putters(acts) !! Getters(acts)
    ensures forall l <- Putters(acts) :: IsPutter(c, l)
    ensures forall l <- Getters(acts) :: IsMemo(c, l) || IsPoGe(c, l)
  {
    if acts != [] {
      ActionKinds(c, acts[1..]);
    }
  }

  /** An enabled rule takes its locations out of play; its bits are assigned before any datum moves. */
  lemma SelectInv(c: Config, s: State, r: Rule)
    requires Inv(c, s) && RuleOk(c, r) && s.lock.Held? && s.lock.sends == [] && s.lock.rest == [] && RuleEnabled(s, r)
    ensures Inv(c, DoSelect(s, r)) && SameBusy(s, DoSelect(s, r))
  {
    hide Locations, Counts, Slots, Takers, ActionsOk, Good, Busy, Out, Closers, Putters, Getters;
    var s' := DoSelect(s, r);
    forall k ensures Pledge(s', k) == Pledge(s, k) && Closing(s', k) == Closing(s, k) {
    }
    QuietStep(s, s');
    SlotsKept(s, s');
    TakersShrink(c, s, s');
    SelectLocations(c, s, r, s');
  }

  lemma SelectLocations(c: Config, s: State, r: Rule, s': State)
    requires Locations(c, s) && RuleOk(c, r) && s.lock.Held? && s.lock.sends == [] && s.lock.rest == []
    requires RuleEnabled(s, r)
    requires s' == DoSelect(s, r) && forall p :: Busy(s', p) == Busy(s, p)
    ensures Locations(c, s')
  {
    hide Locations, ActionsOk, Good, Busy, Out, Closers, Putters, Getters;
    ActionKinds(c, r.actions);
    forall k <- Locs(r.actions) ensures Good(c, k, ViewOf(s', k), Busy(s', k)) {
      SelectedGood(c, s, r, s', k);
    }
    EmptyLock(c, s.lock);
    Relocate(c, s, s', Locs(r.actions));
  }

  lemma SelectedGood(c: Config, s: State, r: Rule, s': State, k: Loc)
    requires Locations(c, s) && RuleOk(c, r) && s.lock.Held? && s.lock.sends == [] && s.lock.rest == []
    requires RuleEnabled(s, r)
    requires s' == DoSelect(s, r) && Busy(s', k) == Busy(s, k) && k in Locs(r.actions)
    ensures Good(c, k, ViewOf(s', k), Busy(s', k))
  {
    hide Locations, ActionsOk, Busy, Putters, Getters, GetOk;
    ActionKinds(c, r.actions);
    GoodAt(c, s, k);
  }

  // ---------------------------------------------------------------- filling the memory getters

  /** The action that is left once its memory getters are filled. */
  function Rump(a: Action): Action { Action(a.putter, [], a.pg) }

  function RumpLock(k: Lock): Lock
    requires k.Held? && k.rest != []
  {
    k.(rest := [Rump(k.rest[0])] + k.rest[1..])
  }

  ghost predicate Performing(c: Config, s: State) {
    s.lock.Held? && s.lock.sends == [] && s.lock.rest != []
  }

  lemma RumpRoles(c: Config, k: Lock)
    requires k.Held? && k.sends == [] && k.rest != [] && ActionsOk(c, k.rest)
    ensures ActionsOk(c, RumpLock(k).rest)
    ensures forall m :: RoleOf(RumpLock(k), m) == (if m in k.rest[0].mg then Idle else RoleOf(k, m))
    ensures forall m <- k.rest[0].mg :: RoleOf(k, m) == ToGet
    ensures RoleOf(k, k.rest[0].putter) == ToPut && forall g <- k.rest[0].pg :: RoleOf(k, g) == ToGet
  {
    hide IsMemo, IsPoPu, IsPoGe;
    var acts := RumpLock(k).rest;
    assert acts[1..] == k.rest[1..];
    ActionKinds(c, k.rest);
    assert Touched(Rump(k.rest[0])) <= Touched(k.rest[0]);
    RumpScope(c, k.rest[0]);
    RumpApart(c, k.rest);
  }

  lemma RumpScope(c: Config, a: Action)
    requires ActionOk(c, a)
    ensures ActionOk(c, Rump(a))
    ensures forall m <- a.mg :: m !in a.pg && m != a.putter
  {
  }

  lemma RumpApart(c: Config, acts: seq<Action>)
    requires ActionsOk(c, acts) && acts != []
    ensures forall m <- acts[0].mg :: m in Getters(acts) && m !in Locs(acts[1..])
    ensures forall m <- acts[0].pg :: m in Getters(acts) && m !in Locs(acts[1..])
    ensures acts[0].putter in Putters(acts) && acts[0].putter !in Locs(acts[1..])
  {
    assert forall m <- acts[0].mg :: m in Touched(acts[0]);
    assert forall m <- acts[0].pg :: m in Touched(acts[0]);
    assert acts[0].putter in Touched(acts[0]);
  }

  /** The slot the memory getters are pointed at. */
  function Target(c: Config, s: State, a: Action, slot: Ptr): Ptr {
    if IsMemo(c, a.putter) && a.putter in s.ptr && s.ptr[a.putter].Slot? then s.ptr[a.putter].at else slot
  }

  function PointAll(ptr: map<Loc, Ref>, cells: seq<Loc>, x: Ptr): map<Loc, Ref> {
    ptr + (map m | m in cells :: Slot(x))
  }

  function SizedAt(refs: map<Ptr, nat>, x: Ptr): nat { if x in refs then refs[x] else 0 }

  lemma FillAll(s: State, cells: seq<Loc>, x: Ptr)
    requires forall m <- cells :: m !in s.ptr
    ensures Fill(s, cells, x) == s.(ptr := PointAll(s.ptr, cells, x), ready := s.ready + SetOf(cells))
  {
    hide SetOf;
  }

  lemma FillCellShape(c: Config, s: State, a: Action, slot: Ptr)
    requires IsMemo(c, a.putter) && SlotAt(s, a.putter).Some? && SlotAt(s, a.putter).value in s.refs
    requires s.refs[SlotAt(s, a.putter).value] >= 1 && forall m <- a.mg :: m !in s.ptr
    ensures var x, s1 := SlotAt(s, a.putter).value, FillGetters(c, s, a, slot);
            s1 == s.(ptr := PointAll(s.ptr, a.mg, x), ready := s.ready + SetOf(a.mg),
              refs := s.refs[x := s.refs[x] + |a.mg|])
  {
    hide SetOf, Fill, PointAll;
    FillAll(s, a.mg, SlotAt(s, a.putter).value);
  }

  lemma FillPortShape(c: Config, s: State, a: Action, slot: Ptr)
    requires !IsMemo(c, a.putter) && a.mg != [] && Clonable(c, a) && Deref(s, a.putter).Some? && slot !in s.refs
    requires forall m <- a.mg :: m !in s.ptr
    ensures FillGetters(c, s, a, slot)
            == s.(ptr := PointAll(s.ptr, a.mg, slot), ready := s.ready + SetOf(a.mg),
                  store := s.store[slot := Deref(s, a.putter).value], refs := s.refs[slot := |a.mg|])
  {
    hide SetOf, Fill, PointAll, Deref;
    FillAll(s, a.mg, slot);
  }

  lemma FillShape(c: Config, s: State, slot: Ptr)
    requires Inv(c, s) && Performing(c, s) && slot !in s.store
    requires Clonable(c, s.lock.rest[0])
    ensures var a := s.lock.rest[0]; var x := Target(c, s, a, slot); var s1 := FillGetters(c, s, a, slot);
            && (forall m <- a.mg :: m !in s.ptr)
            && (a.mg == [] && !IsMemo(c, a.putter) ==> s1 == s)
            && (a.mg != [] || IsMemo(c, a.putter) ==>
                  s1 == s.(ptr := PointAll(s.ptr, a.mg, x), ready := s.ready + SetOf(a.mg), store := s1.store,
                           refs := s.refs[x := SizedAt(s.refs, x) + |a.mg|]))
            && (if IsMemo(c, a.putter) then s1.store == s.store && x in s.refs && SlotAt(s, a.putter) == Some(x)
                else if a.mg == [] then s1.store == s.store
                else Deref(s, a.putter).Some? && s1.store == s.store[slot := Deref(s, a.putter).value])
  {
    hide Locations, Counts, Takers, Putters, Getters, Holders, Busy, Out, Closers, ActionsOk, FillGetters, Fill, SetOf,
      Deref, PointAll;
    var a := s.lock.rest[0];
    PerformGood(c, s);
    if IsMemo(c, a.putter) {
      FillCellShape(c, s, a, slot);
    } else if a.mg != [] {
      FillPortShape(c, s, a, slot);
    } else {
      FillNothing(c, s, a, slot);
    }
  }

  lemma FillNothing(c: Config, s: State, a: Action, slot: Ptr)
    requires !IsMemo(c, a.putter) && a.mg == []
    ensures FillGetters(c, s, a, slot) == s
  {
  }

  /** What is known of the locations of the action to be performed. */
  lemma PerformGood(c: Config, s: State)
    requires Inv(c, s) && Performing(c, s)
    ensures var a := s.lock.rest[0];
            && ActionOk(c, a)
            && !Busy(s, a.putter) && a.putter !in s.ready && a.putter !in s.mem
            && (IsMemo(c, a.putter) ==> SlotAt(s, a.putter).Some? && SlotAt(s, a.putter).value in s.refs)
            && (IsPoPu(c, a.putter) ==> Deref(s, a.putter).Some? && a.putter !in s.box && Unboxed(s, a.putter))
            && (forall m <- a.mg :: m !in s.ptr && m in s.mem && m !in s.ready && !Busy(s, m))
            && (forall g <- a.pg :: g !in s.ready && Unboxed(s, g) && s.call[g].Get?)
  {
    hide Locations, Counts, Takers, Putters, Getters, Holders, Busy, Out, Closers, LockOk;
    var a := s.lock.rest[0];
    LockedActions(c, s);
    RumpRoles(c, s.lock);
    GoodAt(c, s, a.putter);
    forall m <- a.mg ensures m !in s.ptr && m in s.mem && m !in s.ready && !Busy(s, m) {
      GoodAt(c, s, m);
    }
    forall g <- a.pg ensures g !in s.ready && Unboxed(s, g) && s.call[g].Get? {
      GoodAt(c, s, g);
    }
  }

  predicate Unboxed(s: State, l: Loc) { l in s.call && BeforeMessage(s.call[l].phase) && l !in s.box }

  lemma LockedActions(c: Config, s: State)
    requires LockOk(c, s) && Performing(c, s)
    ensures ActionsOk(c, s.lock.rest) && ActionOk(c, s.lock.rest[0])
  {
    hide ActionOk;
  }

  lemma DistinctSize(xs: seq<Loc>)
    requires forall i, j :: 0 <= i < j < |xs| ==> xs[i] != xs[j]
    ensures |SetOf(xs)| == |xs|
  {
    if xs != [] {
      var n := |xs| - 1;
      DistinctSize(xs[..n]);
      assert SetOf(xs) == SetOf(xs[..n]) + {xs[n]};
      assert xs[n] !in SetOf(xs[..n]);
    }
  }

  /** The new holders of the target slot are counted. */
  lemma FilledSlots(s: State, s1: State, cells: seq<Loc>, x: Ptr)
    requires Slots(s) && (forall i, j :: 0 <= i < j < |cells| ==> cells[i] != cells[j])
    requires forall m <- cells :: m !in s.ptr
    requires s1.ptr == PointAll(s.ptr, cells, x) && s1.refs == s.refs[x := SizedAt(s.refs, x) + |cells|]
    requires x in s.refs || cells != []
    requires s1.store.Keys == s.store.Keys + {x}
    ensures Slots(s1)
  {
    FilledHolders(s, s1, cells, x);
    hide Holders;
    forall m <- s1.ptr ensures s1.ptr[m].Slot? ==> s1.ptr[m].at in s1.refs {
    }
    forall y <- s1.refs ensures s1.refs[y] >= 1 && s1.refs[y] == |Holders(s1, y)| {
    }
  }

  lemma FilledHolders(s: State, s1: State, cells: seq<Loc>, x: Ptr)
    requires Slots(s) && (forall i, j :: 0 <= i < j < |cells| ==> cells[i] != cells[j])
    requires forall m <- cells :: m !in s.ptr
    requires s1.ptr == PointAll(s.ptr, cells, x)
    ensures forall y :: y != x ==> Holders(s1, y) == Holders(s, y)
    ensures |Holders(s1, x)| == SizedAt(s.refs, x) + |cells|
  {
    hide Holders, PointAll;
    DistinctSize(cells);
    forall m ensures SlotAt(s1, m) == if m in SetOf(cells) then Some(x) else SlotAt(s, m) {
      PointedAt(s.ptr, cells, x, m);
    }
    HoldersJoin(s, s1, SetOf(cells), x);
    if x !in s.refs {
      assert forall m <- s.ptr :: s.ptr[m].Slot? ==> s.ptr[m].at in s.refs;
      HoldersEmpty(s, x);
    }
  }

  lemma HoldersJoin(s: State, s1: State, cells: set<Loc>, x: Ptr)
    requires forall m :: SlotAt(s1, m) == if m in cells then Some(x) else SlotAt(s, m)
    requires forall m <- cells :: SlotAt(s, m) == None
    ensures Holders(s1, x) == Holders(s, x) + cells && Holders(s, x) !! cells
    ensures forall y :: y != x ==> Holders(s1, y) == Holders(s, y)
  {
    forall y, m ensures m in Holders(s1, y) <==> m in Holders(s, y) || (y == x && m in cells) {
      HoldsAt(s, y, m);
      HoldsAt(s1, y, m);
    }
    forall m ensures !(m in Holders(s, x) && m in cells) {
      HoldsAt(s, x, m);
    }
    assert forall m :: m in Holders(s1, x) <==> m in Holders(s, x) + cells;
    forall y | y != x ensures Holders(s1, y) == Holders(s, y) {
      forall m ensures m in Holders(s1, y) <==> m in Holders(s, y) {
        HoldsAt(s, y, m);
        HoldsAt(s1, y, m);
      }
    }
  }

  lemma HoldsAt(s: State, x: Ptr, m: Loc)
    ensures m in Holders(s, x) <==> SlotAt(s, m) == Some(x)
  {
  }

  lemma HoldersEmpty(s: State, x: Ptr)
    requires forall m <- s.ptr :: s.ptr[m].Slot? ==> s.ptr[m].at != x
    ensures Holders(s, x) == {}
  {
    assert forall m :: m !in Holders(s, x);
  }

  lemma PointedAt(ptr: map<Loc, Ref>, cells: seq<Loc>, x: Ptr, m: Loc)
    ensures m in PointAll(ptr, cells, x) <==> m in ptr || m in cells
    ensures m in PointAll(ptr, cells, x) ==> PointAll(ptr, cells, x)[m] == if m in cells then Slot(x) else ptr[m]
  {
  }

  lemma FillTakers(c: Config, s: State, slot: Ptr)
    requires Inv(c, s) && Performing(c, s) && slot !in s.store && Clonable(c, s.lock.rest[0])
    ensures Takers(c, FillGetters(c, s, s.lock.rest[0], slot).(lock := RumpLock(s.lock)))
  {
    hide Locations, Counts, Slots, Takers, LockOk, ActionsOk, ActionOk, FillGetters, Target, Clonable, SetOf;
    var s' := FillGetters(c, s, s.lock.rest[0], slot).(lock := RumpLock(s.lock));
    FillShape(c, s, slot);
    EngagedThroughRump(s, s');
    TakersShrink(c, s, s');
  }

  /** Filling the memory getters of the first action leaves the protocol about to perform the rest of it. */
  lemma FillInv(c: Config, s: State, slot: Ptr)
    requires Inv(c, s) && Performing(c, s) && slot !in s.store
    requires Clonable(c, s.lock.rest[0])
    ensures Inv(c, FillGetters(c, s, s.lock.rest[0], slot).(lock := RumpLock(s.lock)))
  {
    hide Locations, Counts, Slots, Takers, LockOk, ActionsOk, ActionOk, Good, Busy, Out, Closers, FillGetters, Target,
      Clonable, SetOf, PointAll;
    var a := s.lock.rest[0];
    var s1 := FillGetters(c, s, a, slot);
    var s' := s1.(lock := RumpLock(s.lock));
    FillShape(c, s, slot);
    LockedActions(c, s);
    RumpRoles(c, s.lock);
    EngagedThroughRump(s, s');
    QuietStep(s, s');
    FillSlotsInv(c, s, slot);
    SlotsKept(s1, s');
    FillTakers(c, s, slot);
    RumpLockOk(c, s, s');
    FillLocations(c, s, Target(c, s, a, slot), s');
  }

  lemma FillLocations(c: Config, s: State, x: Ptr, s': State)
    requires Inv(c, s) && Performing(c, s)
    requires s'.lock == RumpLock(s.lock) && s'.call == s.call && s'.box == s.box && s'.mem == s.mem
    requires (s'.ptr == s.ptr && s'.ready == s.ready && s.lock.rest[0].mg == [])
             || (s'.ptr == PointAll(s.ptr, s.lock.rest[0].mg, x) && s'.ready == s.ready + SetOf(s.lock.rest[0].mg))
    requires forall p :: Busy(s', p) == Busy(s, p)
    requires forall k :: Pledge(s', k) == Pledge(s, k) && Closing(s', k) == Closing(s, k)
    ensures Locations(c, s')
  {
    hide Locations, Counts, Slots, Takers, LockOk, ActionsOk, Good, Busy, Out, Closers, RoleOf, Pledge, Closing,
      PointAll;
    var a := s.lock.rest[0];
    PerformGood(c, s);
    LockedActions(c, s);
    RumpRoles(c, s.lock);
    forall m ensures m !in a.mg ==> Lookup(s'.ptr, m) == Lookup(s.ptr, m) {
      PointedAt(s.ptr, a.mg, x, m);
    }
    forall m <- SetOf(a.mg) ensures Good(c, m, ViewOf(s', m), Busy(s', m)) {
      PointedAt(s.ptr, a.mg, x, m);
      FilledGood(c, s, s', m);
    }
    Relocate(c, s, s', SetOf(a.mg));
  }

  lemma EngagedThroughRump(s: State, s': State)
    requires s.lock.Held? && s.lock.sends == [] && s'.lock.Held? && s'.lock.sends == []
    requires s'.call == s.call && s'.box == s.box
    ensures forall k :: Pledge(s', k) == Pledge(s, k) && Closing(s', k) == Closing(s, k)
    ensures forall k :: Wants(s', k) == Wants(s, k) && Hungry(s', k) == Hungry(s, k)
  {
  }

  lemma FillSlotsInv(c: Config, s: State, slot: Ptr)
    requires Inv(c, s) && Performing(c, s) && slot !in s.store
    requires Clonable(c, s.lock.rest[0])
    ensures Slots(FillGetters(c, s, s.lock.rest[0], slot))
  {
    hide Locations, Counts, Takers, LockOk, ActionsOk, Holders, FillGetters;
    var a := s.lock.rest[0];
    FillShape(c, s, slot);
    PerformGood(c, s);
    if a.mg != [] || IsMemo(c, a.putter) {
      FilledSlots(s, FillGetters(c, s, a, slot), a.mg, Target(c, s, a, slot));
    }
  }

  lemma RumpLockOk(c: Config, s: State, s': State)
    requires LockOk(c, s) && Performing(c, s) && s'.lock == RumpLock(s.lock)
    requires ActionsOk(c, RumpLock(s.lock).rest)
    ensures LockOk(c, s')
  {
    hide ActionsOk;
  }

  lemma FilledGood(c: Config, s: State, s': State, m: Loc)
    requires Locations(c, s) && IsMemo(c, m) && m !in s.ptr && m in s.mem
    requires m in s'.ready && m in s'.mem && m in s'.ptr && s'.ptr[m].Slot? && RoleOf(s'.lock, m) == Idle
    requires !Busy(s', m)
    requires Lookup(s'.call, m) == Lookup(s.call, m) && Lookup(s'.box, m) == Lookup(s.box, m)
    ensures Good(c, m, ViewOf(s', m), Busy(s', m))
  {
    hide Locations, Busy, RoleOf;
    GoodAt(c, s, m);
  }

  // ---------------------------------------------------------------- dispatching

  lemma AfterRoles(c: Config, k: Lock)
    requires k.Held? && k.sends == [] && k.rest != [] && ActionsOk(c, k.rest) && k.rest[0].mg == []
    ensures ActionsOk(c, k.rest[1..]) && SetOf(k.rest[0].pg) !! Locs(k.rest[1..])
    ensures var k1 := k.(src := k.rest[0].putter, sends := k.rest[0].pg, rest := k.rest[1..]);
            forall m :: RoleOf(k1, m) == (if m == k.rest[0].putter then Idle else if m in k.rest[0].pg then ToSend
              else RoleOf(k, m))
    ensures RoleOf(k, k.rest[0].putter) == ToPut && forall g <- k.rest[0].pg :: RoleOf(k, g) == ToGet
  {
    hide IsMemo, IsPoPu, IsPoGe;
    ActionKinds(c, k.rest);
    RumpScope(c, k.rest[0]);
    RumpApart(c, k.rest);
  }

  /** With no port getter, a memory putter is emptied at once. */
  lemma DispatchMemoInv(c: Config, s: State)
    requires Inv(c, s) && Performing(c, s) && s.lock.rest[0].mg == [] && s.lock.rest[0].pg == []
    requires IsMemo(c, s.lock.rest[0].putter)
    ensures Inv(c, Dispatched(MakeEmpty(s, s.lock.rest[0].putter), s.lock.rest[0], s.lock))
  {
    hide Locations, Counts, Slots, Takers, LockOk, ActionsOk, ActionOk, Good, Busy, Out, Closers, MakeEmpty, RoleOf;
    var p := s.lock.rest[0].putter;
    var s1 := MakeEmpty(s, p);
    var s' := Dispatched(s1, s.lock.rest[0], s.lock);
    PerformGood(c, s);
    LockedActions(c, s);
    AfterRoles(c, s.lock);
    MakeEmptySlots(s, p);
    SlotsKept(s1, s');
    EngagedThroughRump(s, s');
    QuietStep(s, s');
    EmptiedGood(c, s, p, s');
    Relocate(c, s, s', {p});
    TakersShrink(c, s, s');
    DispatchedLockOk(c, s, s');
  }

  lemma DispatchedLockOk(c: Config, s: State, s': State)
    requires Performing(c, s) && ActionOk(c, s.lock.rest[0])
    requires ActionsOk(c, s.lock.rest[1..]) && SetOf(s.lock.rest[0].pg) !! Locs(s.lock.rest[1..])
    requires s'.lock.Held? && s'.lock.sends == s.lock.rest[0].pg && s'.lock.rest == s.lock.rest[1..]
    ensures LockOk(c, s')
  {
    hide ActionsOk;
  }

  /** With no port getter, a port putter gets its message at once. */
  lemma DispatchPortInv(c: Config, s: State, msg: int)
    requires Inv(c, s) && Performing(c, s) && s.lock.rest[0].mg == [] && s.lock.rest[0].pg == []
    requires IsPoPu(c, s.lock.rest[0].putter)
    requires msg == 0 || msg == 1
    ensures Inv(c, Dispatched(Send(s, s.lock.rest[0].putter, msg), s.lock.rest[0], s.lock))
  {
    hide Locations, Counts, Slots, Takers, LockOk, ActionsOk, ActionOk, Good, Busy, Out, Closers, RoleOf;
    var p := s.lock.rest[0].putter;
    var s' := Dispatched(Send(s, p, msg), s.lock.rest[0], s.lock);
    PerformGood(c, s);
    LockedActions(c, s);
    AfterRoles(c, s.lock);
    SlotsKept(s, s');
    CallKinds(c, s, p);
    BoxedEngaged(s, s', p);
    QuietStep(s, s');
    MessagedGood(c, s, p, s');
    Relocate(c, s, s', {p});
    TakersShrink(c, s, s');
    DispatchedLockOk(c, s, s');
  }

  lemma BoxedEngaged(s: State, s': State, p: Loc)
    requires s.lock.Held? && s.lock.sends == [] && s'.lock.Held? && s'.lock.sends == []
    requires p in s.call && s.call[p].Put? && s'.call == s.call && p !in s.box && p in s'.box
    requires s'.box == s.box[p := s'.box[p]]
    ensures forall k :: Pledge(s', k) == Pledge(s, k) && Closing(s', k) == Closing(s, k)
    ensures forall k :: Wants(s', k) == Wants(s, k) && Hungry(s', k) == Hungry(s, k)
  {
  }

  lemma MessagedGood(c: Config, s: State, p: Loc, s': State)
    requires Locations(c, s) && RoleOf(s.lock, p) == ToPut && IsPoPu(c, p) && p in s.call
    requires BeforeMessage(s.call[p].phase)
    requires RoleOf(s'.lock, p) == Idle && !Busy(s, p) && !Busy(s', p)
    requires Lookup(s'.call, p) == Lookup(s.call, p) && (p in s'.ready <==> p in s.ready)
    requires (p in s'.mem <==> p in s.mem)
    requires p !in s.ready
    requires Lookup(s'.ptr, p) == Lookup(s.ptr, p) && p in s'.box && (s'.box[p] == 0 || s'.box[p] == 1)
    ensures Good(c, p, ViewOf(s', p), Busy(s', p))
  {
    hide Locations, Busy, RoleOf;
    GoodAt(c, s, p);
  }

  /** With port getters, the putter waits for all of them to leave. */
  lemma DispatchGettersInv(c: Config, s: State, f: Flags)
    requires Inv(c, s) && Performing(c, s) && s.lock.rest[0].mg == [] && s.lock.rest[0].pg != []
    requires TakersOk(c, s, s.lock.rest[0]) && (!c.isCopy ==> f.disabled)
    ensures Inv(c, Dispatched(Armed(s, s.lock.rest[0], f), s.lock.rest[0], s.lock))
  {
    hide Locations, Counts, Slots, Takers, LockOk, ActionsOk, Good, Busy, Out, Closers, RoleOf, Pledge, Closing, Wants,
      Hungry;
    var a := s.lock.rest[0];
    var s' := Dispatched(Armed(s, a, f), a, s.lock);
    PerformGood(c, s);
    LockedActions(c, s);
    AfterRoles(c, s.lock);
    SlotsKept(s, s');
    ArmedEngaged(c, s, s');
    ArmedCounts(c, s, s');
    ArmedTakers(c, s, s');
    ArmedLocations(c, s, s');
    DispatchedLockOk(c, s, s');
  }

  /** The countdown and the flags are set for the getters to come. */
  function Armed(s: State, a: Action, f: Flags): State {
    s.(count := s.count[a.putter := |a.pg|], flags := s.flags[a.putter := f])
  }

  ghost predicate ArmedStep(c: Config, s: State, s': State) {
    && Performing(c, s) && s.lock.rest[0].mg == [] && s.lock.rest[0].pg != []
    && s' == s.(count := s.count[s.lock.rest[0].putter := |s.lock.rest[0].pg|], flags := s'.flags,
                lock := s.lock.(src := s.lock.rest[0].putter, sends := s.lock.rest[0].pg, rest := s.lock.rest[1..]))
  }

  lemma ArmedEngaged(c: Config, s: State, s': State)
    requires Inv(c, s) && ArmedStep(c, s, s')
    ensures var a := s.lock.rest[0];
            && (forall k :: Pledge(s', k) == if k in a.pg then Some(a.putter) else Pledge(s, k))
            && (forall k ::
                  Closing(s', k) == Closing(s, k)
                    && (k in a.pg ==> k in s.call && Pledge(s, k) == None && Closing(s, k) == None))
            && (forall k :: Wants(s', k) == Wants(s, k) && Hungry(s', k) == Hungry(s, k))
  {
    hide Locations, Counts, Slots, Takers, LockOk, ActionsOk, ActionOk, Busy, Out, Closers;
    PerformGood(c, s);
  }

  lemma ArmedCounts(c: Config, s: State, s': State)
    requires Inv(c, s) && ArmedStep(c, s, s')
    ensures Counts(s') && forall p :: Busy(s', p) == (Busy(s, p) || p == s.lock.rest[0].putter)
  {
    hide Locations, Slots, Takers, LockOk, Pledge, Closing, Wants, Hungry;
    var a := s.lock.rest[0];
    PerformGood(c, s);
    ArmedEngaged(c, s, s');
    forall k <- SetOf(a.pg) ensures k in s.call {
      assert k in a.pg && Closing(s', k) == Closing(s, k);
    }
    ArmedSets(s, s', a.putter, SetOf(a.pg));
    DistinctSize(a.pg);
    assert a.pg[0] in SetOf(a.pg);
  }

  lemma ArmedSets(s: State, s': State, p: Loc, gs: set<Loc>)
    requires s'.call == s.call && gs <= s.call.Keys && Out(s, p) == {}
    requires forall k :: Pledge(s', k) == if k in gs then Some(p) else Pledge(s, k)
    requires forall k :: Closing(s', k) == Closing(s, k) && (k in gs ==> Pledge(s, k) == None)
    ensures Out(s', p) == gs && (forall q :: q != p ==> Out(s', q) == Out(s, q)) && forall q ::
      Closers(s', q) == Closers(s, q)
  {
    hide Pledge, Closing;
    forall k ensures k in Out(s', p) <==> k in gs {
      assert k !in Out(s, p);
    }
    forall q ensures (q != p ==> Out(s', q) == Out(s, q)) && Closers(s', q) == Closers(s, q) {
      assert forall k :: k in Closers(s', q) <==> k in Closers(s, q);
      assert q != p ==> forall k :: k in Out(s', q) <==> k in Out(s, q);
    }
  }

  lemma ArmedTakers(c: Config, s: State, s': State)
    requires Inv(c, s) && ArmedStep(c, s, s')
    requires forall p <- s.flags :: p != s.lock.rest[0].putter ==> p in s'.flags && s'.flags[p] == s.flags[p]
    requires !c.isCopy ==> s.lock.rest[0].putter in s'.flags && s'.flags[s.lock.rest[0].putter].disabled
    requires TakersOk(c, s, s.lock.rest[0])
    ensures Takers(c, s')
  {
    hide Locations, Slots, Counts, LockOk, Pledge, Closing, Engaged, Wants, Hungry, Out, Closers, Busy;
    var a := s.lock.rest[0];
    PerformGood(c, s);
    ArmedEngaged(c, s, s');
    IdlePutter(s, a.putter);
    forall k ensures Engaged(s', k) == if k in a.pg then Some(a.putter) else Engaged(s, k) {
      ArmedEngagedOne(s, s', a, k);
    }
    assert IsPoPu(c, a.putter) ==> a.putter in s.ptr;
    assert !c.isCopy ==> forall k, h :: k in a.pg && h in a.pg && Wants(s, k) ==> h == k;
  }

  lemma ArmedEngagedOne(s: State, s': State, a: Action, k: Loc)
    requires Pledge(s', k) == (if k in a.pg then Some(a.putter) else Pledge(s, k)) && Closing(s', k) == Closing(s, k)
    ensures Engaged(s', k) == if k in a.pg then Some(a.putter) else Engaged(s, k)
  {
    hide Pledge, Closing;
  }

  lemma IdlePutter(s: State, p: Loc)
    requires !Busy(s, p)
    ensures forall k :: Engaged(s, k) != Some(p)
  {
    forall k ensures Engaged(s, k) != Some(p) {
      assert k in s.call && Pledge(s, k) == Some(p) ==> k in Out(s, p);
      assert k in s.call && Closing(s, k) == Some(p) ==> k in Closers(s, p);
    }
  }

  lemma ArmedLocations(c: Config, s: State, s': State)
    requires Inv(c, s) && ArmedStep(c, s, s')
    requires forall p :: Busy(s', p) == (Busy(s, p) || p == s.lock.rest[0].putter)
    ensures Locations(c, s')
  {
    hide Locations, Slots, Counts, Takers, LockOk, ActionsOk, RoleOf, Pledge, Closing, Wants, Hungry, Out, Closers,
      Busy, Good;
    var a := s.lock.rest[0];
    PerformGood(c, s);
    LockedActions(c, s);
    AfterRoles(c, s.lock);
    ArmedEngaged(c, s, s');
    forall k <- {a.putter} + SetOf(a.pg) ensures Good(c, k, ViewOf(s', k), Busy(s', k)) {
      if k == a.putter {
        ArmedPutterGood(c, s, s', k);
      } else {
        ArmedGetterGood(c, s, s', k);
      }
    }
    Relocate(c, s, s', {a.putter} + SetOf(a.pg));
  }

  lemma ArmedPutterGood(c: Config, s: State, s': State, p: Loc)
    requires Locations(c, s) && RoleOf(s.lock, p) == ToPut && RoleOf(s'.lock, p) == Idle && Busy(s', p)
    requires s' == s.(count := s'.count, flags := s'.flags, lock := s'.lock)
    requires p !in s.ready && IsPutter(c, p)
    ensures Good(c, p, ViewOf(s', p), Busy(s', p))
  {
    hide Locations, Busy, RoleOf;
    GoodAt(c, s, p);
  }

  lemma ArmedGetterGood(c: Config, s: State, s': State, g: Loc)
    requires Locations(c, s) && RoleOf(s.lock, g) == ToGet && RoleOf(s'.lock, g) == ToSend && Busy(s', g) == Busy(s, g)
    requires s' == s.(count := s'.count, flags := s'.flags, lock := s'.lock)
    requires g !in s.ready && IsPoGe(c, g)
    ensures Good(c, g, ViewOf(s', g), Busy(s', g))
  {
    hide Locations, Busy, RoleOf;
    GoodAt(c, s, g);
  }
}
