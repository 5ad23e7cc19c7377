/** The lock holder's work as the code does it (src/proto/mod.rs): fields updated in place, rules fired until none can.
    Its loops are runs of the step machine, they end, and they fire at most one rule per ready port. */
module Coordinator {
  import opened Wrappers
  import opened Protocol
  import opened ProtocolInvariant
  import opened ProtocolFiring
  import opened ProtocolSafety
  import opened RefinementFiring
  import opened StepEffects
  import opened Runs

  lemma ReachesStep(c: Config, s: State, step: Step)
    requires ConfigOk(c) && Inv(c, s) && Enabled(c, s, step) && Firing(step) && Scoped(c, s, step)
    ensures Reaches(c, s, [step], Do(c, s, step)) && Inv(c, Do(c, s, step)) && !Do(c, s, step).fault
    ensures Selections([step]) == if step.Select? then 1 else 0
  {
    hide Inv, Enabled, Do, ConfigOk, Scoped, Reaches, Selections;
    StepInv(c, s, step);
    NoFault(c, Do(c, s, step));
    FiringStep(c, s, step);
  }

  lemma PointNone(ptr: map<Loc, Ref>, x: Ptr)
    ensures PointAll(ptr, [], x) == ptr && SetOf([]) == {}
  {
  }

  lemma PointOne(ptr: map<Loc, Ref>, cells: seq<Loc>, m: Loc, x: Ptr)
    ensures PointAll(ptr, cells + [m], x) == PointAll(ptr, cells, x)[m := Slot(x)]
    ensures SetOf(cells + [m]) == SetOf(cells) + {m}
  {
  }

  lemma PointMore(ptr: map<Loc, Ref>, cells: seq<Loc>, i: nat, x: Ptr)
    ensures PointAll(ptr, cells[..0], x) == ptr && SetOf(cells[..0]) == {}
    ensures i < |cells| ==> PointAll(ptr, cells[..i + 1], x) == PointAll(ptr, cells[..i], x)[cells[i] := Slot(x)]
    ensures i < |cells| ==> SetOf(cells[..i + 1]) == SetOf(cells[..i]) + {cells[i]}
  {
    hide PointAll, SetOf;
    PointNone(ptr, x);
    if i < |cells| {
      assert cells[..i + 1] == cells[..i] + [cells[i]];
      PointOne(ptr, cells[..i], cells[i], x);
    }
  }

  class ProtoW {
    const c: Config
    var ready: set<Loc>
    var mem: set<Loc>
    var refs: map<Ptr, nat>
    var store: map<Ptr, Val>
    var ptr: map<Loc, Ref>
    var count: map<Loc, nat>
    var flags: map<Loc, Flags>
    var sema: map<Loc, nat>
    var box: map<Loc, int>
    var call: map<Loc, Call>

    /** The state of the step machine, when the lock holder has `k` left to do. */
    ghost function View(k: Lock): State
      reads this
    {
      State(k, ready, mem, refs, store, ptr, count, flags, sema, box, call, false)
    }

    constructor (c: Config)
      ensures this.c == c && View(Free) == Init(c)
    {
      this.c := c;
      ready := set m | m in c.kind && c.kind[m] == Memo;
      mem, refs, store, ptr, count, flags, sema, box, call := {}, map[], map[], map[], map[], map[], map[], map[],
        map[];
    }

    /** A cell gives up its pointer; the last reference frees the slot. */
    method MakeEmpty(m: Loc)
      requires m in ptr && ptr[m].Slot? && ptr[m].at in refs && refs[ptr[m].at] >= 1
      requires (refs[ptr[m].at] == 1 ==> ptr[m].at in store) && m !in ready
      modifies this`ptr, this`refs, this`store, this`ready
      ensures forall k :: View(k) == Protocol.MakeEmpty(old(View(k)), m)
    {
      var src := ptr[m].at;
      ptr := ptr - {m};
      refs := refs[src := refs[src] - 1];
      if refs[src] == 0 {
        refs := refs - {src};
        store := store - {src};
      }
      assert refs[src := 0] - {src} == old(refs) - {src};
      ready := ready + {m};
    }

    /** `overwrite_null_ptr` for each cell, which becomes ready. */
    method FillCells(cells: seq<Loc>, x: Ptr)
      requires forall i, j :: 0 <= i < j < |cells| ==> cells[i] != cells[j]
      requires forall m <- cells :: m !in ptr
      modifies this`ptr, this`ready
      ensures ptr == PointAll(old(ptr), cells, x) && ready == old(ready) + SetOf(cells)
    {
      hide PointAll, SetOf;
      var i := 0;
      PointMore(ptr, cells, 0, x);
      while i < |cells|
        invariant 0 <= i <= |cells|
        invariant ptr == PointAll(old(ptr), cells[..i], x) && ready == old(ready) + SetOf(cells[..i])
      {
        PointMore(old(ptr), cells, i, x);
        ptr := ptr[cells[i] := Slot(x)];
        ready := ready + {cells[i]};
        i := i + 1;
      }
      assert cells[..i] == cells;
    }

    /** Any slot that is not in use. */
    method NewSlot() returns (x: Ptr)
      ensures x !in store
    {
      x := 0;
      while x in store
        decreases |set y | y in store && y >= x|
      {
        ghost var above := set y | y in store && y >= x;
        x := x + 1;
        assert (set y | y in store && y >= x) == above - {x - 1};
      }
    }

    /** First half of an action: the memory getters share the slot of a cell, or get a port's datum in a new slot. */
    method Transfer(a: Action, ghost k: Lock) returns (slot: Ptr)
      requires Inv(c, View(k)) && Performing(c, View(k)) && a == k.rest[0] && Clonable(c, a)
      modifies this`ptr, this`ready, this`refs, this`store
      ensures slot !in old(store) && View(k) == FillGetters(c, old(View(k)), a, slot)
    {
      hide Inv, FillGetters, PointAll, Deref, SetOf, Performing, Clonable, IsMemo, Target;
      ghost var s := View(k);
      slot := NewSlot();
      TransferReady(c, s, a, slot);
      if IsMemo(c, a.putter) {
        var src := ptr[a.putter].at;
        FillCells(a.mg, src);
        refs := refs[src := refs[src] + |a.mg|];
      } else if a.mg != [] {
        var datum := call[a.putter].datum;
        FillCells(a.mg, slot);
        store := store[slot := datum];
        refs := refs[slot := |a.mg|];
      }
    }

    /** Second half, but for the messages: a putter without port getters is finished, otherwise countdown and flags
        are set. */
    method Deliver(a: Action, ghost k: Lock)
      requires Deliverable(c, View(k), a)
      modifies this`ptr, this`ready, this`refs, this`store, this`box, this`count, this`flags
      ensures View(k) == Dispatch(c, old(View(k)), a)
    {
      hide Holders;
      if a.pg == [] {
        if IsMemo(c, a.putter) {
          DeliverCell(View(k), a.putter);
          MakeEmpty(a.putter);
        } else {
          box := box[a.putter := if a.mg == [] then 0 else 1];
        }
      } else {
        var disableMove := IsMemo(c, a.putter) && a.putter in ptr && ptr[a.putter].Slot?
          && At(refs, ptr[a.putter].at, 0) != 1;
        count := count[a.putter := |a.pg|];
        flags := flags[a.putter := Flags(false, !disableMove)];
      }
    }

    /** The messages to the port getters, in order. */
    method SendAll(src: Loc, pg: seq<Loc>, ghost k: Lock) returns (ghost steps: seq<Step>)
      requires ConfigOk(c) && k.Held? && k.src == src && k.sends == pg && Inv(c, View(k))
      modifies this`box
      ensures Reaches(c, old(View(k)), steps, View(k.(sends := []))) && Inv(c, View(k.(sends := [])))
      ensures Selections(steps) == 0
    {
      hide Inv, ConfigOk, Reaches, Selections, Enabled, Do;
      steps := [];
      ghost var s := View(k);
      ReachesNone(c, s);
      var i := 0;
      assert pg[0..] == pg && k == k.(sends := pg[0..]);
      while i < |pg|
        invariant 0 <= i <= |pg|
        invariant Reaches(c, s, steps, View(k.(sends := pg[i..]))) && Inv(c, View(k.(sends := pg[i..])))
        invariant Selections(steps) == 0
      {
        ghost var s1 := View(k.(sends := pg[i..]));
        SendStep(c, s1);
        ReachesStep(c, s1, SendNext);
        box := box[pg[i] := src];
        i := i + 1;
        ghost var s2 := View(k.(sends := pg[i..]));
        assert s2 == Do(c, s1, SendNext) by {
          assert pg[i - 1..][1..] == pg[i..] && pg[i - 1..][0] == pg[i - 1];
        }
        ReachesOn(c, s, steps, s1, [SendNext], s2);
        steps := steps + [SendNext];
      }
      assert pg[i..] == [];
    }

    /** One action of the rule being fired. */
    method PerformAction(a: Action, ghost k: Lock) returns (ghost steps: seq<Step>)
      requires ConfigOk(c) && Inv(c, View(k)) && Performing(c, View(k)) && a == k.rest[0] && InScope(c, View(k), a)
      modifies this
      ensures call == old(call) && mem == old(mem)
      ensures var k' := k.(src := a.putter, sends := [], rest := k.rest[1..]);
              Reaches(c, old(View(k)), steps, View(k')) && Inv(c, View(k')) && Selections(steps) == 0
      ensures ReadyPorts(c, ready) == ReadyPorts(c, old(ready))
    {
      hide Inv, ConfigOk, Reaches, Selections, Enabled, Do, FillGetters, Dispatch, Deliverable, ReadyPorts;
      ghost var s := View(k);
      var slot := Transfer(a, k);
      ghost var s1 := View(k);
      CanDeliver(c, s, a, slot);
      Deliver(a, k);
      ghost var k1 := k.(src := a.putter, sends := a.pg, rest := k.rest[1..]);
      PerformStep(c, s, a, slot);
      ReachesStep(c, s, Perform(slot));
      assert View(k1) == Do(c, s, Perform(slot));
      ghost var s2 := View(k1);
      ghost var sent := SendAll(a.putter, a.pg, k1);
      ReachesOn(c, s, [Perform(slot)], s2, sent, View(k1.(sends := [])));
      steps := [Perform(slot)] + sent;
    }

    /** All actions of a selected rule, in order. */
    method Fire(actions: seq<Action>, ghost k: Lock, ghost bound: nat) returns (ghost steps: seq<Step>, ghost last: Loc)
      requires ConfigOk(c) && Inv(c, View(k)) && k.Held? && k.sends == [] && k.rest == actions
      requires Tractable(c, View(k), bound)
      modifies this
      ensures call == old(call) && mem == old(mem) && ReadyPorts(c, ready) == ReadyPorts(c, old(ready))
      ensures var k' := Held(k.holder, last, [], []);
              Reaches(c, old(View(k)), steps, View(k')) && Inv(c, View(k')) && Selections(steps) == 0
                && Tractable(c, View(k'), bound)
    {
      hide Inv, ConfigOk, Reaches, Selections, ReadyPorts, Tractable, InScope;
      ghost var s, k1 := View(k), k;
      steps := [];
      ReachesNone(c, s);
      var i := 0;
      assert actions[0..] == actions;
      while i < |actions|
        invariant 0 <= i <= |actions| && call == old(call) && mem == old(mem)
        invariant k1.Held? && k1 == Held(k.holder, k1.src, [], actions[i..])
        invariant Reaches(c, s, steps, View(k1)) && Inv(c, View(k1)) && Selections(steps) == 0
        invariant ReadyPorts(c, ready) == ReadyPorts(c, old(ready))
      {
        assert actions[i..][0] == actions[i] && actions[i..][1..] == actions[i + 1..];
        ghost var s1 := View(k1);
        TractableOn(c, s, bound, steps, s1);
        TractableHere(c, s1, bound);
        ghost var more := PerformAction(actions[i], k1);
        k1 := Held(k.holder, actions[i].putter, [], actions[i + 1..]);
        ReachesOn(c, s, steps, s1, more, View(k1));
        steps := steps + more;
        i := i + 1;
      }
      last := k1.src;
      assert actions[i..] == [];
      TractableOn(c, s, bound, steps, View(k1));
    }

    method IsEnabled(r: Rule) returns (b: bool)
      ensures forall k :: b <==> RuleEnabled(View(k), r)
    {
      b := (forall l <- r.guardReady :: l in ready && (l in mem <==> l in r.guardFull)) && r.guard(mem);
    }

    /** Fires rules, each time the first enabled one, until none is enabled. It ends whenever there is a bound on the
        firings that the holder can go through from here, and respects it. */
    method ExhaustRules(ghost me: Loc, ghost src: Loc, ghost bound: nat)
        returns (fired: nat, ghost steps: seq<Step>, ghost last: Loc)
      requires ConfigOk(c) && Inv(c, View(Held(me, src, [], []))) && Tractable(c, View(Held(me, src, [], [])), bound)
      modifies this
      ensures call == old(call)
      ensures Reaches(c, old(View(Held(me, src, [], []))), steps, View(Held(me, last, [], [])))
      ensures Inv(c, View(Held(me, last, [], []))) && Enabled(c, View(Held(me, last, [], [])), Release)
      ensures fired == Selections(steps) <= bound && FirstServed(c, old(View(Held(me, src, [], []))), steps)
    {
      hide Inv, ConfigOk, Reaches, Selections, RuleEnabled, Tractable, FirstServed;
      ghost var s := View(Held(me, src, [], []));
      fired, steps, last := 0, [], src;
      ReachesNone(c, s);
      var again := true;
      while again
        invariant call == old(call) && Reaches(c, s, steps, View(Held(me, last, [], [])))
        invariant Inv(c, View(Held(me, last, [], [])))
        invariant fired == Selections(steps) <= bound && Tractable(c, View(Held(me, last, [], [])), bound - fired)
        invariant !again ==> forall j :: 0 <= j < |c.rules| ==> !RuleEnabled(View(Held(me, last, [], [])), c.rules[j])
        decreases bound - fired, again
      {
        again := false;
        ghost var s1 := View(Held(me, last, [], []));
        var i := 0;
        while i < |c.rules| && !again
          invariant 0 <= i <= |c.rules| && View(Held(me, last, [], [])) == s1
          invariant forall j :: 0 <= j < i ==> !RuleEnabled(s1, c.rules[j])
          invariant again ==> i < |c.rules| && RuleEnabled(s1, c.rules[i])
          decreases |c.rules| - i, !again
        {
          again := IsEnabled(c.rules[i]);
          if !again {
            i := i + 1;
          }
        }
        if again {
          ghost var more: seq<Step>, src1: Loc;
          more, src1 := SelectAndFire(i, me, last, bound - fired);
          ReachesOn(c, s, steps, s1, more, View(Held(me, src1, [], [])));
          steps, last, fired := steps + more, src1, fired + 1;
        }
      }
      ReachesFirst(c, s, steps, View(Held(me, last, [], [])));
    }

    /** Assigns the rule's memory bits, takes away its readiness, and performs its actions. */
    method SelectAndFire(i: nat, ghost me: Loc, ghost src: Loc, ghost bound: nat)
        returns (ghost steps: seq<Step>, ghost last: Loc)
      requires ConfigOk(c) && Inv(c, View(Held(me, src, [], []))) && Enabled(c, View(Held(me, src, [], [])), Select(i))
      requires Tractable(c, View(Held(me, src, [], [])), bound)
      modifies this
      ensures call == old(call) && ReadyPorts(c, ready) == ReadyPorts(c, old(ready) - c.rules[i].guardReady)
      ensures Reaches(c, old(View(Held(me, src, [], []))), steps, View(Held(me, last, [], [])))
      ensures Inv(c, View(Held(me, last, [], []))) && Selections(steps) == 1
      ensures bound >= 1 && Tractable(c, View(Held(me, last, [], [])), bound - 1)
    {
      hide Inv, ConfigOk, Reaches, Selections, RuleEnabled, ReadyPorts, Tractable;
      var r := c.rules[i];
      ghost var s := View(Held(me, src, [], []));
      ReachesStep(c, s, Select(i));
      mem := mem - r.assignMask + r.assignVals;
      ready := ready - r.guardReady;
      ghost var k := Held(me, src, [], r.actions);
      assert View(k) == Do(c, s, Select(i));
      ghost var s1 := View(k);
      TractableOn(c, s, bound, [Select(i)], s1);
      ghost var more: seq<Step>;
      more, last := Fire(r.actions, k, bound - 1);
      ReachesOn(c, s, [Select(i)], s1, more, View(Held(me, last, [], [])));
      steps := [Select(i)] + more;
    }

    /** `id` becomes ready, if it was not, and the holder acts as the protocol: with the step that took the lock and the
        one that releases it, its whole critical section is a run. */
    method ReadySetCoordinate(id: Loc, ghost me: Loc, ghost s: State, ghost enter: Step, ghost bound: nat)
      returns (fired: nat, ghost steps: seq<Step>)
      requires ConfigOk(c) && Inv(c, s) && Enabled(c, s, enter) && !enter.Perform?
      requires Tractable(c, Do(c, s, enter), bound)
      requires Do(c, s, enter) == View(Held(me, 0, [], [])).(ready := ready + {id})
      modifies this
      ensures ValidRun(c, s, [enter] + steps + [Release]) && Run(c, s, [enter] + steps + [Release]) == View(Free)
      ensures AllFiring(steps) && Inv(c, View(Free)) && fired == Selections(steps) <= bound
    {
      hide Inv, ConfigOk, Selections, Enabled, Do, Reaches, Tractable;
      ready := ready + {id};
      ghost var s1 := View(Held(me, 0, [], []));
      StepInv(c, s, enter);
      ghost var last: Loc;
      fired, steps, last := ExhaustRules(me, 0, bound);
      ghost var s2 := View(Held(me, last, [], []));
      ReleaseStep(c, s2);
      CriticalSection(c, s, enter, steps, s2);
    }

    /** `put`: the pointer is set already; the lock has been taken. */
    method EnterPut(p: Loc, ghost bound: nat) returns (fired: nat, ghost steps: seq<Step>)
      requires ConfigOk(c) && Inv(c, View(Free)) && Enabled(c, View(Free), Step.EnterPut(p))
      requires Tractable(c, Do(c, View(Free), Step.EnterPut(p)), bound)
      modifies this
      ensures var run := [Step.EnterPut(p)] + steps + [Release];
              ValidRun(c, old(View(Free)), run) && Run(c, old(View(Free)), run) == View(Free)
      ensures AllFiring(steps) && Inv(c, View(Free)) && fired == Selections(steps) <= bound
    {
      hide Inv, ConfigOk, Selections, ValidRun, Run, AllFiring, Do, Tractable;
      ghost var s := View(Free);
      EnterPutIs(c, s, p);
      call := call[p := WithPhase(call[p], Waiting)];
      assert Do(c, s, Step.EnterPut(p)) == View(Held(p, 0, [], [])).(ready := ready + {p});
      fired, steps := ReadySetCoordinate(p, p, s, Step.EnterPut(p), bound);
    }

    /** `get` and `get_signal`. */
    method EnterGet(g: Loc, wants: bool, timed: bool, ghost bound: nat) returns (fired: nat, ghost steps: seq<Step>)
      requires ConfigOk(c) && Inv(c, View(Free)) && Enabled(c, View(Free), Step.EnterGet(g, wants, timed))
      requires Tractable(c, Do(c, View(Free), Step.EnterGet(g, wants, timed)), bound)
      modifies this
      ensures var run := [Step.EnterGet(g, wants, timed)] + steps + [Release];
              ValidRun(c, old(View(Free)), run) && Run(c, old(View(Free)), run) == View(Free)
      ensures AllFiring(steps) && Inv(c, View(Free)) && fired == Selections(steps) <= bound
    {
      hide Inv, ConfigOk, Selections, ValidRun, Run, AllFiring, Tractable;
      ghost var s := View(Free);
      call := call[g := Call.Get(wants, timed, None, Waiting)];
      assert Do(c, s, Step.EnterGet(g, wants, timed)) == View(Held(g, 0, [], [])).(ready := ready + {g});
      fired, steps := ReadySetCoordinate(g, g, s, Step.EnterGet(g, wants, timed), bound);
    }

    /** The last getter of a cell empties it and lets the protocol go on. */
    method FinalizeCell(g: Loc, ghost bound: nat) returns (fired: nat, ghost steps: seq<Step>)
      requires ConfigOk(c) && Inv(c, View(Free)) && Enabled(c, View(Free), Finalize(g))
      requires Tractable(c, Do(c, View(Free), Finalize(g)), bound)
      requires IsMemo(c, call[g].phase.src)
      modifies this
      ensures var run := [Finalize(g)] + steps + [Release];
              ValidRun(c, old(View(Free)), run) && Run(c, old(View(Free)), run) == View(Free)
      ensures AllFiring(steps) && Inv(c, View(Free)) && fired == Selections(steps) <= bound
    {
      hide Inv, ConfigOk, Selections, ValidRun, Run, AllFiring, Protocol.MakeEmpty, Do, Tractable;
      ghost var s := View(Free);
      var src := call[g].phase.src;
      FinalizeReady(c, s, g);
      call := call[g := WithPhase(call[g], Served)];
      ghost var s1 := View(Free);
      assert s1 == SetPhase(s, g, Served) && s1.ptr == s.ptr && s1.refs == s.refs && s1.store == s.store
        && s1.ready == s.ready;
      MakeEmpty(src);
      assert View(Free) == Protocol.MakeEmpty(s1, src);
      MakeEmptyBlind(s1, Held(g, 0, [], []), src);
      assert src in ready && ready + {src} == ready;
      assert Do(c, s, Finalize(g)) == View(Held(g, 0, [], [])).(ready := ready + {src});
      fired, steps := ReadySetCoordinate(src, g, s, Finalize(g), bound);
    }

    /** After a timeout: true if no rule has used the readiness, which is taken back. */
    method RevokeReadiness(l: Loc) returns (revoked: bool)
      requires Enabled(c, View(Free), Revoke(l))
      modifies this`ready, this`call
      ensures View(Free) == DoRevoke(old(View(Free)), l) && (revoked <==> l in old(ready))
    {
      revoked := l in ready;
      if revoked {
        ready := ready - {l};
        call := call - {l};
      } else {
        call := call[l := call[l].(phase := Late)];
      }
    }
  }

  lemma EnterPutIs(c: Config, s: State, p: Loc)
    requires Enabled(c, s, Step.EnterPut(p))
    ensures Do(c, s, Step.EnterPut(p))
      == s.(call := s.call[p := WithPhase(s.call[p], Waiting)], ready := s.ready + {p}, lock := Held(p, 0, [], []))
  {
  }

  lemma ReleaseStep(c: Config, s: State)
    requires ConfigOk(c) && Inv(c, s) && Enabled(c, s, Release)
    ensures Do(c, s, Release) == s.(lock := Free) && Inv(c, s.(lock := Free))
  {
    StepInv(c, s, Release);
  }

  /** The pointer and the count of a cell about to be finalized. */
  lemma FinalizeReady(c: Config, s: State, g: Loc)
    requires Inv(c, s) && Enabled(c, s, Finalize(g)) && IsMemo(c, s.call[g].phase.src)
    ensures var m := s.call[g].phase.src;
            && m in s.ptr && s.ptr[m].Slot? && s.ptr[m].at in s.refs && s.refs[s.ptr[m].at] >= 1
            && s.ptr[m].at in s.store && m !in s.ready
    ensures var m := s.call[g].phase.src;
            m in DoFinalize(c, s, g).ready
            && Do(c, s, Finalize(g)) == Protocol.MakeEmpty(SetPhase(s, g, Served), m).(lock := Held(g, 0, [], []))
  {
    hide Counts, LockOk, Takers, Busy, MakeEmpty, Holders, Locations;
    var m := s.call[g].phase.src;
    FinalizingBusy(c, s, g);
    BusyCell(c, s, m);
    FinalizedCell(c, s, g, DoFinalize(c, s, g));
  }

  /** What the second half needs of the first. */
  ghost predicate Deliverable(c: Config, s: State, a: Action) {
    && (IsMemo(c, a.putter) ==> SlotAt(s, a.putter).Some? && a.putter !in s.ready && Slots(s))
    && (!IsMemo(c, a.putter) && a.pg == [] ==> a.putter !in s.box)
  }

  lemma DeliverCell(s: State, m: Loc)
    requires Slots(s) && SlotAt(s, m).Some?
    ensures m in s.ptr && s.ptr[m].Slot? && s.ptr[m].at in s.refs && s.refs[s.ptr[m].at] >= 1 && s.ptr[m].at in s.store
  {
    hide Holders;
  }

  lemma CanDeliver(c: Config, s: State, a: Action, slot: Ptr)
    requires Inv(c, s) && Performing(c, s) && a == s.lock.rest[0] && slot !in s.store
    requires Clonable(c, s.lock.rest[0])
    ensures Deliverable(c, FillGetters(c, s, a, slot), a)
  {
    hide Inv, FillGetters, Slots;
    FillEffect(c, s, slot);
    PerformGood(c, s);
    PutterKind(c, s);
  }

  lemma PerformStep(c: Config, s: State, a: Action, slot: Ptr)
    requires Inv(c, s) && Performing(c, s) && a == s.lock.rest[0] && slot !in s.store
    requires Clonable(c, s.lock.rest[0])
    ensures Enabled(c, s, Perform(slot)) && Firing(Perform(slot))
    ensures var s' := Dispatch(c, FillGetters(c, s, a, slot), a);
            && Do(c, s, Perform(slot)) == s'.(lock := s.lock.(src := a.putter, sends := a.pg, rest := s.lock.rest[1..]))
            && s'.call == s.call && s'.mem == s.mem && ReadyPorts(c, s'.ready) == ReadyPorts(c, s.ready)
  {
    hide Inv, FillGetters, Dispatch, Deref;
    PerformEffect(c, s, slot);
    PerformGood(c, s);
    var s' := Dispatch(c, FillGetters(c, s, a, slot), a);
    assert Performed(c, s, slot) == Dispatched(s', a, s.lock);
    forall l ensures l in ReadyPorts(c, s'.ready) <==> l in ReadyPorts(c, s.ready) {
      assert (l in s'.ready <==> l in s.ready) || l in a.mg || (l == a.putter && IsMemo(c, l));
    }
  }

  lemma SendStep(c: Config, s: State)
    requires ConfigOk(c) && Inv(c, s) && s.lock.Held? && s.lock.sends != []
    ensures Enabled(c, s, SendNext) && Firing(SendNext)
    ensures Do(c, s, SendNext)
      == s.(box := s.box[s.lock.sends[0] := s.lock.src], lock := s.lock.(sends := s.lock.sends[1..]))
  {
    hide Inv, ConfigOk;
    ReachesStep(c, s, SendNext);
  }

  /** What the code's assertions check holds, and what the first half of an action must come to. */
  lemma TransferReady(c: Config, s: State, a: Action, slot: Ptr)
    requires Inv(c, s) && Performing(c, s) && a == s.lock.rest[0] && slot !in s.store
    requires Clonable(c, s.lock.rest[0])
    ensures forall i, j :: 0 <= i < j < |a.mg| ==> a.mg[i] != a.mg[j]
    ensures forall m <- a.mg :: m !in s.ptr
    ensures var s1, x := FillGetters(c, s, a, slot), Target(c, s, a, slot);
            if IsMemo(c, a.putter) then
              && a.putter in s.ptr && s.ptr[a.putter].Slot? && x == s.ptr[a.putter].at && x in s.refs
              && s1 == s.(ptr := PointAll(s.ptr, a.mg, x), ready := s.ready + SetOf(a.mg),
                    refs := s.refs[x := s.refs[x] + |a.mg|])
            else if a.mg == [] then s1 == s
            else
              && a.putter in s.call && s.call[a.putter].Put?
              && s1 == s.(ptr := PointAll(s.ptr, a.mg, slot), ready := s.ready + SetOf(a.mg),
                          store := s.store[slot := s.call[a.putter].datum], refs := s.refs[slot := |a.mg|])
  {
    hide Locations, Counts, Takers, LockOk, Holders, ActionsOk, FillGetters, PointAll, Busy;
    FillShape(c, s, slot);
    PerformGood(c, s);
    if !IsMemo(c, a.putter) {
      PutterKind(c, s);
      PutterStack(c, s, a.putter);
    }
  }

  lemma PutterStack(c: Config, s: State, p: Loc)
    requires Inv(c, s) && IsPoPu(c, p) && Deref(s, p).Some?
    ensures p in s.call && s.call[p].Put? && Deref(s, p) == Some(s.call[p].datum)
  {
    hide Counts, Takers, LockOk, Slots, Locations, Busy;
    GoodAt(c, s, p);
  }
}
