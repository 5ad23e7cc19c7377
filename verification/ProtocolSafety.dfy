/** Every step of the protocol keeps the invariant, so no assertion of the source can fail in any run. */
module ProtocolSafety {
  import opened Wrappers
  import opened Protocol
  import opened ProtocolInvariant
  import opened ProtocolFiring

  // ---------------------------------------------------------------- performing an action

  /** Emptying and sending do not depend on the lock. */
  lemma MakeEmptyBlind(s: State, k: Lock, m: Loc)
    ensures MakeEmpty(s.(lock := k), m) == MakeEmpty(s, m).(lock := k)
  {
    if CannotEmpty(s, m) {
    } else if s.refs[s.ptr[m].at] == 1 {
    } else {
    }
  }

  lemma SendBlind(s: State, k: Lock, l: Loc, msg: int)
    ensures Send(s.(lock := k), l, msg) == Send(s, l, msg).(lock := k)
  {
    if l in s.box {
    } else {
    }
  }

  lemma SameDispatched(s: State, a: Action, k: Lock)
    requires k.Held? && k.rest != [] && k.rest[0] == a
    ensures Dispatched(s.(lock := RumpLock(k)), Rump(a), RumpLock(k)) == Dispatched(s, a, k)
  {
    assert RumpLock(k).rest[1..] == k.rest[1..];
  }

  lemma PerformInv(c: Config, s: State, slot: Ptr)
    requires Inv(c, s) && Performing(c, s) && slot !in s.store && InScope(c, s, s.lock.rest[0])
    ensures Inv(c,
      Dispatched(Dispatch(c, FillGetters(c, s, s.lock.rest[0], slot), s.lock.rest[0]), s.lock.rest[0], s.lock))
  {
    hide Inv, Locations, Counts, Slots, Takers, LockOk, ActionsOk, ActionOk, FillGetters, MakeEmpty, Send, DisableMove,
      Dispatched, RumpLock;
    var a := s.lock.rest[0];
    var s1 := FillGetters(c, s, a, slot);
    var k1 := RumpLock(s.lock);
    var s2 := s1.(lock := k1);
    FillInv(c, s, slot);
    RumpPerforming(c, s, s2);
    PutterKind(c, s);
    FilledCalls(c, s, slot);
    if a.pg != [] {
      MoveEnabled(c, s, slot);
      var f := Flags(false, !DisableMove(c, s1, a.putter));
      DispatchGettersInv(c, s2, f);
      SameDispatched(Armed(s1, a, f), a, s.lock);
    } else if IsMemo(c, a.putter) {
      DispatchMemoInv(c, s2);
      MakeEmptyBlind(s1, k1, a.putter);
      SameDispatched(MakeEmpty(s1, a.putter), a, s.lock);
    } else {
      var msg := if a.mg == [] then 0 else 1;
      DispatchPortInv(c, s2, msg);
      SendBlind(s1, k1, a.putter, msg);
      SameDispatched(Send(s1, a.putter, msg), a, s.lock);
    }
  }

  lemma ScopeClonable(c: Config, s: State, a: Action)
    requires InScope(c, s, a)
    ensures TakersOk(c, s, a) && Clonable(c, a)
  {
  }

  lemma RumpPerforming(c: Config, s: State, s2: State)
    requires Performing(c, s) && s2.lock == RumpLock(s.lock)
    ensures Performing(c, s2) && s2.lock.rest[0] == Rump(s.lock.rest[0])
    ensures s2.call == s.call && TakersOk(c, s, s.lock.rest[0]) ==> TakersOk(c, s2, s2.lock.rest[0])
  {
  }

  lemma FilledCalls(c: Config, s: State, slot: Ptr)
    requires Inv(c, s) && Performing(c, s) && slot !in s.store
    requires Clonable(c, s.lock.rest[0])
    ensures FillGetters(c, s, s.lock.rest[0], slot).call == s.call
  {
    hide Locations, Counts, Slots, Takers, LockOk, ActionsOk, FillGetters;
    FillShape(c, s, slot);
  }

  lemma PutterKind(c: Config, s: State)
    requires Inv(c, s) && Performing(c, s)
    ensures IsPutter(c, s.lock.rest[0].putter)
  {
    hide Locations, Counts, Slots, Takers;
  }

  /** A port getter of a datum that is not `Copy` finds the move flag disabled. */
  lemma MoveEnabled(c: Config, s: State, slot: Ptr)
    requires Inv(c, s) && Performing(c, s) && slot !in s.store && InScope(c, s, s.lock.rest[0])
    requires s.lock.rest[0].pg != []
    ensures !c.isCopy ==> !DisableMove(c, FillGetters(c, s, s.lock.rest[0], slot), s.lock.rest[0].putter)
  {
    hide Locations, Counts, Slots, Takers, LockOk, ActionsOk, FillGetters, TakersOk;
    FillShape(c, s, slot);
    if !c.isCopy && IsMemo(c, s.lock.rest[0].putter) {
      assert PointAll(s.ptr, [], Target(c, s, s.lock.rest[0], slot)) == s.ptr;
    }
  }

  lemma PutterUnready(c: Config, s: State, slot: Ptr)
    requires Inv(c, s) && Performing(c, s) && slot !in s.store && IsMemo(c, s.lock.rest[0].putter)
    ensures var a := s.lock.rest[0]; var s1 := FillGetters(c, s, a, slot);
            a.putter !in s1.ready && SlotAt(s1, a.putter) == SlotAt(s, a.putter) && SlotAt(s, a.putter).Some?
  {
    hide Locations, Counts, Slots, Takers, LockOk, ActionsOk, FillGetters;
    FillShape(c, s, slot);
    PerformGood(c, s);
  }

  // ---------------------------------------------------------------- acquiring data

  lemma EngagedDisabled(c: Config, s: State, g: Loc)
    requires Takers(c, s) && Engaged(s, g).Some? && !c.isCopy
    ensures Engaged(s, g).value in s.flags && s.flags[Engaged(s, g).value].disabled
  {
  }

  /** What the invariant says of a getter inside `acquire_data`. */
  lemma WorkingGood(c: Config, s: State, g: Loc)
    requires Inv(c, s) && g in s.call && s.call[g].Get? && Working(s, g)
    ensures IsPoGe(c, g) && GetOk(c, s.call[g]) && Engaged(s, g) == Some(s.call[g].phase.src)
    ensures BeforeLeave(s.call[g].phase) || s.call[g].phase.Reading? || s.call[g].phase.Moving?
      || s.call[g].phase.AskingLast?
    ensures BeforeLeave(s.call[g].phase) ==>
              && s.call[g].phase.src in s.count && s.count[s.call[g].phase.src] >= 1
              && (!c.isCopy && Wants(s, g) ==> s.count[s.call[g].phase.src] == 1)
    ensures !c.isCopy ==> s.call[g].phase.src in s.flags && s.flags[s.call[g].phase.src].disabled
  {
    hide Locations, Counts, Slots, Takers, LockOk, Busy, Out, Closers;
    GoodAt(c, s, g);
    if BeforeLeave(s.call[g].phase) {
      OneOut(c, s, g);
    }
    if !c.isCopy {
      EngagedDisabled(c, s, g);
    }
  }

  /** Nothing that the lock protects has changed, and no dropbox. */
  predicate LockFree(s: State, s': State) {
    && s'.lock == s.lock && s'.ready == s.ready && s'.mem == s.mem && s'.refs == s.refs && s'.store == s.store
    && s'.box == s.box && s'.call.Keys == s.call.Keys
  }

  predicate Getting(s: State, g: Loc) { g in s.call && s.call[g].Get? }

  lemma MarkInv(c: Config, s: State, g: Loc)
    requires Inv(c, s) && Getting(s, g) && s.call[g].phase.Mark?
    ensures Inv(c, DoWork(c, s, g)) && LockFree(s, DoWork(c, s, g)) && SameBusy(s, DoWork(c, s, g))
  {
    hide Inv, Engaged;
    WorkingGood(c, s, g);
    var src, s' := s.call[g].phase.src, DoWork(c, s, g);
    FlagStepInv(c, s, g, s', Copying(src));
  }

  /** The two phases that copy the datum out of a putter that the getter then leaves or finalizes. */
  lemma CopyingIs(c: Config, s: State, g: Loc)
    requires Getting(s, g) && (s.call[g].phase.Copying? || s.call[g].phase.Moving?)
    ensures var src := s.call[g].phase.src;
            DoWork(c, s, g) == CopyOut(c, s, g, src, true, if s.call[g].phase.Copying? then Leaving(src)
              else Finalizing(src, true))
  {
    hide CopyOut;
  }

  lemma CopyOutLockFree(c: Config, s: State, g: Loc, src: Loc, next: Phase)
    requires Getting(s, g)
    ensures LockFree(s, CopyOut(c, s, g, src, true, next))
  {
    hide Deref;
    if Deref(s, src).None? {
    } else if IsPoPu(c, src) {
    } else {
    }
  }

  lemma CopyingInv(c: Config, s: State, g: Loc)
    requires Inv(c, s) && Getting(s, g) && s.call[g].phase.Copying?
    ensures Inv(c, DoWork(c, s, g)) && LockFree(s, DoWork(c, s, g)) && SameBusy(s, DoWork(c, s, g))
  {
    hide Inv, Engaged, DoWork, CopyOut, LockFree;
    WorkingGood(c, s, g);
    CopyingIs(c, s, g);
    var src := s.call[g].phase.src;
    CopyOutInv(c, s, g, src, Leaving(src));
    CopyOutLockFree(c, s, g, src, Leaving(src));
  }

  lemma LeavingInv(c: Config, s: State, g: Loc)
    requires Inv(c, s) && Getting(s, g) && s.call[g].phase.Leaving?
    ensures Inv(c, DoWork(c, s, g)) && LockFree(s, DoWork(c, s, g)) && SameBusy(s, DoWork(c, s, g))
  {
    hide Inv, Engaged;
    WorkingGood(c, s, g);
    var src, s' := s.call[g].phase.src, DoWork(c, s, g);
    LeaveInv(c, s, g, s', if s.count[src] == 1 then Reading(src) else Served);
  }

  lemma ReadingInv(c: Config, s: State, g: Loc)
    requires Inv(c, s) && Getting(s, g) && s.call[g].phase.Reading?
    ensures Inv(c, DoWork(c, s, g)) && LockFree(s, DoWork(c, s, g)) && SameBusy(s, DoWork(c, s, g))
  {
    hide Inv, Engaged;
    WorkingGood(c, s, g);
    var src, s' := s.call[g].phase.src, DoWork(c, s, g);
    FlagStepInv(c, s, g, s', s'.call[g].phase);
  }

  lemma AskingInv(c: Config, s: State, g: Loc)
    requires Inv(c, s) && Getting(s, g) && s.call[g].phase.Asking?
    ensures Inv(c, DoWork(c, s, g)) && LockFree(s, DoWork(c, s, g)) && SameBusy(s, DoWork(c, s, g))
  {
    hide Inv, Engaged;
    WorkingGood(c, s, g);
    var src, s' := s.call[g].phase.src, DoWork(c, s, g);
    FlagStepInv(c, s, g, s', WonLeaving(src));
  }

  lemma WonLeavingInv(c: Config, s: State, g: Loc)
    requires Inv(c, s) && Getting(s, g) && s.call[g].phase.WonLeaving?
    ensures Inv(c, DoWork(c, s, g)) && LockFree(s, DoWork(c, s, g)) && SameBusy(s, DoWork(c, s, g))
  {
    hide Inv, Engaged;
    WorkingGood(c, s, g);
    var src, s' := s.call[g].phase.src, DoWork(c, s, g);
    LeaveInv(c, s, g, s', Moving(src));
  }

  lemma MovingInv(c: Config, s: State, g: Loc)
    requires Inv(c, s) && Getting(s, g) && s.call[g].phase.Moving?
    ensures Inv(c, DoWork(c, s, g)) && LockFree(s, DoWork(c, s, g)) && SameBusy(s, DoWork(c, s, g))
  {
    hide Inv, Engaged, DoWork, CopyOut, LockFree;
    WorkingGood(c, s, g);
    CopyingIs(c, s, g);
    var src := s.call[g].phase.src;
    CopyOutInv(c, s, g, src, Finalizing(src, true));
    CopyOutLockFree(c, s, g, src, Finalizing(src, true));
  }

  lemma SignalLeavingInv(c: Config, s: State, g: Loc)
    requires Inv(c, s) && Getting(s, g) && s.call[g].phase.SignalLeaving?
    ensures Inv(c, DoWork(c, s, g)) && LockFree(s, DoWork(c, s, g)) && SameBusy(s, DoWork(c, s, g))
  {
    hide Inv, Engaged;
    WorkingGood(c, s, g);
    var src, s' := s.call[g].phase.src, DoWork(c, s, g);
    LeaveInv(c, s, g, s', if s.count[src] == 1 then AskingLast(src) else Served);
  }

  lemma AskingLastInv(c: Config, s: State, g: Loc)
    requires Inv(c, s) && Getting(s, g) && s.call[g].phase.AskingLast?
    ensures Inv(c, DoWork(c, s, g)) && LockFree(s, DoWork(c, s, g)) && SameBusy(s, DoWork(c, s, g))
  {
    hide Inv, Engaged;
    WorkingGood(c, s, g);
    var src, s' := s.call[g].phase.src, DoWork(c, s, g);
    FlagStepInv(c, s, g, s', Finalizing(src, false));
  }

  lemma WorkInv(c: Config, s: State, g: Loc)
    requires Inv(c, s) && Getting(s, g) && Working(s, g)
    ensures Inv(c, DoWork(c, s, g)) && LockFree(s, DoWork(c, s, g)) && SameBusy(s, DoWork(c, s, g))
  {
    hide Inv, DoWork, Engaged;
    WorkingGood(c, s, g);
    match s.call[g].phase
    case Mark(_) => MarkInv(c, s, g);
    case Copying(_) => CopyingInv(c, s, g);
    case Leaving(_) => LeavingInv(c, s, g);
    case Reading(_) => ReadingInv(c, s, g);
    case Asking(_) => AskingInv(c, s, g);
    case WonLeaving(_) => WonLeavingInv(c, s, g);
    case Moving(_) => MovingInv(c, s, g);
    case SignalLeaving(_) => SignalLeavingInv(c, s, g);
    case AskingLast(_) => AskingLastInv(c, s, g);
  }

  // ---------------------------------------------------------------- every step, every run

  lemma FinalizeInv(c: Config, s: State, g: Loc)
    requires Inv(c, s) && Enabled(c, s, Finalize(g))
    ensures Inv(c, DoFinalize(c, s, g))
  {
    hide Inv, MakeEmpty, Engaged;
    FinalizeSource(c, s, g);
    if IsMemo(c, s.call[g].phase.src) {
      FinalizeMemoInv(c, s, g);
    } else {
      FinalizePortInv(c, s, g);
    }
  }

  lemma FinalizeSource(c: Config, s: State, g: Loc)
    requires Inv(c, s) && Enabled(c, s, Finalize(g))
    ensures IsPutter(c, s.call[g].phase.src)
  {
    hide Locations, Counts, LockOk, Takers, MakeEmpty;
    PledgedToPutter(c, s, g);
  }

  lemma RuleOkAt(c: Config, i: nat)
    requires ConfigOk(c) && i < |c.rules|
    ensures RuleOk(c, c.rules[i])
  {
  }

  /** Every step keeps the invariant. */
  lemma StepInv(c: Config, s: State, step: Step)
    requires ConfigOk(c) && Inv(c, s) && Enabled(c, s, step) && Scoped(c, s, step)
    ensures Inv(c, Do(c, s, step))
  {
    hide Inv, ConfigOk, RuleOk, DoWork, DoRecv, DoFinalize, DoRevoke, FillGetters, Dispatch, Dispatched, Working,
      RuleEnabled, InScope;
    match step
    case BeginPut(p, v, timed) => BeginPutInv(c, s, p, v, timed);
    case EnterPut(p) => EnterPutInv(c, s, p);
    case EnterGet(g, wants, timed) => EnterGetInv(c, s, g, wants, timed);
    case Select(i) =>
      RuleOkAt(c, i);
      SelectInv(c, s, c.rules[i]);
    case Perform(slot) => PerformInv(c, s, slot);
    case SendNext => SendNextInv(c, s);
    case Release => ReleaseInv(c, s);
    case TimeOut(l) => TimeOutInv(c, s, l);
    case Revoke(l) => RevokeInv(c, s, l);
    case Recv(l) => RecvInv(c, s, l);
    case Work(g) => WorkInv(c, s, g);
    case Finalize(g) => FinalizeInv(c, s, g);
    case Return(l) => ReturnInv(c, s, l);
  }

  /** No run in scope reaches a failed assertion, a full dropbox, a missing reference count, or the dereference of a
      null, freed or dangling pointer. */
  lemma {:induction false} RunSafe(c: Config, s: State, steps: seq<Step>)
    requires ConfigOk(c) && Inv(c, s) && ValidRun(c, s, steps) && ScopedRun(c, s, steps)
    ensures Inv(c, Run(c, s, steps)) && !Run(c, s, steps).fault
    decreases |steps|
  {
    hide Inv, Enabled, Do, Scoped, ConfigOk;
    if steps != [] {
      StepInv(c, s, steps[0]);
      RunSafe(c, Do(c, s, steps[0]), steps[1..]);
    } else {
      NoFault(c, s);
    }
  }

  lemma NoFault(c: Config, s: State)
    requires Inv(c, s)
    ensures !s.fault
  {
  }
}
