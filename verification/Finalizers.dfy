/** Every firing with port getters is finalized exactly once, after all of them have left. */
module Finalizers {
  import opened Wrappers
  import opened Protocol
  import opened ProtocolInvariant
  import opened ProtocolFiring
  import opened ProtocolSafety
  import opened Refinement
  import opened RefinementFiring

  /** The step sets the countdown of `p` for the port getters of an action. */
  predicate Arms(s: State, step: Step, p: Loc) {
    step.Perform? && s.lock.Held? && s.lock.rest != [] && s.lock.rest[0].pg != [] && s.lock.rest[0].putter == p
  }

  /** The step finalizes `p`. */
  predicate Finalizes(s: State, step: Step, p: Loc) {
    step.Finalize? && step.g in s.call && s.call[step.g].phase.Finalizing? && s.call[step.g].phase.src == p
  }

  /** An idle putter becomes busy by being fired, a busy one idle by being finalized, and in no other way. */
  lemma StepBusy(c: Config, s: State, step: Step, p: Loc)
    requires ConfigOk(c) && Inv(c, s) && Enabled(c, s, step)
    ensures Arms(s, step, p) ==> !Busy(s, p) && Busy(Do(c, s, step), p)
    ensures Finalizes(s, step, p) ==> Busy(s, p) && !Busy(Do(c, s, step), p)
    ensures !Arms(s, step, p) && !Finalizes(s, step, p) ==> Busy(Do(c, s, step), p) == Busy(s, p)
  {
    hide Inv, Busy, Do, ConfigOk;
    match step
    case Perform(slot) => PerformBusy(c, s, slot, p);
    case Finalize(g) => FinalizeBusy(c, s, g, p);
    case Select(i) => SelectBusy(c, s, i);
    case _ => OtherBusy(c, s, step);
  }

  lemma PerformBusy(c: Config, s: State, slot: Ptr, p: Loc)
    requires Inv(c, s) && Enabled(c, s, Perform(slot))
    ensures Arms(s, Perform(slot), p) ==> !Busy(s, p) && Busy(Do(c, s, Perform(slot)), p)
    ensures !Arms(s, Perform(slot), p) ==> Busy(Do(c, s, Perform(slot)), p) == Busy(s, p)
  {
    hide Inv, Busy, Engaged, Dispatched, Dispatch, FillGetters;
    PerformEngaged(c, s, slot);
    PerformGood(c, s);
    var act := s.lock.rest[0];
    var s' := Do(c, s, Perform(slot));
    BusyIsEngaged(s, p);
    BusyIsEngaged(s', p);
    assert act.pg != [] ==> act.pg[0] in act.pg && Engaged(s', act.pg[0]) == Some(act.putter);
    assert forall k :: k !in act.pg ==> Engaged(s', k) == Engaged(s, k);
    assert forall k :: k in act.pg ==> Engaged(s, k) == None && Engaged(s', k) == Some(act.putter);
  }

  lemma BusyIsEngaged(s: State, p: Loc)
    ensures Busy(s, p) <==> exists g :: Engaged(s, g) == Some(p)
  {
    EngagedBusy(s);
    if Busy(s, p) {
      var g :| g in Out(s, p) || g in Closers(s, p);
      NotBoth(s, g);
      assert g in Out(s, p) ==> Pledge(s, g) == Some(p);
      assert g in Closers(s, p) ==> Closing(s, g) == Some(p);
      assert Engaged(s, g) == Some(p);
    }
  }

  lemma NotBoth(s: State, g: Loc)
    ensures Pledge(s, g) == None || Closing(s, g) == None
  {
  }

  lemma FinalizeBusy(c: Config, s: State, g: Loc, p: Loc)
    requires Inv(c, s) && Enabled(c, s, Finalize(g))
    ensures Finalizes(s, Finalize(g), p) ==> Busy(s, p) && !Busy(Do(c, s, Finalize(g)), p)
    ensures !Finalizes(s, Finalize(g), p) ==> Busy(Do(c, s, Finalize(g)), p) == Busy(s, p)
  {
    hide Locations, LockOk, Slots, Takers, MakeEmpty, Busy, Out, Closers, Deref;
    var src, s' := s.call[g].phase.src, Do(c, s, Finalize(g));
    FinalizeSource(c, s, g);
    if IsMemo(c, src) {
      FinalizedCell(c, s, g, s');
      CallKinds(c, s, src);
    } else {
      FinalizedShape(c, s, g);
    }
    CloseSets(c, s, g, s');
  }

  lemma SelectBusy(c: Config, s: State, i: nat)
    requires ConfigOk(c) && Inv(c, s) && Enabled(c, s, Select(i))
    ensures SameBusy(s, Do(c, s, Select(i)))
  {
    hide Inv, RuleOk, RuleEnabled, DoSelect, SameBusy, ConfigOk;
    RuleOkAt(c, i);
    SelectInv(c, s, c.rules[i]);
  }

  lemma OtherBusy(c: Config, s: State, step: Step)
    requires Inv(c, s) && Enabled(c, s, step) && !step.Perform? && !step.Finalize? && !step.Select?
    ensures SameBusy(s, Do(c, s, step))
  {
    hide Inv, SameBusy, DoWork, DoRecv, DoFinalize, DoRevoke, FillGetters, Dispatch, Dispatched, Working, RuleEnabled;
    match step
    case BeginPut(p, v, timed) => BeginPutInv(c, s, p, v, timed);
    case EnterPut(p) => EnterPutInv(c, s, p);
    case EnterGet(g, wants, timed) => EnterGetInv(c, s, g, wants, timed);
    case SendNext => SendNextInv(c, s);
    case Release => ReleaseInv(c, s);
    case TimeOut(l) => TimeOutInv(c, s, l);
    case Revoke(l) => RevokeInv(c, s, l);
    case Recv(l) => RecvInv(c, s, l);
    case Work(g) => WorkInv(c, s, g);
    case Return(l) => ReturnInv(c, s, l);
  }

  // ---------------------------------------------------------------- over whole runs

  function Firings(c: Config, s: State, steps: seq<Step>, p: Loc): nat
    requires ValidRun(c, s, steps)
    decreases |steps|
  {
    if steps == [] then 0
    else (if Arms(s, steps[0], p) then 1 else 0) + Firings(c, Do(c, s, steps[0]), steps[1..], p)
  }

  function Finals(c: Config, s: State, steps: seq<Step>, p: Loc): nat
    requires ValidRun(c, s, steps)
    decreases |steps|
  {
    if steps == [] then 0
    else (if Finalizes(s, steps[0], p) then 1 else 0) + Finals(c, Do(c, s, steps[0]), steps[1..], p)
  }

  /** In every run, firings and finalizers of a putter alternate: each firing is finalized exactly once, and the
      next one waits for it. */
  lemma {:induction false} ExactlyOnce(c: Config, s: State, steps: seq<Step>, p: Loc)
    requires ConfigOk(c) && Inv(c, s) && ValidRun(c, s, steps) && ScopedRun(c, s, steps)
    ensures (if Busy(s, p) then 1 else 0) + Firings(c, s, steps, p) == Finals(c, s, steps, p)
      + (if Busy(Run(c, s, steps), p) then 1 else 0)
    decreases |steps|
  {
    hide Inv, Busy, Enabled, Do, Arms, Finalizes, ConfigOk;
    if steps != [] {
      StepBusy(c, s, steps[0], p);
      StepInv(c, s, steps[0]);
      ExactlyOnce(c, Do(c, s, steps[0]), steps[1..], p);
      OneOrOther(s, steps[0], p);
    }
  }

  lemma OneOrOther(s: State, step: Step, p: Loc)
    ensures !(Arms(s, step, p) && Finalizes(s, step, p))
  {
  }
}
