/** Protocols all of whose runs are in scope: of a port's `Copy` datum at most one getter ever asks for data, and an
    action that is not `Copy` has one getter. */
module StaticScope {
  import opened Wrappers
  import opened Protocol
  import opened ProtocolInvariant
  import opened ProtocolFiring
  import opened ProtocolSafety
  import opened StepEffects
  import opened Runs

  /** The getters in `quiet` only ever call `get_signal`. */
  predicate ActionTame(c: Config, quiet: set<Loc>, a: Action) {
    if c.isCopy then IsPoPu(c, a.putter) ==> forall g, h :: g in a.pg && h in a.pg && g !in quiet && h !in quiet ==>
      g == h
    else |a.mg| + |a.pg| <= 1
  }

  predicate TameRules(c: Config, quiet: set<Loc>) {
    forall i, k :: 0 <= i < |c.rules| && 0 <= k < |c.rules[i].actions| ==> ActionTame(c, quiet, c.rules[i].actions[k])
  }

  predicate TameRest(c: Config, quiet: set<Loc>, k: Lock) {
    forall i :: 0 <= i < |Rest(k)| ==> ActionTame(c, quiet, Rest(k)[i])
  }

  ghost predicate Quiet(quiet: set<Loc>, s: State) { forall g <- quiet :: !Wants(s, g) }

  predicate Respects(quiet: set<Loc>, step: Step) { step.EnterGet? && step.wants ==> step.g !in quiet }

  predicate AllRespect(quiet: set<Loc>, steps: seq<Step>) { forall i :: 0 <= i < |steps| ==> Respects(quiet, steps[i]) }

  /** A datum that is not `Copy` is never shared between cells. */
  predicate Unshared(c: Config, s: State) { !c.isCopy ==> forall x <- s.refs :: s.refs[x] == 1 }

  ghost predicate Tame(c: Config, quiet: set<Loc>, s: State) {
    Inv(c, s) && Unshared(c, s) && TameRest(c, quiet, s.lock) && Quiet(quiet, s)
  }

  /** About to perform an action that takes at most one getter at a time. */
  ghost predicate TamePerforming(c: Config, s: State, slot: Ptr) {
    && Inv(c, s) && Unshared(c, s) && Performing(c, s) && slot !in s.store && Clonable(c, s.lock.rest[0])
    && (!c.isCopy ==> |s.lock.rest[0].mg| + |s.lock.rest[0].pg| <= 1)
  }

  lemma TameInScope(c: Config, quiet: set<Loc>, s: State)
    requires ConfigOk(c) && Tame(c, quiet, s) && Performing(c, s)
    ensures InScope(c, s, s.lock.rest[0])
  {
    hide Locations, Counts, Slots, Takers, LockOk;
    PerformGood(c, s);
    assert Rest(s.lock)[0] == s.lock.rest[0];
  }

  lemma TameScoped(c: Config, quiet: set<Loc>, s: State, step: Step)
    requires ConfigOk(c) && Tame(c, quiet, s) && Enabled(c, s, step)
    ensures Scoped(c, s, step)
  {
    hide Tame, InScope, ConfigOk;
    if step.Perform? {
      TameInScope(c, quiet, s);
    }
  }

  lemma PerformUnshared(c: Config, s: State, slot: Ptr)
    requires TamePerforming(c, s, slot)
    ensures Unshared(c,
      Dispatched(Dispatch(c, FillGetters(c, s, s.lock.rest[0], slot), s.lock.rest[0]), s.lock.rest[0], s.lock))
  {
    hide Inv, FillGetters, MakeEmpty;
    var a := s.lock.rest[0];
    if !c.isCopy {
      FilledRefs(c, s, slot);
      if a.pg == [] && IsMemo(c, a.putter) {
        EmptiedRefs(c, s, slot);
      }
    }
  }

  lemma FilledRefs(c: Config, s: State, slot: Ptr)
    requires TamePerforming(c, s, slot) && !c.isCopy
    ensures var a := s.lock.rest[0]; var s1 := FillGetters(c, s, a, slot);
            && (a.pg == [] || a.mg == [])
            && forall x <- s1.refs ::
                  s1.refs[x] == if IsMemo(c, a.putter) && a.mg != [] && SlotAt(s, a.putter) == Some(x) then 2 else 1
  {
    hide Locations, Counts, Slots, Takers, LockOk, ActionsOk, FillGetters, PointAll;
    FillShape(c, s, slot);
    PerformGood(c, s);
    UnsharedFresh(c, s, slot);
  }

  lemma UnsharedFresh(c: Config, s: State, slot: Ptr)
    requires Slots(s) && slot !in s.store
    ensures slot !in s.refs
  {
  }

  lemma EmptiedRefs(c: Config, s: State, slot: Ptr)
    requires TamePerforming(c, s, slot) && !c.isCopy
    requires s.lock.rest[0].pg == [] && IsMemo(c, s.lock.rest[0].putter)
    ensures var a := s.lock.rest[0]; var s2 := MakeEmpty(FillGetters(c, s, a, slot), a.putter);
            forall x <- s2.refs :: s2.refs[x] == 1
  {
    hide Locations, Counts, Slots, Takers, LockOk, ActionsOk, FillGetters, MakeEmpty;
    var a := s.lock.rest[0];
    FillShape(c, s, slot);
    FilledRefs(c, s, slot);
    PerformGood(c, s);
    FillSlotsInv(c, s, slot);
    PutterUnready(c, s, slot);
    MakeEmptyShape(FillGetters(c, s, a, slot), a.putter);
  }

  lemma UnsharedSame(c: Config, s: State, s': State)
    requires Unshared(c, s) && s'.refs == s.refs
    ensures Unshared(c, s')
  {
  }

  /** Steps outside firings and finalizers leave the reference counts alone, and call nobody to other data. */
  lemma SameRefs(c: Config, s: State, step: Step)
    requires Enabled(c, s, step) && !step.Perform? && !step.Finalize?
    ensures Do(c, s, step).refs == s.refs
  {
    if Plain(step) {
      PlainEffect(c, s, step) by {
        hide Do, Enabled;
      }
    } else {
      BusyRefs(c, s, step);
    }
  }

  lemma BusyRefs(c: Config, s: State, step: Step)
    requires Enabled(c, s, step) && !Plain(step) && !step.Perform? && !step.Finalize?
    ensures Do(c, s, step).refs == s.refs
  {
    hide DoWork, DoRecv, DoFinalize, DoRevoke, FillGetters, Dispatch, Dispatched, Working, RuleEnabled, Send, DoSelect,
      RecvPhase, SourceOnly;
    match step
    case Select(i) => SelectEffect(s, c.rules[i]);
    case SendNext => SendLeaves(s, s.lock.sends[0], s.lock.src);
    case Revoke(l) => RevokeEffect(s, l);
    case Recv(l) => RecvEffect(c, s, l);
    case Work(g) => WorkProceeds(c, s, g);
  }

  lemma EmptiedUnshared(c: Config, s: State, m: Loc)
    requires Unshared(c, s)
    ensures Unshared(c, MakeEmpty(s, m))
  {
    if CannotEmpty(s, m) {
    } else if s.refs[s.ptr[m].at] == 1 {
    } else {
    }
  }

  lemma FinalizedUnshared(c: Config, s: State, g: Loc)
    requires Unshared(c, s) && g in s.call && s.call[g].phase.Finalizing?
    ensures Unshared(c, DoFinalize(c, s, g))
  {
    hide MakeEmpty;
    if IsMemo(c, s.call[g].phase.src) {
      EmptiedUnshared(c, SetPhase(s, g, Served), s.call[g].phase.src);
    } else {
      FinalizePortEffect(c, s, g);
    }
  }

  lemma StepUnshared(c: Config, quiet: set<Loc>, s: State, step: Step)
    requires ConfigOk(c) && Tame(c, quiet, s) && Enabled(c, s, step)
    ensures Unshared(c, Do(c, s, step))
  {
    hide Inv, Unshared, DoFinalize, FillGetters, Dispatch, Dispatched, TamePerforming, ConfigOk;
    match step
    case Perform(slot) =>
      TamelyPerforms(c, quiet, s, slot);
      PerformUnshared(c, s, slot);
    case Finalize(g) => FinalizedUnshared(c, s, g);
    case _ =>
      SameRefs(c, s, step);
      UnsharedSame(c, s, Do(c, s, step));
  }

  lemma TamelyPerforms(c: Config, quiet: set<Loc>, s: State, slot: Ptr)
    requires ConfigOk(c) && Tame(c, quiet, s) && Enabled(c, s, Perform(slot))
    ensures TamePerforming(c, s, slot)
  {
    hide Inv, Unshared;
    assert Rest(s.lock)[0] == s.lock.rest[0];
  }

  /** Nobody wants data who has not asked for it. */
  lemma SameWants(c: Config, s: State, step: Step, g: Loc)
    requires Enabled(c, s, step) && Wants(Do(c, s, step), g)
    ensures Wants(s, g) || (step.EnterGet? && step.g == g && step.wants)
  {
    hide Do, Enabled;
    StepEffect(c, s, step);
    if Begins(step, g) {
      BegunWants(c, s, step, g);
    }
  }

  lemma BegunWants(c: Config, s: State, step: Step, g: Loc)
    requires Enabled(c, s, step) && Begins(step, g)
    ensures Wants(Do(c, s, step), g) ==> step.EnterGet? && step.wants
  {
  }

  lemma StepTame(c: Config, quiet: set<Loc>, s: State, step: Step)
    requires ConfigOk(c) && TameRules(c, quiet) && Tame(c, quiet, s) && Enabled(c, s, step) && Respects(quiet, step)
    ensures Scoped(c, s, step) && Tame(c, quiet, Do(c, s, step))
  {
    hide Inv, Unshared, Do, Enabled, ConfigOk, Scoped, ActionTame, Wants;
    TameScoped(c, quiet, s, step);
    StepInv(c, s, step);
    StepUnshared(c, quiet, s, step);
    StepEffect(c, s, step);
    var k := Do(c, s, step).lock;
    forall i | 0 <= i < |Rest(k)| ensures ActionTame(c, quiet, Rest(k)[i]) {
      assert Rest(s.lock) != [] && Rest(k) == Rest(s.lock)[1..] ==> Rest(k)[i] == Rest(s.lock)[i + 1];
    }
    forall g <- quiet ensures !Wants(Do(c, s, step), g) {
      if Wants(Do(c, s, step), g) {
        SameWants(c, s, step, g);
      }
    }
  }

  /** Every run of such a protocol is in scope, and so all guarantees hold for it. */
  lemma {:induction false} TameRunsScoped(c: Config, quiet: set<Loc>, s: State, steps: seq<Step>)
    requires ConfigOk(c) && TameRules(c, quiet) && Tame(c, quiet, s) && ValidRun(c, s, steps)
    requires AllRespect(quiet, steps)
    ensures ScopedRun(c, s, steps) && Tame(c, quiet, Run(c, s, steps))
    decreases |steps|
  {
    hide Tame, TameRules, Do, Enabled, ConfigOk, Scoped, Respects;
    if steps != [] {
      StepTame(c, quiet, s, steps[0]);
      TameRunsScoped(c, quiet, Do(c, s, steps[0]), steps[1..]);
    }
  }

  lemma InitTame(c: Config, quiet: set<Loc>)
    ensures Tame(c, quiet, Init(c))
  {
    InitInv(c);
  }

  /** Its lock holder goes through at most one firing per ready port, if every rule involves a port. */
  lemma TameTractable(c: Config, quiet: set<Loc>, s: State)
    requires ConfigOk(c) && PortRules(c) && TameRules(c, quiet) && Tame(c, quiet, s)
    ensures Tractable(c, s, |ReadyPorts(c, s.ready)|)
  {
    hide Tame, TameRules, ConfigOk, PortRules, InScope, ActionsOk, ReadyPorts, Selections;
    LeftOk(c, quiet, s);
    forall steps, s' | Reaches(c, s, steps, s')
      ensures Selections(steps) <= |ReadyPorts(c, s.ready)|
      ensures s'.lock.Held? && s'.lock.sends == [] && s'.lock.rest != [] ==> InScope(c, s', s'.lock.rest[0])
    {
      FiringRespects(quiet, steps);
      PortsBound(c, s, steps);
      TameRunsScoped(c, quiet, s, steps);
      if Performing(c, s') {
        TameInScope(c, quiet, s');
      }
    }
  }

  lemma LeftOk(c: Config, quiet: set<Loc>, s: State)
    requires Tame(c, quiet, s)
    ensures ActionsOk(c, Rest(s.lock))
  {
    hide Locations, Counts, Slots, Takers;
  }

  lemma FiringRespects(quiet: set<Loc>, steps: seq<Step>)
    requires AllFiring(steps)
    ensures AllRespect(quiet, steps)
  {
  }
}
