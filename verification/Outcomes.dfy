/** What goes wrong with a firing out of scope, and that it stays wrong in every continuation. */
module Outcomes {
  import opened Wrappers
  import opened Protocol
  import opened StepEffects
  import opened Runs

  predicate Sourced(ph: Phase) {
    !(ph.Starting? || ph.Waiting? || ph.Revoking? || ph.Late? || ph.Sent? || ph.Served?)
  }

  predicate CallSane(c: Config, l: Loc, call: Call) {
    if call.Put? then IsPoPu(c, l)
    else IsPoGe(c, l) && (Sourced(call.phase) ==> IsPoPu(c, call.phase.src) || IsMemo(c, call.phase.src))
  }

  /** What holds in every run, in scope or not. */
  ghost predicate Sane(c: Config, s: State) {
    ActionsOk(c, Rest(s.lock)) && forall l <- s.call :: CallSane(c, l, s.call[l])
  }

  /** The getter asked for data and will never have it: it has stopped looking for it. */
  predicate EmptyHanded(s: State, g: Loc) {
    && g in s.call && s.call[g].Get? && s.call[g].wants && s.call[g].out.None?
    && (s.call[g].phase.Parked? || s.call[g].phase.Finalizing? || s.call[g].phase.Served?)
  }

  /** The cell is not ready, and nobody is left to empty it. */
  ghost predicate Abandoned(c: Config, s: State, m: Loc) {
    && IsMemo(c, m) && m !in s.ready && m !in Locs(Rest(s.lock)) && (Sends(s.lock) != [] ==> s.lock.src != m)
    && (forall l <- s.call :: s.call[l].Get? && Sourced(s.call[l].phase) ==> s.call[l].phase.src != m)
    && (forall l <- s.box :: s.box[l] == m ==> IsPoPu(c, l))
  }

  /** No one can release the port's semaphore. */
  ghost predicate Unreleased(c: Config, s: State, p: Loc) {
    && IsPoPu(c, p) && !c.isCopy && At(s.sema, p, 0) == 0 && p in s.flags && s.flags[p].disabled
    && forall l <- s.call :: s.call[l].Get? && Sourced(s.call[l].phase) && s.call[l].phase.src == p ==>
         !(s.call[l].phase.Mark? || s.call[l].phase.Cloning? || s.call[l].phase.LostLeaving?)
  }

  // ---------------------------------------------------------------- sanity

  lemma MessageSane(c: Config, call: Call, msg: int)
    ensures var ph := RecvPhase(c, call, msg);
            && (call.Get? && ph.Some? ==> Sourced(ph.value) && ph.value.src == msg && (IsPoPu(c, msg) || IsMemo(c, msg))
                                          && (c.isCopy ==> ph.value.Mark? || ph.value.Leaving?)
                                          && (!c.isCopy ==> ph.value.Asking? || ph.value.SignalLeaving?))
            && (call.Put? && ph.Some? ==> ph.value.Sent?)
  {
  }

  /** The source of a getter's phase never changes, until it is served. */
  lemma FollowsSource(ph: Phase, next: Phase)
    requires Follows(ph, next)
    ensures Sourced(ph) && (next.Served? || (Sourced(next) && next.src == ph.src))
    ensures (next.Cloning? ==> ph.Asking?) && (next.LostLeaving? ==> ph.Cloning?) && !next.Mark?
  {
  }

  lemma RestSane(c: Config, s: State, step: Step)
    requires ConfigOk(c) && ActionsOk(c, Rest(s.lock)) && Enabled(c, s, step)
    ensures ActionsOk(c, Rest(Do(c, s, step).lock))
  {
    hide Do, RuleEnabled, Working, ActionsOk;
    NoActionsOk(c);
    StepEffect(c, s, step);
    if step.Perform? && Rest(s.lock) != [] {
      FirstAction(c, Rest(s.lock));
    }
    if step.Select? && step.i < |c.rules| {
      assert RuleOk(c, c.rules[step.i]);
    }
  }

  lemma NoActionsOk(c: Config)
    ensures ActionsOk(c, [])
  {
  }

  lemma PlainSane(c: Config, s: State, step: Step, l: Loc)
    requires Sane(c, s) && Enabled(c, s, step) && Plain(step) && l in Do(c, s, step).call
    ensures CallSane(c, l, Do(c, s, step).call[l])
  {
    hide RuleEnabled, ActionsOk;
  }

  lemma RevokeSane(c: Config, s: State, k: Loc, l: Loc)
    requires Sane(c, s) && k in s.call && l in DoRevoke(s, k).call
    ensures CallSane(c, l, DoRevoke(s, k).call[l])
  {
    hide DoRevoke, ActionsOk;
    RevokeEffect(s, k);
  }

  lemma RecvSane(c: Config, s: State, k: Loc, l: Loc)
    requires Sane(c, s) && k in s.call && k in s.box && l in DoRecv(c, s, k).call
    ensures CallSane(c, l, DoRecv(c, s, k).call[l])
  {
    hide DoRecv, RecvPhase, ActionsOk;
    RecvEffect(c, s, k);
    MessageSane(c, s.call[k], s.box[k]);
  }

  lemma WorkSane(c: Config, s: State, g: Loc, l: Loc)
    requires Sane(c, s) && g in s.call && s.call[g].Get? && Working(s, g) && l in DoWork(c, s, g).call
    ensures CallSane(c, l, DoWork(c, s, g).call[l])
  {
    hide DoWork, Follows, ActionsOk;
    WorkProceeds(c, s, g);
    if Follows(s.call[g].phase, DoWork(c, s, g).call[g].phase) {
      FollowsSource(s.call[g].phase, DoWork(c, s, g).call[g].phase);
    }
  }

  lemma FinalizeSane(c: Config, s: State, g: Loc, l: Loc)
    requires Sane(c, s) && g in s.call && s.call[g].phase.Finalizing? && l in DoFinalize(c, s, g).call
    ensures CallSane(c, l, DoFinalize(c, s, g).call[l])
  {
    hide DoFinalize, MakeEmpty, ActionsOk;
    if IsMemo(c, s.call[g].phase.src) {
      FinalizeCellEffect(c, s, g);
    } else {
      FinalizePortEffect(c, s, g);
    }
  }

  lemma StepSane(c: Config, s: State, step: Step)
    requires ConfigOk(c) && Sane(c, s) && Enabled(c, s, step)
    ensures Sane(c, Do(c, s, step))
  {
    hide RuleEnabled, DoWork, DoRecv, DoFinalize, DoRevoke, Working, CallSane, ActionsOk, Dispatched, DoSelect,
      ConfigOk;
    RestSane(c, s, step);
    var s' := Do(c, s, step);
    if step.Select? || step.Perform? || step.SendNext? {
      FiringEffect(c, s, step);
    } else {
      forall l <- s'.call ensures CallSane(c, l, s'.call[l]) {
        if Plain(step) {
          PlainSane(c, s, step, l);
        } else {
          match step
          case Revoke(k) => RevokeSane(c, s, k, l);
          case Recv(k) => RecvSane(c, s, k, l);
          case Work(g) => WorkSane(c, s, g, l);
          case Finalize(g) => FinalizeSane(c, s, g, l);
        }
      }
    }
  }

  lemma {:induction false} RunSane(c: Config, s: State, steps: seq<Step>)
    requires ConfigOk(c) && Sane(c, s) && ValidRun(c, s, steps)
    ensures Sane(c, Run(c, s, steps))
    decreases |steps|
  {
    hide Enabled, Do, Sane, ConfigOk;
    if steps != [] {
      StepSane(c, s, steps[0]);
      RunSane(c, Do(c, s, steps[0]), steps[1..]);
    }
  }

  lemma InitSane(c: Config)
    ensures Sane(c, Init(c))
  {
  }

  // ---------------------------------------------------------------- empty-handed getters

  /** A getter's own step, once it is empty-handed. */
  lemma OwnStepEmptyHanded(c: Config, s: State, step: Step, g: Loc)
    requires Enabled(c, s, step) && EmptyHanded(s, g) && (step == Work(g) || step == Finalize(g))
    ensures EmptyHanded(Do(c, s, step), g)
  {
    hide DoWork, DoFinalize, MakeEmpty;
    if step.Work? {
      WorkProceeds(c, s, g);
    } else if IsMemo(c, s.call[g].phase.src) {
      FinalizeCellEffect(c, s, g);
    } else {
      FinalizePortEffect(c, s, g);
    }
  }

  /** Nothing gives the getter its datum any more: it waits, or returns without. */
  lemma StepEmptyHanded(c: Config, s: State, step: Step, g: Loc)
    requires Enabled(c, s, step) && EmptyHanded(s, g)
    ensures EmptyHanded(Do(c, s, step), g) || step == Return(g)
  {
    if step == Work(g) || step == Finalize(g) {
      OwnStepEmptyHanded(c, s, step, g);
    } else if !OwnStep(step, g) {
      OtherCall(c, s, step, g) by {
        hide Do, Enabled;
      }
      SameEmptyHanded(s, Do(c, s, step), g);
    }
  }

  lemma SameEmptyHanded(s: State, s': State, g: Loc)
    requires EmptyHanded(s, g) && Lookup(s'.call, g) == Lookup(s.call, g)
    ensures EmptyHanded(s', g)
  {
  }

  /** In every continuation the getter has not returned, and has no datum, or it returned at some point without one. */
  lemma {:induction false} EmptyHandedForever(c: Config, s: State, steps: seq<Step>, g: Loc)
    requires EmptyHanded(s, g) && ValidRun(c, s, steps)
    ensures EmptyHanded(Run(c, s, steps), g) ||
            exists i :: 0 <= i < |steps| && steps[i] == Return(g) && ValidRun(c, s,
              steps[..i]) && EmptyHanded(Run(c, s, steps[..i]), g)
    decreases |steps|
  {
    hide Enabled, Do, EmptyHanded;
    if steps != [] {
      StepEmptyHanded(c, s, steps[0], g);
      if steps[0] == Return(g) {
        assert steps[..0] == [];
        assert ValidRun(c, s, steps[..0]) && EmptyHanded(Run(c, s, steps[..0]), g);
      } else {
        var s', tail := Do(c, s, steps[0]), steps[1..];
        EmptyHandedForever(c, s', tail, g);
        if !EmptyHanded(Run(c, s', tail), g) {
          var i :| 0 <= i < |tail| && tail[i] == Return(g) && ValidRun(c, s', tail[..i])
            && EmptyHanded(Run(c, s', tail[..i]), g);
          assert steps[..i + 1][0] == steps[0] && steps[..i + 1][1..] == tail[..i];
          assert steps[i + 1] == Return(g) && ValidRun(c, s, steps[..i + 1])
            && EmptyHanded(Run(c, s, steps[..i + 1]), g);
        }
      }
    }
  }

  // ---------------------------------------------------------------- abandoned cells

  lemma PlainAbandoned(c: Config, s: State, step: Step, m: Loc)
    requires Sane(c, s) && Abandoned(c, s, m) && Enabled(c, s, step) && Plain(step)
    ensures Abandoned(c, Do(c, s, step), m)
  {
    hide RuleEnabled, ActionsOk;
  }

  lemma SelectAbandoned(c: Config, s: State, i: nat, m: Loc)
    requires ConfigOk(c) && Abandoned(c, s, m) && Enabled(c, s, Select(i))
    ensures Abandoned(c, Do(c, s, Select(i)), m)
  {
    hide DoSelect, ActionsOk;
    SelectEffect(s, c.rules[i]);
    assert RuleOk(c, c.rules[i]);
  }

  lemma SendAbandoned(c: Config, s: State, m: Loc)
    requires Abandoned(c, s, m) && Enabled(c, s, SendNext)
    ensures Abandoned(c, Do(c, s, SendNext), m)
  {
    hide Send, Locs;
    SendLeaves(s, s.lock.sends[0], s.lock.src);
  }

  lemma PerformAbandoned(c: Config, s: State, slot: Ptr, m: Loc)
    requires Sane(c, s) && Abandoned(c, s, m) && Enabled(c, s, Perform(slot))
    ensures Abandoned(c, Do(c, s, Perform(slot)), m)
  {
    hide FillGetters, Dispatch, Dispatched, Performed, ActionsOk, CallSane, DisableMove;
    var a := s.lock.rest[0];
    PerformTransfers(c, s, slot);
    PerformDoes(c, s, slot);
    FirstAction(c, s.lock.rest);
    FirstLocs(s.lock.rest, m);
  }

  lemma PerformDoes(c: Config, s: State, slot: Ptr)
    requires Enabled(c, s, Perform(slot))
    ensures Do(c, s, Perform(slot)) == Performed(c, s, slot)
  {
    hide FillGetters, Dispatch, Dispatched;
  }

  lemma FirstLocs(acts: seq<Action>, m: Loc)
    requires acts != [] && m !in Locs(acts)
    ensures m != acts[0].putter && m !in acts[0].mg && m !in acts[0].pg && m !in Locs(acts[1..])
  {
  }

  lemma GoneAbandoned(c: Config, s: State, k: Loc, m: Loc)
    requires Abandoned(c, s, m) && k in s.call
    ensures Abandoned(c, s.(ready := s.ready - {k}, call := s.call - {k}), m)
  {
    hide Locs;
  }

  lemma LateAbandoned(c: Config, s: State, k: Loc, m: Loc)
    requires Abandoned(c, s, m) && k in s.call
    ensures Abandoned(c, s.(call := s.call[k := WithPhase(s.call[k], Late)]), m)
  {
    hide Locs;
  }

  lemma RevokeAbandoned(c: Config, s: State, k: Loc, m: Loc)
    requires Abandoned(c, s, m) && k in s.call
    ensures Abandoned(c, DoRevoke(s, k), m)
  {
    hide DoRevoke, Abandoned;
    RevokeEffect(s, k);
    if k in s.ready {
      GoneAbandoned(c, s, k, m);
    } else {
      LateAbandoned(c, s, k, m);
    }
  }

  lemma RecvAbandoned(c: Config, s: State, k: Loc, m: Loc)
    requires Sane(c, s) && Abandoned(c, s, m) && k in s.call && k in s.box
    ensures Abandoned(c, DoRecv(c, s, k), m)
  {
    hide DoRecv, RecvPhase, Locs, ActionsOk;
    RecvEffect(c, s, k);
    MessageSane(c, s.call[k], s.box[k]);
  }

  lemma WorkAbandoned(c: Config, s: State, g: Loc, m: Loc)
    requires Abandoned(c, s, m) && g in s.call && s.call[g].Get? && Working(s, g)
    ensures Abandoned(c, DoWork(c, s, g), m)
  {
    hide DoWork, Follows, Locs;
    WorkProceeds(c, s, g);
    if Follows(s.call[g].phase, DoWork(c, s, g).call[g].phase) {
      FollowsSource(s.call[g].phase, DoWork(c, s, g).call[g].phase);
    }
  }

  lemma FinalizeAbandoned(c: Config, s: State, g: Loc, m: Loc)
    requires Sane(c, s) && Abandoned(c, s, m) && g in s.call && s.call[g].Get? && s.call[g].phase.Finalizing?
    ensures Abandoned(c, DoFinalize(c, s, g), m)
  {
    hide DoFinalize, MakeEmpty, ActionsOk;
    if IsMemo(c, s.call[g].phase.src) {
      FinalizeCellEffect(c, s, g);
      assert Locs([]) == {};
    } else {
      FinalizePortEffect(c, s, g);
    }
  }

  lemma StepAbandoned(c: Config, s: State, step: Step, m: Loc)
    requires ConfigOk(c) && Sane(c, s) && Abandoned(c, s, m) && Enabled(c, s, step)
    ensures Abandoned(c, Do(c, s, step), m)
  {
    hide RuleEnabled, DoWork, DoRecv, DoFinalize, DoRevoke, Working, Dispatched, DoSelect, Sane, Abandoned, ConfigOk;
    if Plain(step) {
      PlainAbandoned(c, s, step, m);
    } else {
      match step
      case Select(i) => SelectAbandoned(c, s, i, m);
      case SendNext => SendAbandoned(c, s, m);
      case Perform(slot) => PerformAbandoned(c, s, slot, m);
      case Revoke(k) => RevokeAbandoned(c, s, k, m);
      case Recv(k) => RecvAbandoned(c, s, k, m);
      case Work(g) => WorkAbandoned(c, s, g, m);
      case Finalize(g) => FinalizeAbandoned(c, s, g, m);
    }
  }

  /** In every continuation the cell is not ready, so no rule involves it again. */
  lemma {:induction false} AbandonedForever(c: Config, s: State, steps: seq<Step>, m: Loc)
    requires ConfigOk(c) && Sane(c, s) && Abandoned(c, s, m) && ValidRun(c, s, steps)
    ensures Abandoned(c, Run(c, s, steps), m) && m !in Run(c, s, steps).ready
    decreases |steps|
  {
    hide Enabled, Do, Sane, ConfigOk;
    if steps != [] {
      StepSane(c, s, steps[0]);
      StepAbandoned(c, s, steps[0], m);
      AbandonedForever(c, Do(c, s, steps[0]), steps[1..], m);
    }
  }

  // ---------------------------------------------------------------- parked for ever

  predicate Tidy(call: Call, p: Loc) {
    call.Get? && Sourced(call.phase) && call.phase.src == p ==>
      !(call.phase.Mark? || call.phase.Cloning? || call.phase.LostLeaving?)
  }

  lemma UnreleasedFrame(c: Config, s: State, s': State, p: Loc)
    requires Unreleased(c, s, p) && At(s'.sema, p, 0) == 0 && p in s'.flags && s'.flags[p].disabled
    requires forall l <- s'.call :: Lookup(s.call, l) == Lookup(s'.call, l) || Tidy(s'.call[l], p)
    ensures Unreleased(c, s', p)
  {
    forall l <- s'.call ensures Tidy(s'.call[l], p) {
      if Lookup(s.call, l) == Lookup(s'.call, l) {
        assert l in s.call && Tidy(s.call[l], p);
      }
    }
  }

  lemma PlainUnreleased(c: Config, s: State, step: Step, p: Loc)
    requires Unreleased(c, s, p) && Enabled(c, s, step) && Plain(step)
    ensures Unreleased(c, Do(c, s, step), p)
  {
    hide RuleEnabled;
  }

  lemma FiringUnreleased(c: Config, s: State, step: Step, p: Loc)
    requires Unreleased(c, s, p) && Enabled(c, s, step) && (step.Select? || step.Perform? || step.SendNext?)
    ensures Unreleased(c, Do(c, s, step), p)
  {
    hide FillGetters, Dispatch, Dispatched, Performed, DoSelect, Send, RuleEnabled;
    match step
    case Select(i) => SelectEffect(s, c.rules[i]);
    case SendNext => SendLeaves(s, s.lock.sends[0], s.lock.src);
    case Perform(slot) =>
      PerformTransfers(c, s, slot);
      PerformDoes(c, s, slot);
  }

  lemma GoneUnreleased(c: Config, s: State, k: Loc, p: Loc)
    requires Unreleased(c, s, p) && k in s.call
    ensures Unreleased(c, s.(ready := s.ready - {k}, call := s.call - {k}), p)
  {
    hide Locs;
  }

  lemma LateUnreleased(c: Config, s: State, k: Loc, p: Loc)
    requires Unreleased(c, s, p) && k in s.call
    ensures Unreleased(c, s.(call := s.call[k := WithPhase(s.call[k], Late)]), p)
  {
    hide Locs;
  }

  lemma RevokeUnreleased(c: Config, s: State, k: Loc, p: Loc)
    requires Unreleased(c, s, p) && k in s.call
    ensures Unreleased(c, DoRevoke(s, k), p)
  {
    hide DoRevoke, Unreleased;
    RevokeEffect(s, k);
    if k in s.ready {
      GoneUnreleased(c, s, k, p);
    } else {
      LateUnreleased(c, s, k, p);
    }
  }

  lemma RecvUnreleased(c: Config, s: State, k: Loc, p: Loc)
    requires Unreleased(c, s, p) && k in s.call && k in s.box
    ensures Unreleased(c, DoRecv(c, s, k), p)
  {
    hide DoRecv, RecvPhase;
    RecvEffect(c, s, k);
    MessageSane(c, s.call[k], s.box[k]);
  }

  lemma FinalizeUnreleased(c: Config, s: State, g: Loc, p: Loc)
    requires Unreleased(c, s, p) && g in s.call && s.call[g].phase.Finalizing?
    ensures Unreleased(c, DoFinalize(c, s, g), p)
  {
    hide DoFinalize, MakeEmpty;
    if IsMemo(c, s.call[g].phase.src) {
      FinalizeCellEffect(c, s, g);
    } else {
      FinalizePortEffect(c, s, g);
    }
  }

  /** With the flag disabled a getter is never told to clone, and the last one out releases nothing. */
  lemma DisabledWork(c: Config, s: State, g: Loc, p: Loc)
    requires Unreleased(c, s, p) && g in s.call && s.call[g].Get? && Working(s, g) && s.call[g].phase.src == p
    ensures At(DoWork(c, s, g).sema, p, 0) == 0
    ensures g in DoWork(c, s, g).call && Tidy(DoWork(c, s, g).call[g], p)
  {
    if s.call[g].phase.Asking? {
      AskDisabled(c, s, g, p);
    } else if s.call[g].phase.AskingLast? {
      LastDisabled(c, s, g, p);
    } else {
      hide DoWork, Follows;
      WorkProceeds(c, s, g);
      if Follows(s.call[g].phase, DoWork(c, s, g).call[g].phase) {
        FollowsSource(s.call[g].phase, DoWork(c, s, g).call[g].phase);
      }
    }
  }

  lemma AskDisabled(c: Config, s: State, g: Loc, p: Loc)
    requires g in s.call && s.call[g].Get? && s.call[g].phase == Asking(p) && p in s.flags && s.flags[p].disabled
    ensures var s' := DoWork(c, s, g);
      s'.sema == s.sema && g in s'.call && s'.call[g] == WithPhase(s.call[g], WonLeaving(p))
  {
  }

  lemma LastDisabled(c: Config, s: State, g: Loc, p: Loc)
    requires g in s.call && s.call[g].Get? && s.call[g].phase == AskingLast(p) && p in s.flags && s.flags[p].disabled
    ensures var s' := DoWork(c, s, g);
      s'.sema == s.sema && g in s'.call && s'.call[g] == WithPhase(s.call[g], Finalizing(p, false))
  {
  }

  lemma WorkUnreleased(c: Config, s: State, g: Loc, p: Loc)
    requires Unreleased(c, s, p) && g in s.call && s.call[g].Get? && Working(s, g)
    ensures Unreleased(c, DoWork(c, s, g), p)
  {
    hide DoWork, Follows;
    var s' := DoWork(c, s, g);
    WorkProceeds(c, s, g);
    if s.call[g].phase.src == p {
      DisabledWork(c, s, g, p);
      assert !s.call[g].phase.Mark?;
    } else if Follows(s.call[g].phase, s'.call[g].phase) {
      FollowsSource(s.call[g].phase, s'.call[g].phase);
    }
    UnreleasedFrame(c, s, s', p);
  }

  lemma StepUnreleased(c: Config, s: State, step: Step, p: Loc)
    requires Unreleased(c, s, p) && Enabled(c, s, step)
    ensures Unreleased(c, Do(c, s, step), p)
  {
    hide RuleEnabled, DoWork, DoRecv, DoFinalize, DoRevoke, Dispatched, DoSelect, Unreleased;
    if Plain(step) {
      PlainUnreleased(c, s, step, p);
    } else if step.Select? || step.Perform? || step.SendNext? {
      FiringUnreleased(c, s, step, p);
    } else {
      match step
      case Revoke(k) => RevokeUnreleased(c, s, k, p);
      case Recv(k) => RecvUnreleased(c, s, k, p);
      case Work(g) => WorkUnreleased(c, s, g, p);
      case Finalize(g) => FinalizeUnreleased(c, s, g, p);
    }
  }

  predicate ParkedAt(s: State, g: Loc, p: Loc) { g in s.call && s.call[g].Get? && s.call[g].phase == Parked(p) }

  lemma StepParked(c: Config, s: State, step: Step, g: Loc, p: Loc)
    requires Unreleased(c, s, p) && ParkedAt(s, g, p) && Enabled(c, s, step)
    ensures ParkedAt(Do(c, s, step), g, p)
  {
    assert !OwnStep(step, g);
    OtherCall(c, s, step, g) by {
      hide Do, Enabled;
    }
    hide Do, Enabled, Unreleased;
    assert Lookup(Do(c, s, step).call, g) == Some(s.call[g]);
  }

  /** In every continuation the getter is still parked: its get never returns. */
  lemma {:induction false} ParkedForever(c: Config, s: State, steps: seq<Step>, g: Loc, p: Loc)
    requires Unreleased(c, s, p) && ParkedAt(s, g, p) && ValidRun(c, s, steps)
    ensures ParkedAt(Run(c, s, steps), g, p)
    decreases |steps|
  {
    hide Enabled, Do, Unreleased, ParkedAt;
    if steps != [] {
      StepUnreleased(c, s, steps[0], p);
      StepParked(c, s, steps[0], g, p);
      ParkedForever(c, Do(c, s, steps[0]), steps[1..], g, p);
    }
  }

  // ---------------------------------------------------------------- the semaphore

  /** A parked getter takes a permit of its source, if there is one, and goes on to finalize. */
  lemma ParkedMeans(c: Config, s: State, b: Loc, p: Loc)
    requires b in s.call && s.call[b].Get? && s.call[b].phase == Parked(p) && !HoldsLock(s, b)
    ensures Enabled(c, s, Work(b)) <==> At(s.sema, p, 0) > 0
    ensures Enabled(c, s, Work(b)) ==>
              Do(c, s, Work(b)) == s.(call := s.call[b := WithPhase(s.call[b], Finalizing(p, true))],
                                      sema := s.sema[p := At(s.sema, p, 0) - 1])
  {
  }

  /** The getter that has cloned leaves, and gives a permit if it is the last to leave. */
  lemma LoserLeaves(c: Config, s: State, a: Loc, p: Loc)
    requires a in s.call && s.call[a].Get? && s.call[a].phase == LostLeaving(p) && !HoldsLock(s, a)
    requires At(s.count, p, 0) > 0
    ensures Enabled(c, s, Work(a))
    ensures Do(c, s, Work(a)) == s.(call := s.call[a := WithPhase(s.call[a], Served)],
                                    count := s.count[p := s.count[p] - 1],
                                    sema := if s.count[p] == 1 then s.sema[p := At(s.sema, p, 0) + 1] else s.sema)
  {
    if s.count[p] == 1 {
    } else {
    }
  }

  /** The last of those that only take the signal asks for the move as well. If it is the first to ask and may, it
      gives a permit and leaves; */
  lemma SignalLeaves(c: Config, s: State, a: Loc, p: Loc)
    requires a in s.call && s.call[a].Get? && s.call[a].phase == AskingLast(p) && !HoldsLock(s, a)
    requires At(s.flags, p, Flags(false, false)) == Flags(false, false)
    ensures Enabled(c, s, Work(a))
    ensures Do(c, s, Work(a)) == s.(call := s.call[a := WithPhase(s.call[a], Served)],
                                    flags := s.flags[p := Flags(true, false)],
                                    sema := s.sema[p := At(s.sema, p, 0) + 1])
  {
    hide WithPhase;
  }

  /** otherwise it finalizes. */
  lemma SignalFinalizes(c: Config, s: State, a: Loc, p: Loc)
    requires a in s.call && s.call[a].Get? && s.call[a].phase == AskingLast(p) && !HoldsLock(s, a)
    requires At(s.flags, p, Flags(false, false)) != Flags(false, false)
    ensures Enabled(c, s, Work(a))
    ensures Do(c, s, Work(a)) == s.(call := s.call[a := WithPhase(s.call[a], Finalizing(p, false))],
                                    flags := s.flags[p := Flags(true, s.flags[p].disabled)])
  {
    hide WithPhase;
  }
}
