/** What each thread does, read off the steps of a run alone: the order of a call's own steps, what its call was begun
    with, and who may act under the lock. */
module Scripts {
  import opened Wrappers
  import opened Protocol
  import opened StepEffects
  import opened Runs
  import opened ProtocolInvariant
  import opened ProtocolSafety

  /** The latest step that began a call at `l`. */
  function Begun(steps: seq<Step>, l: Loc): Option<Step>
    decreases |steps|
  {
    if steps == [] then None
    else
      var last := steps[|steps| - 1];
      if Begins(last, l) then Some(last) else Begun(steps[..|steps| - 1], l)
  }

  /** The latest step of the thread that calls at `l`. */
  function LastOwn(steps: seq<Step>, l: Loc): Option<Step>
    decreases |steps|
  {
    if steps == [] then None
    else
      var last := steps[|steps| - 1];
      if OwnStep(last, l) then Some(last) else LastOwn(steps[..|steps| - 1], l)
  }

  predicate BegunTimed(steps: seq<Step>, l: Loc) {
    match Begun(steps, l)
    case Some(BeginPut(_, _, timed)) => timed
    case Some(EnterGet(_, _, timed)) => timed
    case _ => false
  }

  lemma OneMore(steps: seq<Step>, step: Step, l: Loc)
    ensures Begun(steps + [step], l) == if Begins(step, l) then Some(step) else Begun(steps, l)
    ensures LastOwn(steps + [step], l) == if OwnStep(step, l) then Some(step) else LastOwn(steps, l)
  {
    hide OwnStep, Begins;
    var more := steps + [step];
    assert more[|more| - 1] == step && more[..|more| - 1] == steps;
  }

  // ---------------------------------------------------------------- what a call was begun with

  predicate AsBegun(call: Call, b: Option<Step>) {
    match b
    case Some(BeginPut(_, v, timed)) => call.Put? && call.datum == v && call.timed == timed
    case Some(EnterGet(_, wants, timed)) => call.Get? && call.wants == wants && call.timed == timed
    case _ => false
  }

  /** The call at `l` is the one begun last; one that timed out was timed. */
  predicate Recorded(s: State, steps: seq<Step>, l: Loc) {
    l in s.call ==>
      AsBegun(s.call[l], Begun(steps, l)) && (s.call[l].phase.Revoking? || s.call[l].phase.Late? ==> s.call[l].timed)
  }

  /** A call's own steps keep what it was begun with, and time out only a timed call. */
  ghost predicate KeepsCall(s: State, s': State, l: Loc) {
    l in s'.call ==>
      && l in s.call && s'.call[l].timed == s.call[l].timed && CallKept(s, s', l)
      && (s'.call[l].phase.Revoking? ==> s.call[l].phase.Revoking? || s.call[l].timed)
      && (s'.call[l].phase.Late? ==> s.call[l].phase.Late? || s.call[l].phase.Revoking?)
  }

  lemma PlainKeeps(c: Config, s: State, step: Step, l: Loc)
    requires Enabled(c, s, step) && Plain(step) && OwnStep(step, l) && !Begins(step, l)
    ensures KeepsCall(s, Do(c, s, step), l)
  {
    hide RuleEnabled;
  }

  lemma WorkKeeps(c: Config, s: State, g: Loc)
    requires g in s.call && s.call[g].Get? && Working(s, g)
    ensures KeepsCall(s, DoWork(c, s, g), g)
  {
    hide DoWork;
    WorkProceeds(c, s, g);
  }

  lemma RecvKeeps(c: Config, s: State, l: Loc)
    requires l in s.call && l in s.box
    ensures KeepsCall(s, DoRecv(c, s, l), l)
  {
    hide DoRecv;
    RecvEffect(c, s, l);
  }

  lemma FinalizeKeeps(c: Config, s: State, g: Loc)
    requires g in s.call && s.call[g].phase.Finalizing?
    ensures KeepsCall(s, DoFinalize(c, s, g), g) && g in DoFinalize(c, s, g).call
    ensures DoFinalize(c, s, g).call[g].phase.Served?
  {
    hide DoFinalize, MakeEmpty;
    if IsMemo(c, s.call[g].phase.src) {
      FinalizeCellEffect(c, s, g);
    } else {
      FinalizePortEffect(c, s, g);
    }
  }

  lemma RevokeKeeps(s: State, l: Loc)
    requires l in s.call && s.call[l].phase.Revoking?
    ensures KeepsCall(s, DoRevoke(s, l), l)
  {
    if l in s.ready {
    } else {
    }
  }

  lemma OwnKeeps(c: Config, s: State, step: Step, l: Loc)
    requires Enabled(c, s, step) && OwnStep(step, l) && !Begins(step, l)
    ensures KeepsCall(s, Do(c, s, step), l)
  {
    hide RuleEnabled, DoWork, DoRecv, DoFinalize, DoRevoke, Working, KeepsCall;
    if Plain(step) {
      PlainKeeps(c, s, step, l);
    } else {
      match step
      case Revoke(k) => RevokeKeeps(s, k);
      case Recv(k) => RecvKeeps(c, s, k);
      case Work(g) => WorkKeeps(c, s, g);
      case Finalize(g) => FinalizeKeeps(c, s, g);
    }
  }

  lemma BeginRecorded(c: Config, s: State, step: Step, l: Loc)
    requires Enabled(c, s, step) && Begins(step, l)
    ensures l in Do(c, s, step).call && AsBegun(Do(c, s, step).call[l], Some(step))
    ensures var ph := Do(c, s, step).call[l].phase; if step.BeginPut? then ph.Starting? else ph.Waiting?
    ensures l !in s.call
  {
  }

  lemma KeptRecorded(s: State, s': State, steps: seq<Step>, l: Loc)
    requires Recorded(s, steps, l) && (KeepsCall(s, s', l) || Lookup(s'.call, l) == Lookup(s.call, l))
    ensures Recorded(s', steps, l)
  {
  }

  lemma StepRecorded(c: Config, s: State, steps: seq<Step>, step: Step, l: Loc)
    requires Recorded(s, steps, l) && Enabled(c, s, step)
    ensures Recorded(Do(c, s, step), steps + [step], l)
  {
    hide Do, Enabled, OwnStep, Begins, Begun, KeepsCall;
    OneMore(steps, step, l);
    if Begins(step, l) {
      BeginRecorded(c, s, step, l);
    } else {
      if OwnStep(step, l) {
        OwnKeeps(c, s, step, l);
      } else {
        OtherCall(c, s, step, l);
      }
      KeptRecorded(s, Do(c, s, step), steps, l);
      SameRecorded(Do(c, s, step), steps, steps + [step], l);
    }
  }

  lemma SameRecorded(s: State, steps: seq<Step>, steps': seq<Step>, l: Loc)
    requires Recorded(s, steps, l) && Begun(steps', l) == Begun(steps, l)
    ensures Recorded(s, steps', l)
  {
    hide Begun;
  }

  /** In every run, in scope or not, a call is the one begun last at its port, with the value, the wish and the
      timeout that it was begun with. */
  lemma {:induction false} CallAsBegun(c: Config, steps: seq<Step>, l: Loc)
    requires ValidRun(c, Init(c), steps)
    ensures Recorded(Run(c, Init(c), steps), steps, l)
    decreases |steps|
  {
    hide Enabled, Do, Recorded;
    if steps == [] {
      NothingRecorded(c, l);
    } else {
      var k := |steps| - 1;
      RunUpTo(c, Init(c), steps, k);
      CallAsBegun(c, steps[..k], l);
      assert steps[..k + 1] == steps && steps == steps[..k] + [steps[k]];
      StepRecorded(c, Run(c, Init(c), steps[..k]), steps[..k], steps[k], l);
    }
  }

  lemma NothingRecorded(c: Config, l: Loc)
    ensures Recorded(Init(c), [], l)
  {
  }

  lemma CallEnds(c: Config, s: State, step: Step, l: Loc)
    requires Enabled(c, s, step) && l in s.call && l !in Do(c, s, step).call
    ensures step == Return(l) || (step == Revoke(l) && s.call[l].phase.Revoking?)
  {
    hide RuleEnabled, DoWork, DoRecv, DoFinalize, DoRevoke, DoSelect, Dispatched, Working;
    if !OwnStep(step, l) {
      OtherCall(c, s, step, l);
    } else {
      match step
      case Recv(k) => RecvEffect(c, s, k);
      case Work(g) => WorkProceeds(c, s, g);
      case Finalize(g) => FinalizeKeeps(c, s, g);
      case _ =>
    }
  }

  lemma BegunIs(steps: seq<Step>, i: nat, l: Loc)
    requires i < |steps| && Begins(steps[i], l) && forall j :: i < j < |steps| ==> !Begins(steps[j], l)
    ensures Begun(steps, l) == Some(steps[i])
    decreases |steps|
  {
    hide Begins;
    if i < |steps| - 1 {
      BegunIs(steps[..|steps| - 1], i, l);
    }
  }

  /** In every run, in scope or not, only a timed call times out or takes its readiness back: a call begun without a
      timeout ends by returning, and in no other way. */
  lemma UntimedReturns(c: Config, steps: seq<Step>, i: nat, k: nat, l: Loc)
    requires ValidRun(c, Init(c), steps) && i < k < |steps|
    requires steps[i] == EnterGet(l, true, false) || steps[i] == EnterGet(l, false, false)
               || (steps[i].BeginPut? && steps[i] == BeginPut(l, steps[i].v, false))
    requires forall j :: i < j < k ==> !Begins(steps[j], l)
    ensures ValidRun(c, Init(c), steps[..k]) && ValidRun(c, Init(c), steps[..k + 1])
    ensures steps[k] != TimeOut(l) && steps[k] != Revoke(l)
    ensures l in Run(c, Init(c), steps[..k]).call && l !in Run(c, Init(c), steps[..k + 1]).call ==>
              steps[k] == Return(l)
  {
    hide Do, ValidRun, Run;
    RunUpTo(c, Init(c), steps, k);
    BegunIs(steps[..k], i, l);
    CallAsBegun(c, steps[..k], l);
    var s := Run(c, Init(c), steps[..k]);
    if l in s.call && l !in Do(c, s, steps[k]).call {
      CallEnds(c, s, steps[k], l);
    }
  }

  // ---------------------------------------------------------------- the script of a call

  /** What the thread at the step's port must have done last. A put is begun, takes the lock, receives its message and
      returns; a get takes the lock, receives its message, works, finalizes or not, and returns. In between, either may
      time out and try to revoke its readiness. */
  predicate MayFollow(prev: Option<Step>, step: Step) {
    match step
    case BeginPut(_, _, _) => prev.None? || prev.value.Return? || prev.value.Revoke?
    case EnterGet(_, _, _) => prev.None? || prev.value.Return? || prev.value.Revoke?
    case EnterPut(_) => prev.Some? && prev.value.BeginPut?
    case TimeOut(_) => prev.Some? && (prev.value.EnterPut? || prev.value.EnterGet?)
    case Revoke(_) => prev.Some? && prev.value.TimeOut?
    case Recv(_) => prev.Some? && (prev.value.EnterPut? || prev.value.EnterGet? || prev.value.Revoke?)
    case Work(_) => prev.Some? && (prev.value.Recv? || prev.value.Work?)
    case Finalize(_) => prev.Some? && prev.value.Work?
    case Return(_) => prev.Some? && (prev.value.Recv? || prev.value.Work? || prev.value.Finalize?)
    case _ => true
  }

  /** Where a call is after its thread's latest step. */
  predicate Reached(prev: Option<Step>, call: Option<Call>) {
    match prev
    case None => call.None?
    case Some(BeginPut(_, _, _)) => call.Some? && call.value.Put? && call.value.phase.Starting?
    case Some(EnterPut(_)) => call.Some? && call.value.phase.Waiting?
    case Some(EnterGet(_, _, _)) => call.Some? && call.value.Get? && call.value.phase.Waiting?
    case Some(TimeOut(_)) => call.Some? && call.value.phase.Revoking?
    case Some(Revoke(_)) => call.Some? ==> call.value.phase.Late?
    case Some(Recv(_)) =>
      call.Some? && if call.value.Put? then call.value.phase.Sent? else AfterRecv(call.value.phase)
    case Some(Work(_)) => call.Some? && call.value.Get? && (call.value.phase.Served? || AtWork(call.value.phase))
    case Some(Finalize(_)) => call.Some? && call.value.Get? && call.value.phase.Served?
    case Some(Return(_)) => call.None?
    case _ => false
  }

  predicate AfterRecv(ph: Phase) { ph.Mark? || ph.Leaving? || ph.Asking? || ph.SignalLeaving? }

  predicate AtWork(ph: Phase) {
    !(ph.Starting? || ph.Waiting? || ph.Revoking? || ph.Late? || ph.Sent? || ph.Served?)
  }

  lemma PlainReached(c: Config, s: State, step: Step, l: Loc)
    requires Enabled(c, s, step) && Plain(step) && OwnStep(step, l)
    ensures Reached(Some(step), Lookup(Do(c, s, step).call, l))
  {
    hide RuleEnabled;
  }

  lemma RevokeReached(c: Config, s: State, l: Loc)
    requires Enabled(c, s, Revoke(l))
    ensures Reached(Some(Revoke(l)), Lookup(Do(c, s, Revoke(l)).call, l))
  {
    hide DoRevoke;
    RevokeEffect(s, l);
  }

  lemma RecvReached(c: Config, s: State, l: Loc)
    requires Enabled(c, s, Recv(l)) && !Do(c, s, Recv(l)).fault
    ensures Reached(Some(Recv(l)), Lookup(Do(c, s, Recv(l)).call, l))
  {
    hide DoRecv;
    RecvEffect(c, s, l);
  }

  lemma WorkReached(c: Config, s: State, g: Loc)
    requires Enabled(c, s, Work(g))
    ensures Reached(Some(Work(g)), Lookup(Do(c, s, Work(g)).call, g))
  {
    hide DoWork;
    WorkProceeds(c, s, g);
  }

  lemma FinalizeReached(c: Config, s: State, g: Loc)
    requires Enabled(c, s, Finalize(g))
    ensures Reached(Some(Finalize(g)), Lookup(Do(c, s, Finalize(g)).call, g))
  {
    hide DoFinalize;
    FinalizeKeeps(c, s, g);
  }

  lemma OwnReached(c: Config, s: State, step: Step, l: Loc)
    requires Enabled(c, s, step) && OwnStep(step, l) && !Do(c, s, step).fault
    ensures Reached(Some(step), Lookup(Do(c, s, step).call, l))
  {
    hide Enabled, Do;
    if Plain(step) {
      PlainReached(c, s, step, l);
    } else {
      match step
      case Revoke(k) => RevokeReached(c, s, l);
      case Recv(k) => RecvReached(c, s, l);
      case Work(g) => WorkReached(c, s, l);
      case Finalize(g) => FinalizeReached(c, s, l);
    }
  }

  /** Where every call is, read off the steps. */
  lemma {:induction false} ReachedByScript(c: Config, steps: seq<Step>, l: Loc)
    requires ConfigOk(c) && ValidRun(c, Init(c), steps) && ScopedRun(c, Init(c), steps)
    ensures Reached(LastOwn(steps, l), Lookup(Run(c, Init(c), steps).call, l))
    decreases |steps|
  {
    hide Enabled, Do, Reached, OwnStep, ConfigOk, Inv;
    if steps == [] {
      NothingReached(c, l);
    } else {
      var k := |steps| - 1;
      RunUpTo(c, Init(c), steps, k);
      assert steps[..k + 1] == steps && steps == steps[..k] + [steps[k]];
      OneMore(steps[..k], steps[k], l);
      InitInv(c);
      RunSafe(c, Init(c), steps);
      if OwnStep(steps[k], l) {
        OwnReached(c, Run(c, Init(c), steps[..k]), steps[k], l);
      } else {
        ReachedByScript(c, steps[..k], l);
        OtherCall(c, Run(c, Init(c), steps[..k]), steps[k], l);
      }
    }
  }

  lemma NothingReached(c: Config, l: Loc)
    ensures Reached(None, Lookup(Init(c).call, l))
  {
  }

  lemma ScriptFollowed(c: Config, s: State, step: Step, l: Loc, prev: Option<Step>)
    requires Enabled(c, s, step) && OwnStep(step, l) && Reached(prev, Lookup(s.call, l))
    ensures MayFollow(prev, step)
    ensures step.Return? && prev.Some? && prev.value.Recv? ==> s.call[l].Put?
  {
    hide RuleEnabled;
  }

  /** In every run each thread follows the script of its calls. */
  lemma FollowsScript(c: Config, steps: seq<Step>, k: nat, l: Loc)
    requires ConfigOk(c) && ValidRun(c, Init(c), steps) && ScopedRun(c, Init(c), steps)
    requires k < |steps| && OwnStep(steps[k], l)
    ensures MayFollow(LastOwn(steps[..k], l), steps[k])
  {
    hide Enabled, Do, Reached, OwnStep, ConfigOk, MayFollow, LastOwn, ValidRun, ScopedRun, Run;
    RunUpTo(c, Init(c), steps, k);
    ReachedByScript(c, steps[..k], l);
    ScriptFollowed(c, Run(c, Init(c), steps[..k]), steps[k], l, LastOwn(steps[..k], l));
  }

  // ---------------------------------------------------------------- who acts under the lock

  predicate Enters(step: Step, h: Loc) { step == EnterPut(h) || (step.EnterGet? && step.g == h) }

  predicate NeedsLock(step: Step) { Firing(step) || step.Release? }

  /** The lock was released after this step. */
  ghost predicate Released(steps: seq<Step>, i: nat) { exists r :: i < r < |steps| && steps[r] == Release }

  /** Since `h` took the lock, by a call or by finalizing, no one has released or taken it, no readiness has been
      revoked, and the thread of `h` has done nothing else. */
  ghost predicate Section(steps: seq<Step>, i: nat, h: Loc) {
    && i < |steps| && (Enters(steps[i], h) || steps[i] == Finalize(h))
    && forall m :: i < m < |steps| ==>
         !steps[m].Release? && !steps[m].EnterPut? && !steps[m].EnterGet? && !steps[m].Revoke? && !OwnStep(steps[m], h)
  }

  /** The lock is with the one who took it last, and was released by all who took it before. */
  ghost predicate LockTold(s: State, steps: seq<Step>) {
    && (s.lock.Held? ==> s.lock.holder in s.call && exists i: nat :: Section(steps, i, s.lock.holder))
    && forall i: nat, h :: i < |steps| && Enters(steps[i], h) ==> Released(steps, i) || HoldsLock(s, h)
  }

  /** What a step does to the lock. */
  ghost predicate LockMoves(s: State, s': State, step: Step) {
    && (s'.lock.Held? ==> s'.lock.holder in s'.call)
    && (forall h :: Enters(step, h) ==> s.lock.Free? && HoldsLock(s', h))
    && (step.Revoke? ==> s.lock.Free?)
    && (NeedsLock(step) ==> s.lock.Held?)
    && (forall h :: OwnStep(step, h) ==> !HoldsLock(s, h))
    && (if step.Release? then s'.lock.Free?
        else if s.lock.Held? then HoldsLock(s', s.lock.holder)
        else s'.lock.Free? || Enters(step, s'.lock.holder) || step == Finalize(s'.lock.holder))
  }

  lemma PlainLock(c: Config, s: State, step: Step)
    requires Enabled(c, s, step) && Plain(step) && (s.lock.Held? ==> s.lock.holder in s.call)
    ensures LockMoves(s, Do(c, s, step), step)
  {
    hide RuleEnabled;
  }

  lemma FiringLock(c: Config, s: State, step: Step)
    requires Enabled(c, s, step) && Firing(step) && (s.lock.Held? ==> s.lock.holder in s.call)
    ensures LockMoves(s, Do(c, s, step), step)
  {
    hide RuleEnabled, Do;
    FiringEffect(c, s, step);
  }

  lemma RevokeLock(c: Config, s: State, l: Loc)
    requires Enabled(c, s, Revoke(l))
    ensures LockMoves(s, Do(c, s, Revoke(l)), Revoke(l))
  {
    if l in s.ready {
    } else {
    }
  }

  lemma RecvLock(c: Config, s: State, l: Loc)
    requires Enabled(c, s, Recv(l)) && (s.lock.Held? ==> s.lock.holder in s.call)
    ensures LockMoves(s, Do(c, s, Recv(l)), Recv(l))
  {
    hide DoRecv;
    RecvEffect(c, s, l);
  }

  lemma WorkLock(c: Config, s: State, g: Loc)
    requires Enabled(c, s, Work(g)) && (s.lock.Held? ==> s.lock.holder in s.call)
    ensures LockMoves(s, Do(c, s, Work(g)), Work(g))
  {
    hide DoWork;
    WorkProceeds(c, s, g);
  }

  lemma FinalizeLock(c: Config, s: State, g: Loc)
    requires Enabled(c, s, Finalize(g)) && (s.lock.Held? ==> s.lock.holder in s.call)
    ensures LockMoves(s, Do(c, s, Finalize(g)), Finalize(g))
  {
    hide DoFinalize, MakeEmpty;
    if IsMemo(c, s.call[g].phase.src) {
      FinalizeCellEffect(c, s, g);
    } else {
      FinalizePortEffect(c, s, g);
    }
  }

  lemma StepLock(c: Config, s: State, step: Step)
    requires Enabled(c, s, step) && (s.lock.Held? ==> s.lock.holder in s.call)
    ensures LockMoves(s, Do(c, s, step), step)
  {
    hide Enabled, Do, LockMoves;
    if Plain(step) {
      PlainLock(c, s, step);
    } else if Firing(step) {
      FiringLock(c, s, step);
    } else {
      match step
      case Revoke(l) => RevokeLock(c, s, l);
      case Recv(l) => RecvLock(c, s, l);
      case Work(g) => WorkLock(c, s, g);
      case Finalize(g) => FinalizeLock(c, s, g);
    }
  }

  lemma SectionGoesOn(steps: seq<Step>, i: nat, h: Loc, step: Step)
    requires Section(steps, i, h) && !step.Release? && !step.EnterPut? && !step.EnterGet? && !step.Revoke?
    requires !OwnStep(step, h)
    ensures Section(steps + [step], i, h)
  {
    hide OwnStep, Enters;
  }

  lemma SectionStarts(steps: seq<Step>, h: Loc, step: Step)
    requires Enters(step, h) || step == Finalize(h)
    ensures Section(steps + [step], |steps|, h)
  {
  }

  lemma StepTold(c: Config, s: State, steps: seq<Step>, step: Step)
    requires LockTold(s, steps) && Enabled(c, s, step)
    ensures LockTold(Do(c, s, step), steps + [step])
  {
    hide Enabled, Do, Section, OwnStep, Enters;
    StepLock(c, s, step);
    var s', more := Do(c, s, step), steps + [step];
    if s'.lock.Held? {
      var h := s'.lock.holder;
      if s.lock.Held? {
        var i: nat :| Section(steps, i, h);
        KindsOf(step);
        SectionGoesOn(steps, i, h, step);
      } else {
        SectionStarts(steps, h, step);
      }
    }
    forall i: nat, h | i < |more| && Enters(more[i], h) ensures Released(more, i) || HoldsLock(s', h) {
      EntryTold(s, s', steps, step, i, h);
    }
  }

  lemma EntryTold(s: State, s': State, steps: seq<Step>, step: Step, i: nat, h: Loc)
    requires LockTold(s, steps) && LockMoves(s, s', step) && i <= |steps| && Enters((steps + [step])[i], h)
    ensures Released(steps + [step], i) || HoldsLock(s', h)
  {
    hide Section, OwnStep, Enters;
    var more := steps + [step];
    if i == |steps| {
      assert Enters(step, h);
    } else {
      assert Enters(steps[i], h);
      if step.Release? {
        assert more[|steps|] == Release;
      } else if Released(steps, i) {
        var r :| i < r < |steps| && steps[r] == Release;
        assert more[r] == Release;
      } else {
        assert HoldsLock(s, h) && HoldsLock(s', s.lock.holder);
      }
    }
  }

  lemma KindsOf(step: Step)
    ensures step.EnterPut? || step.EnterGet? ==> exists h :: Enters(step, h)
  {
    assert step.EnterPut? ==> Enters(step, step.p);
    assert step.EnterGet? ==> Enters(step, step.g);
  }

  lemma {:induction false} RunTold(c: Config, steps: seq<Step>)
    requires ValidRun(c, Init(c), steps)
    ensures LockTold(Run(c, Init(c), steps), steps)
    decreases |steps|
  {
    hide Enabled, Do, LockTold;
    if steps == [] {
      NothingTold(c);
    } else {
      var k := |steps| - 1;
      RunUpTo(c, Init(c), steps, k);
      assert steps[..k + 1] == steps && steps == steps[..k] + [steps[k]];
      RunTold(c, steps[..k]);
      StepTold(c, Run(c, Init(c), steps[..k]), steps[..k], steps[k]);
    }
  }

  lemma NothingTold(c: Config)
    ensures LockTold(Init(c), [])
  {
  }

  /** In every run, in scope or not, critical sections do not overlap. Rules are selected, data moved, messages sent and
      the lock released only by whoever took it last, and that thread does nothing else in between. Whoever takes the
      lock or revokes readiness finds it released by all before. A thread goes on with its call only after releasing. */
  lemma MutualExclusion(c: Config, steps: seq<Step>, k: nat)
    requires ValidRun(c, Init(c), steps) && k < |steps|
    ensures NeedsLock(steps[k]) ==> exists i: nat, h :: Section(steps[..k], i, h)
    ensures steps[k].EnterPut? || steps[k].EnterGet? || steps[k].Revoke? ==>
              forall i: nat, h :: i < k && Enters(steps[i], h) ==> Released(steps[..k], i)
    ensures forall i: nat, h :: i < k && Enters(steps[i], h) && OwnStep(steps[k], h) ==> Released(steps[..k], i)
  {
    hide Enabled, Do, Section, OwnStep, Enters, Released, ValidRun, Run;
    RunUpTo(c, Init(c), steps, k);
    RunTold(c, steps[..k]);
    StepLock(c, Run(c, Init(c), steps[..k]), steps[k]);
    KindsOf(steps[k]);
    var s := Run(c, Init(c), steps[..k]);
    if steps[k].EnterPut? || steps[k].EnterGet? || steps[k].Revoke? {
      forall i: nat, h | i < k && Enters(steps[i], h) ensures Released(steps[..k], i) {
        assert Enters(steps[..k][i], h) && !HoldsLock(s, h);
      }
    }
    forall i: nat, h | i < k && Enters(steps[i], h) && OwnStep(steps[k], h) ensures Released(steps[..k], i) {
      assert Enters(steps[..k][i], h);
    }
  }

  // ---------------------------------------------------------------- the order within a firing

  datatype Item = Carry(a: Action) | Deliver(to: Loc, src: Loc)

  function Messages(gs: seq<Loc>, src: Loc): (items: seq<Item>)
    ensures |items| == |gs|
  {
    seq(|gs|, i requires 0 <= i < |gs| => Deliver(gs[i], src))
  }

  /** What a firing has to do: each action is carried out and then its port getters get their messages, in order. */
  function Agenda(acts: seq<Action>): seq<Item> {
    if acts == [] then [] else [Carry(acts[0])] + Messages(acts[0].pg, acts[0].putter) + Agenda(acts[1..])
  }

  /** What is left of it. */
  function Left(k: Lock): seq<Item> { if k.Free? then [] else Messages(k.sends, k.src) + Agenda(k.rest) }

  predicate Does(step: Step) { step.Perform? || step.SendNext? }

  function Done(steps: seq<Step>): nat
    decreases |steps|
  {
    if steps == [] then 0 else (if Does(steps[0]) then 1 else 0) + Done(steps[1..])
  }

  /** The item is the first of those left, and the step does it. */
  predicate DoesItem(c: Config, s: State, step: Step, s': State, item: Item) {
    match item
    case Carry(a) => step.Perform? && s' == Dispatch(c, FillGetters(c, s, a, step.slot), a).(lock := s'.lock)
    case Deliver(to, src) =>
      step.SendNext? && if to in s.box then s'.fault else s'.box == s.box[to := src] && s'.fault == s.fault
  }

  lemma LeftNext(k: Lock)
    requires k.Held?
    ensures k.sends != [] ==> Left(k) == [Deliver(k.sends[0], k.src)] + Left(k.(sends := k.sends[1..]))
    ensures k.sends == [] && k.rest != [] ==>
              Left(k) == [Carry(k.rest[0])]
                + Left(k.(src := k.rest[0].putter, sends := k.rest[0].pg, rest := k.rest[1..]))
    ensures k.sends == [] && k.rest == [] ==> Left(k) == []
  {
    if k.sends != [] {
      assert Messages(k.sends, k.src) == [Deliver(k.sends[0], k.src)] + Messages(k.sends[1..], k.src);
    }
  }

  lemma FiringLeft(c: Config, s: State, step: Step)
    requires Enabled(c, s, step) && s.lock.Held? && Does(step)
    ensures var s' := Do(c, s, step);
            && s'.lock.Held? && Left(s.lock) != [] && Left(s'.lock) == Left(s.lock)[1..]
            && DoesItem(c, s, step, s', Left(s.lock)[0])
  {
    hide RuleEnabled, FillGetters, Dispatch, Left, Send;
    FiringEffect(c, s, step);
    LeftNext(s.lock);
    if step.SendNext? {
      SendLeaves(s, s.lock.sends[0], s.lock.src);
    } else {
      PerformIs(c, s, step.slot);
    }
  }

  lemma PerformIs(c: Config, s: State, slot: Ptr)
    requires Enabled(c, s, Perform(slot))
    ensures var s', a := Do(c, s, Perform(slot)), s.lock.rest[0];
            s' == Dispatch(c, FillGetters(c, s, a, slot), a).(lock := s'.lock)
  {
    hide FillGetters, Dispatch;
  }

  lemma SelectLeft(c: Config, s: State, i: nat)
    requires Enabled(c, s, Select(i))
    ensures Left(s.lock) == [] && i < |c.rules| && Do(c, s, Select(i)).lock.Held?
    ensures Left(Do(c, s, Select(i)).lock) == Agenda(c.rules[i].actions)
  {
    hide RuleEnabled, Agenda, DoSelect;
    SelectEffect(s, c.rules[i]);
    NoneLeft();
    assert Messages([], s.lock.src) == [];
  }

  lemma NoneLeft()
    ensures Agenda([]) == []
  {
  }

  /** Steps of other threads leave the lock and what is left of the firing alone. */
  lemma OthersLeft(c: Config, s: State, step: Step)
    requires Enabled(c, s, step) && s.lock.Held? && !Firing(step) && !step.Release?
    ensures Do(c, s, step).lock == s.lock
  {
    hide RuleEnabled, DoRevoke, DoRecv, DoWork, DoFinalize, Working;
    match step
    case BeginPut(_, _, _) =>
    case TimeOut(_) =>
    case Return(_) =>
    case Recv(l) => RecvEffect(c, s, l);
    case Work(g) => WorkProceeds(c, s, g);
    case Finalize(g) => FinalizePortEffect(c, s, g);
  }

  lemma {:induction false} LeftAfter(c: Config, s: State, steps: seq<Step>)
    requires ValidRun(c, s, steps) && s.lock.Held? && forall m :: 0 <= m < |steps| ==>
      !steps[m].Select? && !steps[m].Release?
    ensures Run(c, s, steps).lock.Held? && Done(steps) <= |Left(s.lock)|
    ensures Left(Run(c, s, steps).lock) == Left(s.lock)[Done(steps)..]
    decreases |steps|
  {
    hide Enabled, Do, Left, DoesItem;
    if steps != [] {
      if Does(steps[0]) {
        FiringLeft(c, s, steps[0]);
      } else {
        OthersLeft(c, s, steps[0]);
      }
      LeftAfter(c, Do(c, s, steps[0]), steps[1..]);
    }
  }

  /** In every run, whatever other threads do in between: after a rule has been selected its actions are carried out in
      order, each followed by its messages in order, and no rule is selected and the lock not released before all is
      done. */
  lemma FiringInOrder(c: Config, s: State, steps: seq<Step>, i: nat, k: nat)
    requires ValidRun(c, s, [Select(i)] + steps) && k < |steps|
    requires forall m :: 0 <= m < k ==> !steps[m].Select? && !steps[m].Release?
    ensures i < |c.rules|
    ensures var agenda, n := Agenda(c.rules[i].actions), Done(steps[..k]);
            var before, after := [Select(i)] + steps[..k], [Select(i)] + steps[..k + 1];
            && ValidRun(c, s, before) && ValidRun(c, s, after)
            && (Does(steps[k]) ==>
                  n < |agenda| && DoesItem(c, Run(c, s, before), steps[k], Run(c, s, after), agenda[n]))
            && (steps[k].Select? || steps[k].Release? ==> n == |agenda|)
  {
    hide Enabled, Do, Left, DoesItem, Agenda;
    var all := [Select(i)] + steps;
    assert all[0] == Select(i) && all[1..] == steps;
    var s1 := Do(c, s, Select(i));
    SelectLeft(c, s, i);
    RunUpTo(c, s1, steps, k);
    LeftAfter(c, s1, steps[..k]);
    var before, after := [Select(i)] + steps[..k], [Select(i)] + steps[..k + 1];
    assert before[0] == Select(i) && before[1..] == steps[..k] && after[0] == Select(i) && after[1..] == steps[..k + 1];
    var s2 := Run(c, s1, steps[..k]);
    if Does(steps[k]) {
      FiringLeft(c, s2, steps[k]);
    } else if steps[k].Select? {
      SelectLeft(c, s2, steps[k].i);
    } else if steps[k].Release? {
      ReleaseLeft(c, s2);
    }
  }

  lemma ReleaseLeft(c: Config, s: State)
    requires Enabled(c, s, Release)
    ensures Left(s.lock) == []
  {
    hide RuleEnabled;
  }

  // ---------------------------------------------------------------- what a thread may do next

  lemma Next(c: Config, steps: seq<Step>, step: Step)
    requires ValidRun(c, Init(c), steps)
    ensures ValidRun(c, Init(c), steps + [step]) <==> Enabled(c, Run(c, Init(c), steps), step)
  {
    hide Enabled, Do;
    var more := steps + [step];
    assert more[..|steps|] == steps && more[|steps|] == step;
    if ValidRun(c, Init(c), more) {
      RunUpTo(c, Init(c), more, |steps|);
    }
    if Enabled(c, Run(c, Init(c), steps), step) {
      OneStep(c, Run(c, Init(c), steps), step);
      RunOn(c, Init(c), steps, [step]);
    }
  }

  /** After any run, a put or a get can begin exactly if the port has the right direction and is in no call; the lock is
      taken when it is free. */
  lemma MayBegin(c: Config, steps: seq<Step>, l: Loc, v: Val, wants: bool, timed: bool)
    requires ConfigOk(c) && ValidRun(c, Init(c), steps) && ScopedRun(c, Init(c), steps)
    ensures var s, prev := Run(c, Init(c), steps), LastOwn(steps, l);
            var idle := l !in s.call;
            && (idle ==> prev.None? || prev.value.Return? || prev.value.Revoke?)
            && (prev.None? || prev.value.Return? ==> idle)
            && (ValidRun(c, Init(c), steps + [BeginPut(l, v, timed)]) <==> IsPoPu(c, l) && idle)
            && (ValidRun(c, Init(c), steps + [EnterGet(l, wants, timed)]) <==> IsPoGe(c, l) && idle && s.lock.Free?)
            && (ValidRun(c, Init(c), steps + [EnterPut(l)]) <==>
                  prev.Some? && prev.value.BeginPut? && s.lock.Free?)
  {
    hide Do, ValidRun, ScopedRun, Run, LastOwn;
    Next(c, steps, BeginPut(l, v, timed));
    Next(c, steps, EnterGet(l, wants, timed));
    Next(c, steps, EnterPut(l));
    ReachedByScript(c, steps, l);
  }

  /** After any run, a call times out exactly if it is timed and waiting, no message is there, and its thread does not
      hold the lock; it can take its readiness back exactly after a timeout, when the lock is free. */
  lemma MayTimeOut(c: Config, steps: seq<Step>, l: Loc)
    requires ConfigOk(c) && ValidRun(c, Init(c), steps) && ScopedRun(c, Init(c), steps)
    ensures var s, prev := Run(c, Init(c), steps), LastOwn(steps, l);
            && (ValidRun(c, Init(c), steps + [TimeOut(l)]) <==>
                  && BegunTimed(steps, l) && prev.Some? && (prev.value.EnterPut? || prev.value.EnterGet?)
                  && l !in s.box && !HoldsLock(s, l))
            && (ValidRun(c, Init(c), steps + [Revoke(l)]) <==> prev.Some? && prev.value.TimeOut? && s.lock.Free?)
  {
    hide Do, ValidRun, ScopedRun, Run, LastOwn, Begun;
    Next(c, steps, TimeOut(l));
    Next(c, steps, Revoke(l));
    CallAsBegun(c, steps, l);
    ReachedByScript(c, steps, l);
  }

  /** After any run, a call receives its message exactly if it waits, or came too late to revoke, and the message is
      there; a put returns once it has received it, a get once its work is done. */
  lemma MayReceive(c: Config, steps: seq<Step>, l: Loc)
    requires ConfigOk(c) && ValidRun(c, Init(c), steps) && ScopedRun(c, Init(c), steps)
    ensures var s, prev := Run(c, Init(c), steps), LastOwn(steps, l);
            && (ValidRun(c, Init(c), steps + [Recv(l)]) <==>
                  && prev.Some? && (prev.value.EnterPut? || prev.value.EnterGet? || (prev.value.Revoke? && l in s.call))
                  && l in s.box && !HoldsLock(s, l))
            && (ValidRun(c, Init(c), steps + [Return(l)]) <==>
                  && prev.Some? && l in s.call && !HoldsLock(s, l)
                  && (|| (prev.value.Recv? && s.call[l].Put?)
                      || prev.value.Finalize?
                      || (prev.value.Work? && s.call[l].phase.Served?)))
  {
    hide Do, ValidRun, ScopedRun, Run, LastOwn;
    Next(c, steps, Recv(l));
    Next(c, steps, Return(l));
    ReachedByScript(c, steps, l);
  }
}
