/** A finalizer reports "moved" exactly if a getter of its firing has taken the datum, however many there are. */
module FinalReports {
  import opened Wrappers
  import opened Protocol
  import opened StepEffects
  import opened ProtocolInvariant
  import opened ProtocolSafety
  import opened Refinement
  import opened RefinementFiring
  import opened Finalizers

  predicate AtWork(s: State, step: Step, p: Loc) {
    step.Work? && step.g in s.call && s.call[step.g].Get? && Working(s, step.g) && s.call[step.g].phase.src == p
  }

  /** A getter sets the move flag of `p` on its way to taking a `Copy` datum. */
  predicate Marks(s: State, step: Step, p: Loc) { AtWork(s, step, p) && s.call[step.g].phase.Mark? }

  /** A getter takes the datum of `p`. */
  predicate Takes(s: State, step: Step, p: Loc) {
    AtWork(s, step, p) && (s.call[step.g].phase.Copying? || s.call[step.g].phase.Moving?)
  }

  /** Whether a getter has marked, or taken, since the last firing of `p`. */
  datatype History = History(marked: bool, taken: bool)

  function Next(s: State, step: Step, p: Loc, h: History): History {
    if Arms(s, step, p) then History(false, false)
    else History(h.marked || Marks(s, step, p), h.taken || Takes(s, step, p))
  }

  function Since(c: Config, s: State, steps: seq<Step>, p: Loc, h: History): History
    requires ValidRun(c, s, steps)
    decreases |steps|
  {
    if steps == [] then h else Since(c, Do(c, s, steps[0]), steps[1..], p, Next(s, steps[0], p, h))
  }

  // ---------------------------------------------------------------- the invariant

  predicate Taking(s: State, g: Loc, p: Loc) { g in s.call && s.call[g].Get? && s.call[g].phase == Copying(p) }

  predicate Reporting(s: State, g: Loc, p: Loc) {
    g in s.call && s.call[g].Get? && s.call[g].phase.Finalizing? && s.call[g].phase.src == p
  }

  /** The flags of a `Copy` datum's putter say whether a getter has marked; one that has marked takes or has taken. A
      getter that takes another datum goes on to report it. */
  ghost predicate Recorded(c: Config, s: State, p: Loc, h: History) {
    && (h.taken ==> !c.isCopy || h.marked)
    && (c.isCopy ==>
          && p in s.flags && s.flags[p].moved == h.marked && (h.marked ==> !s.flags[p].disabled)
          && (h.marked && !h.taken ==> exists g :: Taking(s, g, p))
          && (forall g :: Taking(s, g, p) ==> h.marked))
    && (!c.isCopy && h.taken ==> exists g :: Reporting(s, g, p))
    && (forall g :: Reporting(s, g, p) ==> s.call[g].phase.someoneMoved == if c.isCopy then h.marked else h.taken)
  }

  ghost predicate RecordedIfBusy(c: Config, s: State, p: Loc, h: History) { Busy(s, p) ==> Recorded(c, s, p, h) }

  // ---------------------------------------------------------------- steps

  lemma ReportingBusy(s: State, g: Loc, p: Loc)
    requires Reporting(s, g, p) || Taking(s, g, p)
    ensures Busy(s, p) && Engaged(s, g) == Some(p)
  {
    assert g in Out(s, p) || g in Closers(s, p);
  }

  /** The firing sets the flags anew; nobody is taking or reporting. */
  lemma ArmsRecorded(c: Config, s: State, slot: Ptr, p: Loc)
    requires Inv(c, s) && Enabled(c, s, Perform(slot)) && Arms(s, Perform(slot), p)
    ensures RecordedIfBusy(c, Do(c, s, Perform(slot)), p, History(false, false))
  {
    hide Inv, Busy, Engaged, FillGetters;
    var s' := Do(c, s, Perform(slot));
    PerformTransfers(c, s, slot);
    StepNotBusy(c, s, slot, p);
    forall g ensures !Reporting(s', g, p) && !Taking(s', g, p) {
      if Reporting(s, g, p) || Taking(s, g, p) {
        ReportingBusy(s, g, p);
      }
    }
  }

  lemma StepNotBusy(c: Config, s: State, slot: Ptr, p: Loc)
    requires Inv(c, s) && Enabled(c, s, Perform(slot)) && Arms(s, Perform(slot), p)
    ensures !Busy(s, p) && Do(c, s, Perform(slot)) == Performed(c, s, slot)
  {
    hide Inv, Busy, FillGetters, Dispatch, Dispatched;
    PerformBusy(c, s, slot, p);
  }

  /** The flags of `p` stay, and so do those who take from it or report to it. */
  ghost predicate Unmoved(s: State, s': State, p: Loc) {
    && Lookup(s'.flags, p) == Lookup(s.flags, p)
    && forall g :: (Taking(s, g, p) <==> Taking(s', g, p)) && (Reporting(s, g, p) <==> Reporting(s', g, p))
                   && (Reporting(s, g, p) ==> s'.call[g].phase == s.call[g].phase)
  }

  lemma UnmovedRecorded(c: Config, s: State, s': State, p: Loc, h: History)
    requires Recorded(c, s, p, h) && Unmoved(s, s', p)
    ensures Recorded(c, s', p, h)
  {
    hide Taking, Reporting;
    assert p in s.flags ==> Lookup(s.flags, p) == Some(s.flags[p]);
  }

  lemma PlainUnmoved(c: Config, s: State, step: Step, p: Loc)
    requires Inv(c, s) && Enabled(c, s, step) && Plain(step)
    ensures Unmoved(s, Do(c, s, step), p)
  {
    hide Inv, RuleEnabled;
  }

  lemma RecvUnmoved(c: Config, s: State, l: Loc, p: Loc)
    requires Enabled(c, s, Recv(l))
    ensures Unmoved(s, DoRecv(c, s, l), p)
  {
    hide DoRecv;
    RecvEffect(c, s, l);
  }

  lemma RevokeUnmoved(c: Config, s: State, l: Loc, p: Loc)
    requires Enabled(c, s, Revoke(l))
    ensures Unmoved(s, DoRevoke(s, l), p)
  {
    if l in s.ready {
    } else {
    }
  }

  lemma FiringUnmoved(c: Config, s: State, step: Step, p: Loc)
    requires Inv(c, s) && Enabled(c, s, step) && (step.Select? || step.Perform? || step.SendNext?) && !Arms(s, step, p)
    ensures Unmoved(s, Do(c, s, step), p)
  {
    hide Inv, DoSelect, Send, FillGetters, Dispatch, Dispatched, RuleEnabled;
    match step
    case Select(i) => SelectEffect(s, c.rules[i]);
    case SendNext => SendLeaves(s, s.lock.sends[0], s.lock.src);
    case Perform(slot) =>
      PerformTransfers(c, s, slot);
      assert Do(c, s, step) == Performed(c, s, slot);
  }

  lemma FinalizeUnmoved(c: Config, s: State, g: Loc, p: Loc)
    requires Enabled(c, s, Finalize(g)) && s.call[g].phase.src != p
    ensures Unmoved(s, DoFinalize(c, s, g), p)
  {
    hide DoFinalize, MakeEmpty;
    if IsMemo(c, s.call[g].phase.src) {
      FinalizeCellEffect(c, s, g);
    } else {
      FinalizePortEffect(c, s, g);
    }
  }

  // ---------------------------------------------------------------- inside acquire_data

  lemma WorkElsewhere(c: Config, s: State, g: Loc, p: Loc)
    requires Enabled(c, s, Work(g)) && s.call[g].phase.src != p
    ensures Unmoved(s, DoWork(c, s, g), p)
  {
    hide DoWork;
    WorkProceeds(c, s, g);
  }

  lemma MarkFlags(c: Config, s: State, g: Loc, p: Loc)
    requires g in s.call && s.call[g].Get? && s.call[g].phase == Mark(p)
    ensures Lookup(DoWork(c, s, g).flags, p) == Some(Flags(true, false))
  {
  }

  ghost predicate Works(c: Config, s: State, g: Loc, p: Loc, h: History) {
    Inv(c, s) && Enabled(c, s, Work(g)) && s.call[g].phase.src == p && Recorded(c, s, p, h)
  }

  lemma MarkRecorded(c: Config, s: State, g: Loc, p: Loc, h: History)
    requires Works(c, s, g, p, h) && s.call[g].phase.Mark?
    ensures Recorded(c, DoWork(c, s, g), p, h.(marked := true))
  {
    hide Inv, DoWork, Working;
    var s' := DoWork(c, s, g);
    MarkIsCopy(c, s, g);
    WorkProceeds(c, s, g);
    MarkFlags(c, s, g, p);
    WorkNoFault(c, s, g);
    assert Taking(s', g, p);
    NobodyReports(c, s, g, p);
    forall k ensures !Reporting(s', k, p) {
      assert Reporting(s', k, p) ==> k != g && Reporting(s, k, p);
    }
  }

  lemma MarkIsCopy(c: Config, s: State, g: Loc)
    requires Inv(c, s) && g in s.call && s.call[g].Get?
    ensures var ph := s.call[g].phase;
            && (ph.Mark? || ph.Copying? || ph.Leaving? || ph.Reading? ==> c.isCopy)
            && (ph.Asking? || ph.WonLeaving? || ph.Moving? || ph.SignalLeaving? || ph.AskingLast? ==> !c.isCopy)
            && !ph.Parked? && !ph.Cloning? && !ph.LostLeaving?
  {
    hide Locations, Counts, Slots, Takers, LockOk, Busy;
    GoodAt(c, s, g);
  }

  lemma WorkNoFault(c: Config, s: State, g: Loc)
    requires Inv(c, s) && Enabled(c, s, Work(g))
    ensures !DoWork(c, s, g).fault
  {
    hide Inv, DoWork, Working;
    WorkInv(c, s, g);
    NoFault(c, DoWork(c, s, g));
  }

  /** While a getter is at work, nobody else reports. */
  lemma NobodyReports(c: Config, s: State, g: Loc, p: Loc)
    requires Inv(c, s) && Getting(s, g) && Working(s, g) && s.call[g].phase.src == p
    ensures forall k :: !Reporting(s, k, p)
  {
    hide Inv, Working, Busy, Engaged;
    WorkingGood(c, s, g);
    forall k ensures !Reporting(s, k, p) {
      if Reporting(s, k, p) {
        FinalizingEngaged(s, k);
        LastEngaged(c, s, k, p);
      }
    }
  }

  lemma CopyRecorded(c: Config, s: State, g: Loc, p: Loc, h: History)
    requires Works(c, s, g, p, h) && s.call[g].phase.Copying?
    ensures Recorded(c, DoWork(c, s, g), p, h.(taken := true))
  {
    hide Inv, DoWork, Working;
    var s' := DoWork(c, s, g);
    MarkIsCopy(c, s, g);
    WorkProceeds(c, s, g);
    WorkNoFault(c, s, g);
    assert Taking(s, g, p);
    NobodyReports(c, s, g, p);
    forall k ensures !Reporting(s', k, p) {
      assert Reporting(s', k, p) ==> k != g && Reporting(s, k, p);
    }
  }

  /** On the way out nobody marks, takes or reports. */
  lemma QuietRecorded(c: Config, s: State, g: Loc, p: Loc, h: History)
    requires Works(c, s, g, p, h)
    requires var ph := s.call[g].phase; ph.Leaving? || ph.Asking? || ph.WonLeaving? || ph.SignalLeaving?
    ensures Recorded(c, DoWork(c, s, g), p, h)
  {
    hide Inv, DoWork, Working;
    var s' := DoWork(c, s, g);
    MarkIsCopy(c, s, g);
    WorkProceeds(c, s, g);
    WorkNoFault(c, s, g);
    QuietUnmoved(s, s', g, p);
    if c.isCopy {
      UnmovedRecorded(c, s, s', p, h);
    } else {
      SameReports(c, s, s', p, h);
    }
  }

  lemma QuietUnmoved(s: State, s': State, g: Loc, p: Loc)
    requires g in s.call && s.call[g].Get? && Proceeds(s, s', g) && !s'.fault && s.call[g].phase.src == p
    requires var ph := s.call[g].phase; ph.Leaving? || ph.Asking? || ph.WonLeaving? || ph.SignalLeaving?
    ensures forall k :: (Taking(s, k, p) <==> Taking(s', k, p)) && (Reporting(s, k, p) <==> Reporting(s', k, p))
    ensures forall k :: Reporting(s, k, p) ==> s'.call[k].phase == s.call[k].phase
  {
  }

  lemma SameReports(c: Config, s: State, s': State, p: Loc, h: History)
    requires !c.isCopy && Recorded(c, s, p, h)
    requires forall k ::
      (Reporting(s, k, p) <==> Reporting(s', k, p)) && (Reporting(s, k, p) ==> s'.call[k].phase == s.call[k].phase)
    ensures Recorded(c, s', p, h)
  {
    hide Taking, Reporting;
  }

  lemma ReadRecorded(c: Config, s: State, g: Loc, p: Loc, h: History)
    requires Works(c, s, g, p, h) && s.call[g].phase.Reading?
    ensures Recorded(c, DoWork(c, s, g), p, h)
  {
    hide Inv, Working;
    var s' := DoWork(c, s, g);
    MarkIsCopy(c, s, g);
    assert s' == s.(call := s.call[g := WithPhase(s.call[g], Finalizing(p, h.marked))]);
    forall k | Reporting(s', k, p) ensures s'.call[k].phase.someoneMoved == h.marked {
      if k != g {
        assert Reporting(s, k, p);
      }
    }
    forall k ensures Taking(s', k, p) <==> Taking(s, k, p) {
    }
  }

  lemma MoveRecorded(c: Config, s: State, g: Loc, p: Loc, h: History)
    requires Works(c, s, g, p, h) && s.call[g].phase.Moving?
    ensures Recorded(c, DoWork(c, s, g), p, h.(taken := true))
  {
    hide Inv, DoWork, Working;
    var s' := DoWork(c, s, g);
    MarkIsCopy(c, s, g);
    WorkProceeds(c, s, g);
    WorkNoFault(c, s, g);
    assert Reporting(s', g, p);
    NobodyReports(c, s, g, p);
    forall k | Reporting(s', k, p) ensures k == g {
      assert k != g ==> Reporting(s, k, p);
    }
  }

  lemma AskRecorded(c: Config, s: State, g: Loc, p: Loc, h: History)
    requires Works(c, s, g, p, h) && s.call[g].phase.AskingLast?
    ensures Recorded(c, DoWork(c, s, g), p, h)
  {
    hide Inv, DoWork, Working;
    var s' := DoWork(c, s, g);
    MarkIsCopy(c, s, g);
    WorkProceeds(c, s, g);
    WorkNoFault(c, s, g);
    NobodyReports(c, s, g, p);
    forall k | Reporting(s', k, p) ensures k == g && !s'.call[k].phase.someoneMoved {
      assert k != g ==> Reporting(s, k, p);
    }
  }

  lemma WorkRecorded(c: Config, s: State, g: Loc, p: Loc, h: History)
    requires Works(c, s, g, p, h)
    ensures Recorded(c, DoWork(c, s, g), p, Next(s, Work(g), p, h))
  {
    hide Inv, DoWork, Recorded;
    MarkIsCopy(c, s, g);
    HistoryOf(s, g, p, h);
    match s.call[g].phase
    case Mark(_) => MarkRecorded(c, s, g, p, h);
    case Copying(_) => CopyRecorded(c, s, g, p, h);
    case Moving(_) => MoveRecorded(c, s, g, p, h);
    case Reading(_) => ReadRecorded(c, s, g, p, h);
    case AskingLast(_) => AskRecorded(c, s, g, p, h);
    case Leaving(_) => QuietRecorded(c, s, g, p, h);
    case Asking(_) => QuietRecorded(c, s, g, p, h);
    case WonLeaving(_) => QuietRecorded(c, s, g, p, h);
    case SignalLeaving(_) => QuietRecorded(c, s, g, p, h);
  }

  lemma HistoryOf(s: State, g: Loc, p: Loc, h: History)
    requires g in s.call && s.call[g].Get? && Working(s, g) && s.call[g].phase.src == p
    ensures Next(s, Work(g), p, h) == History(h.marked || s.call[g].phase.Mark?, h.taken || s.call[g].phase.Copying?
      || s.call[g].phase.Moving?)
  {
  }

  // ---------------------------------------------------------------- every step, every run

  lemma UnmovedStep(c: Config, s: State, step: Step, p: Loc)
    requires Inv(c, s) && Enabled(c, s, step) && !Arms(s, step, p) && !Finalizes(s, step, p) && !AtWork(s, step, p)
    ensures Unmoved(s, Do(c, s, step), p)
  {
    hide Inv, Unmoved, DoRecv, DoRevoke, DoFinalize, DoWork, DoSelect, Dispatched, RuleEnabled;
    if Plain(step) {
      PlainUnmoved(c, s, step, p);
    } else if step.Select? || step.Perform? || step.SendNext? {
      FiringUnmoved(c, s, step, p);
    } else {
      match step
      case Revoke(l) => RevokeUnmoved(c, s, l, p);
      case Recv(l) => RecvUnmoved(c, s, l, p);
      case Work(g) => WorkElsewhere(c, s, g, p);
      case Finalize(g) => FinalizeUnmoved(c, s, g, p);
    }
  }

  lemma StepRecorded(c: Config, s: State, step: Step, p: Loc, h: History)
    requires ConfigOk(c) && Inv(c, s) && Enabled(c, s, step) && RecordedIfBusy(c, s, p, h)
    ensures RecordedIfBusy(c, Do(c, s, step), p, Next(s, step, p, h))
  {
    hide Inv, Do, Recorded, ConfigOk, Busy;
    StepBusy(c, s, step, p);
    if Arms(s, step, p) {
      ArmsRecorded(c, s, step.slot, p);
    } else if Busy(Do(c, s, step), p) {
      if AtWork(s, step, p) {
        WorkRecorded(c, s, step.g, p, h);
        WorkIs(c, s, step.g);
      } else {
        UnmovedStep(c, s, step, p);
        UnmovedRecorded(c, s, Do(c, s, step), p, h);
      }
    }
  }

  lemma WorkIs(c: Config, s: State, g: Loc)
    requires Enabled(c, s, Work(g))
    ensures Do(c, s, Work(g)) == DoWork(c, s, g)
  {
    hide DoWork;
  }

  lemma {:induction false} RunRecorded(c: Config, s: State, steps: seq<Step>, p: Loc, h: History)
    requires ConfigOk(c) && Inv(c, s) && ValidRun(c, s, steps) && ScopedRun(c, s, steps) && RecordedIfBusy(c, s, p, h)
    ensures RecordedIfBusy(c, Run(c, s, steps), p, Since(c, s, steps, p, h))
    decreases |steps|
  {
    hide Inv, Enabled, Do, ConfigOk, RecordedIfBusy, Next, Scoped;
    if steps != [] {
      StepRecorded(c, s, steps[0], p, h);
      StepInv(c, s, steps[0]);
      RunRecorded(c, Do(c, s, steps[0]), steps[1..], p, Next(s, steps[0], p, h));
    }
  }

  /** The finalizer of a firing, of a port or of a cell, with any number of getters: all others have left, so no copy is
      outstanding, and it reports "moved" exactly if, since the firing, some getter has taken the datum. For `Copy` data
      that is to say: exactly if some getter has set the flag. */
  lemma FinalizerReports(c: Config, steps: seq<Step>, g: Loc)
    requires ConfigOk(c) && ValidRun(c, Init(c), steps) && ScopedRun(c, Init(c), steps)
    requires Enabled(c, Run(c, Init(c), steps), Finalize(g))
    ensures var s := Run(c, Init(c), steps); var p := s.call[g].phase.src;
      var h := Since(c, Init(c), steps, p, History(false, false));
            && (s.call[g].phase.someoneMoved <==> h.taken)
            && (c.isCopy ==> (h.taken <==> h.marked))
            && forall k :: k != g ==> Engaged(s, k) != Some(p)
  {
    hide Inv, ValidRun, ScopedRun, Run, Since, ConfigOk, Busy, Engaged;
    var s := Run(c, Init(c), steps);
    var p := s.call[g].phase.src;
    InitInv(c);
    InitIdle(c, p);
    RunSafe(c, Init(c), steps);
    RunRecorded(c, Init(c), steps, p, History(false, false));
    ReportingBusy(s, g, p);
    FinalizingEngaged(s, g);
    LastEngaged(c, s, g, p);
    forall k ensures !Taking(s, k, p) {
      if Taking(s, k, p) {
        ReportingBusy(s, k, p);
      }
    }
  }

  lemma InitIdle(c: Config, p: Loc)
    ensures !Busy(Init(c), p)
  {
  }
}
