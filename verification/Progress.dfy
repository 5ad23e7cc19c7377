/** No wakeup is lost, and the threads are stuck only where the rule automaton is. */
module Progress {
  import opened Wrappers
  import opened Protocol
  import opened ProtocolInvariant
  import opened ProtocolFiring
  import opened ProtocolSafety
  import opened RuleAutomaton
  import opened Refinement
  import opened RefinementFiring
  import opened Runs

  // ---------------------------------------------------------------- no lost wakeup

  /** Whenever the lock is free, no rule can fire. */
  predicate Exhausted(c: Config, s: State) {
    s.lock.Free? ==> forall i :: 0 <= i < |c.rules| ==> !RuleEnabled(s, c.rules[i])
  }

  /** Every rule does something. */
  predicate NoIdleRule(c: Config) { forall i :: 0 <= i < |c.rules| ==> c.rules[i].actions != [] }

  lemma StepExhausts(c: Config, s: State, step: Step)
    requires Exhausted(c, s) && Inv(c, s) && Enabled(c, s, step)
    ensures Exhausted(c, Do(c, s, step))
  {
    hide Inv, RuleEnabled, DoWork, DoRecv, DoFinalize, DoRevoke, FillGetters, Dispatch, Working;
    var s' := Do(c, s, step);
    if s'.lock.Free? {
      if !step.Release? {
        FreeStep(c, s, step);
      }
      forall i | 0 <= i < |c.rules| ensures !RuleEnabled(s', c.rules[i]) {
        LessReady(s, s', c.rules[i]);
      }
    }
  }

  lemma LessReady(s: State, s': State, r: Rule)
    requires !RuleEnabled(s, r) && s'.ready <= s.ready && s'.mem == s.mem
    ensures !RuleEnabled(s', r)
  {
  }

  /** Outside the lock nothing becomes ready and no memory bit changes. */
  lemma FreeStep(c: Config, s: State, step: Step)
    requires Inv(c, s) && Enabled(c, s, step) && Do(c, s, step).lock.Free? && !step.Release?
    ensures s.lock.Free? && Do(c, s, step).ready <= s.ready && Do(c, s, step).mem == s.mem
  {
    hide Inv, RuleEnabled, DoWork, DoRecv, DoFinalize, DoRevoke, FillGetters, Dispatch, Working;
    match step
    case Revoke(l) => RevokeReady(s, l);
    case Recv(l) => RecvReady(c, s, l);
    case Work(g) => WorkReady(c, s, g);
    case Finalize(g) => FinalizeReady(c, s, g);
    case _ =>
  }

  lemma RevokeReady(s: State, l: Loc)
    requires l in s.call
    ensures DoRevoke(s, l).ready <= s.ready && DoRevoke(s, l).mem == s.mem && DoRevoke(s, l).lock == s.lock
  {
    if l in s.ready {
    } else {
    }
  }

  lemma RecvReady(c: Config, s: State, l: Loc)
    requires l in s.call && l in s.box
    ensures DoRecv(c, s, l).ready == s.ready && DoRecv(c, s, l).mem == s.mem && DoRecv(c, s, l).lock == s.lock
  {
    hide RecvPhase;
    match RecvPhase(c, s.call[l], s.box[l])
    case Some(ph) =>
    case None =>
  }

  lemma WorkReady(c: Config, s: State, g: Loc)
    requires Inv(c, s) && Getting(s, g) && Working(s, g)
    ensures LockFree(s, DoWork(c, s, g))
  {
    hide Inv, DoWork, Working;
    WorkInv(c, s, g);
  }

  lemma FinalizeReady(c: Config, s: State, g: Loc)
    requires Inv(c, s) && Enabled(c, s, Finalize(g)) && DoFinalize(c, s, g).lock.Free?
    ensures s.lock.Free? && DoFinalize(c, s, g).ready <= s.ready && DoFinalize(c, s, g).mem == s.mem
  {
    hide Inv, MakeEmpty;
    FinalizeSource(c, s, g);
    if !IsMemo(c, s.call[g].phase.src) {
      FinalizedShape(c, s, g);
    }
  }

  lemma InitExhausted(c: Config)
    requires ConfigOk(c) && NoIdleRule(c)
    ensures Exhausted(c, Init(c))
  {
    forall i | 0 <= i < |c.rules| ensures !RuleEnabled(Init(c), c.rules[i]) {
      var r := c.rules[i];
      assert RuleOk(c, r);
      assert r.actions[0].putter in r.guardReady;
    }
  }

  /** In every run, each release of the lock leaves no rule that could fire, and it stays so while the lock is free. */
  lemma {:induction false} NoLostWakeup(c: Config, s: State, steps: seq<Step>)
    requires ConfigOk(c) && Inv(c, s) && Exhausted(c, s) && ValidRun(c, s, steps) && ScopedRun(c, s, steps)
    ensures Exhausted(c, Run(c, s, steps))
    decreases |steps|
  {
    hide Inv, Exhausted, Enabled, Do, ConfigOk;
    if steps != [] {
      StepInv(c, s, steps[0]);
      StepExhausts(c, s, steps[0]);
      NoLostWakeup(c, Do(c, s, steps[0]), steps[1..]);
    }
  }

  // ---------------------------------------------------------------- stuck threads

  /** Nothing can happen but new calls and timeouts. */
  ghost predicate Stuck(c: Config, s: State) {
    forall step :: Enabled(c, s, step) ==> step.BeginPut? || step.EnterGet? || step.TimeOut?
  }

  lemma StuckLock(c: Config, s: State)
    requires Stuck(c, s)
    ensures s.lock.Free?
  {
    hide Enabled;
    if s.lock.Held? {
      var step := HolderMoves(c, s);
    }
  }

  /** No getter is left inside a firing. */
  lemma StuckEngaged(c: Config, s: State, g: Loc)
    requires Inv(c, s) && Stuck(c, s)
    ensures Engaged(s, g) == None
  {
    hide Locations, Counts, Slots, Takers, LockOk, RuleEnabled, Busy;
    StuckLock(c, s);
    GoodAt(c, s, g);
    assert !Enabled(c, s, Recv(g)) && !Enabled(c, s, Revoke(g)) && !Enabled(c, s, Work(g))
      && !Enabled(c, s, Finalize(g));
  }

  lemma StuckIdle(c: Config, s: State, p: Loc)
    requires Inv(c, s) && Stuck(c, s)
    ensures !Busy(s, p)
  {
    hide Inv, Stuck, Engaged;
    if Out(s, p) != {} {
      var g :| g in Out(s, p);
      StuckEngaged(c, s, g);
      PledgeEngaged(s, g);
    }
    if Closers(s, p) != {} {
      var g :| g in Closers(s, p);
      StuckEngaged(c, s, g);
      PledgeEngaged(s, g);
    }
  }

  lemma PledgeEngaged(s: State, g: Loc)
    ensures Engaged(s, g) == None ==> Pledge(s, g) == None && Closing(s, g) == None
  {
  }

  /** When the threads are stuck, every cell is ready and every call is one of a port that waits, ready to fire. */
  lemma StuckWaits(c: Config, s: State, l: Loc)
    requires Inv(c, s) && Stuck(c, s)
    ensures s.lock.Free?
    ensures IsMemo(c, l) || l in s.call ==> l in s.ready
    ensures l in s.call ==> s.call[l].phase.Waiting?
  {
    hide Locations, Counts, Slots, Takers, LockOk, RuleEnabled, Busy;
    StuckLock(c, s);
    GoodAt(c, s, l);
    StuckIdle(c, s, l);
    StuckEngaged(c, s, l);
    assert !Enabled(c, s, EnterPut(l)) && !Enabled(c, s, Revoke(l)) && !Enabled(c, s, Recv(l))
      && !Enabled(c, s, Return(l));
    assert !Enabled(c, s, Work(l)) && !Enabled(c, s, Finalize(l));
  }

  /** A rule the automaton could fire on ready locations is one the runtime would fire. */
  lemma ReadyAgrees(c: Config, s: State, a: AState, r: Rule)
    requires Inv(c, s) && Sim(c, s, a) && RuleOk(c, r) && AEnabled(c, a, r)
    requires forall l :: IsMemo(c, l) || l in s.call ==> l in s.ready
    ensures RuleEnabled(s, r)
  {
    hide Inv, PortsMatch, PendingMatch, DataMatch, MovesMatch, ActionsOk, Putters, Getters, PortMatch;
    ActionKinds(c, r.actions);
    forall l <- r.guardReady ensures l in s.ready && (l in s.mem <==> l in r.guardFull) {
      if !IsMemo(c, l) {
        WaitingIsCalling(c, s, a, l);
      }
    }
  }

  lemma WaitingIsCalling(c: Config, s: State, a: AState, l: Loc)
    requires Inv(c, s) && Sim(c, s, a) && AWaiting(c, a, l)
    ensures l in s.call && (!IsMemo(c, l) ==> l !in s.mem)
  {
    hide Counts, Slots, Takers, Busy, LockOk, Locations, CellsMatch, PendingMatch, DataMatch, MovesMatch;
    GoodAt(c, s, l);
  }

  /** The threads of a protocol are stuck only where its rules allow no further firing. */
  lemma DeadlockIsTheProtocols(c: Config, steps: seq<Step>)
    requires ConfigOk(c) && NoIdleRule(c) && ValidRun(c, Init(c), steps) && ScopedRun(c, Init(c), steps)
    requires Stuck(c, Run(c, Init(c), steps))
    ensures Accepts(c, AInit(), Trace(c, Init(c), steps))
    ensures var a := ARun(c, AInit(), Trace(c, Init(c), steps));
            forall i :: 0 <= i < |c.rules| ==> !AEnabled(c, a, c.rules[i])
  {
    hide Inv, Sim, Exhausted, Stuck, RuleOk, RuleEnabled, AEnabled, Accepts, ARun, Trace, ValidRun, Run;
    InitInv(c);
    InitExhausted(c);
    InitSim(c);
    RunSafe(c, Init(c), steps);
    NoLostWakeup(c, Init(c), steps);
    RunRefines(c, Init(c), AInit(), steps);
    var s, a := Run(c, Init(c), steps), ARun(c, AInit(), Trace(c, Init(c), steps));
    forall i | 0 <= i < |c.rules| ensures !AEnabled(c, a, c.rules[i]) {
      StuckDisabled(c, s, a, i);
    }
  }

  lemma StuckDisabled(c: Config, s: State, a: AState, i: nat)
    requires ConfigOk(c) && Inv(c, s) && Exhausted(c, s) && Sim(c, s, a) && Stuck(c, s) && i < |c.rules|
    ensures !AEnabled(c, a, c.rules[i])
  {
    hide Inv, Sim, Stuck, RuleOk, RuleEnabled, AEnabled;
    if AEnabled(c, a, c.rules[i]) {
      forall l ensures s.lock.Free? && (IsMemo(c, l) || l in s.call ==> l in s.ready) {
        StuckWaits(c, s, l);
      }
      ReadyAgrees(c, s, a, c.rules[i]);
      StuckLock(c, s);
    }
  }
}
