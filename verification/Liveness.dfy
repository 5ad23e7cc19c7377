/** No livelock: without new calls every run ends, after a number of steps that its first state bounds, and then every
    call that a rule has fired has returned. */
module Liveness {
  import opened Wrappers
  import opened Protocol
  import opened ProtocolInvariant
  import opened ProtocolSafety
  import opened StepEffects
  import opened Runs
  import opened Outcomes
  import opened Progress
  import opened StaticScope

  // ---------------------------------------------------------------- what is left to do

  /** The steps that actions still take: performing each of them, and its messages. */
  function ActsCost(acts: seq<Action>): nat {
    if acts == [] then 0 else 1 + |acts[0].pg| + ActsCost(acts[1..])
  }

  /** The most that one firing takes. */
  function Burden(rules: seq<Rule>): nat {
    if rules == [] then 0
    else
      var rest := Burden(rules[1..]);
      if ActsCost(rules[0].actions) > rest then ActsCost(rules[0].actions) else rest
  }

  function LockCost(k: Lock): nat { if k.Free? then 0 else 1 + |k.sends| + ActsCost(k.rest) }

  /** The steps a call still takes, and those of the lock holder when it enters. */
  function Rank(call: Call, b: nat): nat {
    match call.phase
    case Starting => b + 13
    case Waiting => 10
    case Revoking => 9
    case Late => 8
    case Mark(_) => 7
    case Copying(_) => 6
    case Leaving(_) => 5
    case Reading(_) => 4
    case Asking(_) => 6
    case WonLeaving(_) => 5
    case Moving(_) => 4
    case Parked(_) => 4
    case Cloning(_) => 4
    case LostLeaving(_) => 3
    case SignalLeaving(_) => 6
    case AskingLast(_) => 5
    case Finalizing(_, _) => 3
    case Sent(_) => 1
    case Served => 1
  }

  ghost function Toil(calls: map<Loc, Call>, b: nat): nat
    decreases |calls|
  {
    if forall l :: l !in calls then 0
    else
      var l :| l in calls;
      Rank(calls[l], b) + Toil(calls - {l}, b)
  }

  /** A bound on the steps to come, new calls apart. */
  ghost function Measure(c: Config, s: State): nat {
    Toil(s.call, Burden(c.rules)) + |ReadyPorts(c, s.ready)| * (Burden(c.rules) + 1) + LockCost(s.lock)
  }

  lemma {:induction false} ToilAt(calls: map<Loc, Call>, l: Loc, b: nat)
    requires l in calls
    ensures Toil(calls, b) == Rank(calls[l], b) + Toil(calls - {l}, b)
    decreases |calls|
  {
    hide Rank;
    var k :| k in calls && Toil(calls, b) == Rank(calls[k], b) + Toil(calls - {k}, b);
    if k != l {
      ToilAt(calls - {k}, l, b);
      assert calls - {k} - {l} == calls - {l} - {k};
      ToilAt(calls - {l}, k, b);
    }
  }

  lemma ToilChange(calls: map<Loc, Call>, l: Loc, call: Call, b: nat)
    requires l in calls
    ensures Toil(calls[l := call], b) + Rank(calls[l], b) == Toil(calls, b) + Rank(call, b)
  {
    hide Rank, Toil;
    ToilAt(calls, l, b);
    ToilAt(calls[l := call], l, b);
    assert calls[l := call] - {l} == calls - {l};
  }

  lemma {:induction false} BurdenAt(rules: seq<Rule>, i: nat)
    requires i < |rules|
    ensures ActsCost(rules[i].actions) <= Burden(rules)
    decreases |rules|
  {
    if i > 0 {
      BurdenAt(rules[1..], i - 1);
    }
  }

  lemma PortsShrink(c: Config, ready: set<Loc>, ready': set<Loc>)
    requires forall l <- ready' :: l in ready || IsMemo(c, l)
    ensures |ReadyPorts(c, ready')| <= |ReadyPorts(c, ready)|
  {
    var before, after := ReadyPorts(c, ready), ReadyPorts(c, ready');
    assert before == after + (before - after);
  }

  lemma PortsGrow(c: Config, ready: set<Loc>, p: Loc)
    ensures |ReadyPorts(c, ready + {p})| <= |ReadyPorts(c, ready)| + 1
  {
    assert ReadyPorts(c, ready + {p}) <= ReadyPorts(c, ready) + {p};
    var before, after := ReadyPorts(c, ready) + {p}, ReadyPorts(c, ready + {p});
    assert before == after + (before - after);
  }

  // ---------------------------------------------------------------- every step takes some of it

  predicate NewCall(step: Step) { step.BeginPut? || step.EnterGet? }

  /** The rank sinks along every path through `acquire_data`. */
  lemma FollowsRank(call: Call, call': Call, b: nat)
    requires Follows(call.phase, call'.phase)
    ensures Rank(call', b) < Rank(call, b)
    ensures call'.phase.Finalizing? || Rank(call', b) >= 1
  {
  }

  lemma FiringMeasure(c: Config, s: State, step: Step)
    requires ConfigOk(c) && PortRules(c) && ActionsOk(c, Rest(s.lock)) && Enabled(c, s, step) && Firing(step)
    ensures Measure(c, Do(c, s, step)) < Measure(c, s)
  {
    hide Do, ConfigOk, PortRules, ActionsOk, ReadyPorts, RuleEnabled, Toil, Burden, Working;
    FiringReady(c, s, step);
    FiringEffect(c, s, step);
    if step.Select? {
      FewerPorts(c, s, step.i);
      BurdenAt(c.rules, step.i);
      LighterPorts(|ReadyPorts(c, Do(c, s, step).ready)|, |ReadyPorts(c, s.ready)|, Burden(c.rules) + 1);
    }
  }

  lemma {:induction false} TimesGrows(n: nat, m: nat, k: nat)
    requires n <= m
    ensures n * k <= m * k
    decreases m - n
  {
    if n < m {
      TimesGrows(n, m - 1, k);
      OneTimeMore(m - 1, k);
    }
  }

  lemma OneTimeMore(n: nat, k: nat)
    ensures (n + 1) * k == n * k + k
  {
  }

  lemma LighterPorts(n: nat, m: nat, k: nat)
    ensures n < m ==> n * k + k <= m * k
    ensures n <= m ==> n * k <= m * k
    ensures n <= m + 1 ==> n * k <= m * k + k
  {
    OneTimeMore(n, k);
    OneTimeMore(m, k);
    if n < m {
      TimesGrows(n + 1, m, k);
    }
    if n <= m + 1 {
      TimesGrows(n, m + 1, k);
    }
    if n <= m {
      TimesGrows(n, m, k);
    }
  }

  /** Of one call's own step: its rank sinks by more than what it adds to the ports and to the lock. */
  lemma CallMeasure(c: Config, s: State, s': State, l: Loc)
    requires l in s.call && l in s'.call && s'.call == s.call[l := s'.call[l]]
    requires forall k <- s'.ready :: k in s.ready || IsMemo(c, k)
    requires Rank(s'.call[l], Burden(c.rules)) + LockCost(s'.lock) < Rank(s.call[l], Burden(c.rules)) + LockCost(s.lock)
    ensures Measure(c, s') < Measure(c, s)
  {
    hide Toil, Burden, Rank, LockCost, ReadyPorts;
    ToilChange(s.call, l, s'.call[l], Burden(c.rules));
    PortsShrink(c, s.ready, s'.ready);
    LighterPorts(|ReadyPorts(c, s'.ready)|, |ReadyPorts(c, s.ready)|, Burden(c.rules) + 1);
  }

  lemma EnterMeasure(c: Config, s: State, p: Loc)
    requires Enabled(c, s, EnterPut(p))
    ensures Measure(c, Do(c, s, EnterPut(p))) < Measure(c, s)
  {
    hide Toil, Burden, ReadyPorts, RuleEnabled;
    var s' := Do(c, s, EnterPut(p));
    ToilChange(s.call, p, s'.call[p], Burden(c.rules));
    PortsGrow(c, s.ready, p);
    LighterPorts(|ReadyPorts(c, s'.ready)|, |ReadyPorts(c, s.ready)|, Burden(c.rules) + 1);
  }

  lemma GoneMeasure(c: Config, s: State, s': State, l: Loc)
    requires l in s.call && s'.call == s.call - {l} && s'.lock == s.lock && s'.ready <= s.ready
    requires Rank(s.call[l], Burden(c.rules)) >= 1
    ensures Measure(c, s') < Measure(c, s)
  {
    hide Toil, Burden, Rank, LockCost, ReadyPorts;
    ToilAt(s.call, l, Burden(c.rules));
    PortsShrink(c, s.ready, s'.ready);
    LighterPorts(|ReadyPorts(c, s'.ready)|, |ReadyPorts(c, s.ready)|, Burden(c.rules) + 1);
  }

  lemma RevokeMeasure(c: Config, s: State, l: Loc)
    requires Enabled(c, s, Revoke(l))
    ensures Measure(c, DoRevoke(s, l)) < Measure(c, s)
  {
    hide Measure, DoRevoke, Burden, RuleEnabled, Rank, LockCost;
    RevokeEffect(s, l);
    LateRank(s.call[l], Burden(c.rules));
    if l in s.ready {
      GoneMeasure(c, s, DoRevoke(s, l), l);
    } else {
      CallMeasure(c, s, DoRevoke(s, l), l);
    }
  }

  lemma LateRank(call: Call, b: nat)
    requires call.phase.Revoking?
    ensures Rank(WithPhase(call, Late), b) < Rank(call, b) && Rank(call, b) >= 1
  {
  }

  lemma RecvMeasure(c: Config, s: State, l: Loc)
    requires Enabled(c, s, Recv(l)) && !DoRecv(c, s, l).fault
    ensures Measure(c, DoRecv(c, s, l)) < Measure(c, s)
  {
    hide Measure, DoRecv, RecvPhase, Burden, RuleEnabled;
    RecvEffect(c, s, l);
    MessageRank(c, s.call[l], s.box[l], Burden(c.rules));
    CallMeasure(c, s, DoRecv(c, s, l), l);
  }

  lemma MessageRank(c: Config, call: Call, msg: int, b: nat)
    requires RecvPhase(c, call, msg).Some?
    ensures Rank(WithPhase(call, RecvPhase(c, call, msg).value), b) <= 7
  {
  }

  lemma WorkMeasure(c: Config, s: State, g: Loc)
    requires Enabled(c, s, Work(g)) && !DoWork(c, s, g).fault
    ensures Measure(c, DoWork(c, s, g)) < Measure(c, s)
  {
    hide Measure, DoWork, Burden, Rank, Follows, Working, LockCost, RuleEnabled, SourceOnly;
    WorkProceeds(c, s, g);
    FollowsRank(s.call[g], DoWork(c, s, g).call[g], Burden(c.rules));
    CallMeasure(c, s, DoWork(c, s, g), g);
  }

  lemma FinalizeMeasure(c: Config, s: State, g: Loc)
    requires Enabled(c, s, Finalize(g))
    ensures Measure(c, DoFinalize(c, s, g)) < Measure(c, s)
  {
    hide Measure, DoFinalize, MakeEmpty, Burden, RuleEnabled;
    if IsMemo(c, s.call[g].phase.src) {
      FinalizeCellEffect(c, s, g);
    } else {
      FinalizePortEffect(c, s, g);
    }
    CallMeasure(c, s, DoFinalize(c, s, g), g);
  }

  lemma PlainMeasure(c: Config, s: State, step: Step)
    requires Enabled(c, s, step) && (step.Release? || step.TimeOut? || step.Return?)
    ensures Measure(c, Do(c, s, step)) < Measure(c, s)
  {
    hide Measure, Burden, RuleEnabled;
    match step
    case Release => ReleaseMeasure(c, s);
    case TimeOut(l) => CallMeasure(c, s, Do(c, s, step), l);
    case Return(l) => GoneMeasure(c, s, Do(c, s, step), l);
  }

  lemma ReleaseMeasure(c: Config, s: State)
    requires Enabled(c, s, Release)
    ensures Measure(c, Do(c, s, Release)) < Measure(c, s)
  {
    hide Toil, Burden, RuleEnabled, ReadyPorts;
  }

  lemma StepMeasure(c: Config, s: State, step: Step)
    requires ConfigOk(c) && PortRules(c) && Inv(c, s) && Enabled(c, s, step) && Scoped(c, s, step) && !NewCall(step)
    ensures Measure(c, Do(c, s, step)) < Measure(c, s)
  {
    hide Inv, Measure, ConfigOk, PortRules, DoWork, DoRecv, DoFinalize, DoRevoke, Scoped, RuleEnabled, FillGetters,
      Dispatch, Dispatched;
    StepInv(c, s, step);
    NoFault(c, Do(c, s, step));
    RestOk(c, s);
    match step
    case EnterPut(p) => EnterMeasure(c, s, p);
    case Select(i) => FiringMeasure(c, s, step);
    case Perform(slot) => FiringMeasure(c, s, step);
    case SendNext => FiringMeasure(c, s, step);
    case Revoke(l) => RevokeMeasure(c, s, l);
    case Recv(l) => RecvMeasure(c, s, l);
    case Work(g) => WorkMeasure(c, s, g);
    case Finalize(g) => FinalizeMeasure(c, s, g);
    case _ => PlainMeasure(c, s, step);
  }

  lemma RestOk(c: Config, s: State)
    requires Inv(c, s)
    ensures ActionsOk(c, Rest(s.lock))
  {
    hide Locations, Counts, Slots, Takers;
  }

  predicate NoNewCalls(steps: seq<Step>) { forall i :: 0 <= i < |steps| ==> !NewCall(steps[i]) }

  /** If every rule involves a port, a run without new calls has at most as many steps as its first state's measure. */
  lemma {:induction false} RunsBounded(c: Config, s: State, steps: seq<Step>)
    requires ConfigOk(c) && PortRules(c) && Inv(c, s) && ValidRun(c, s, steps) && ScopedRun(c, s, steps)
    requires NoNewCalls(steps)
    ensures |steps| + Measure(c, Run(c, s, steps)) <= Measure(c, s)
    decreases |steps|
  {
    hide Inv, Enabled, Do, Scoped, ConfigOk, PortRules, Measure;
    if steps != [] {
      assert !NewCall(steps[0]);
      StepMeasure(c, s, steps[0]);
      StepInv(c, s, steps[0]);
      RunsBounded(c, Do(c, s, steps[0]), steps[1..]);
    }
  }

  // ---------------------------------------------------------------- fired calls return

  /** A rule has taken the call's readiness. */
  predicate FiredCall(s: State, l: Loc) { l in s.call && l !in s.ready && !s.call[l].phase.Starting? }

  /** Only cells become ready, and puts that enter. */
  lemma ReadyGains(c: Config, s: State, step: Step, l: Loc)
    requires ConfigOk(c) && ActionsOk(c, Rest(s.lock)) && Enabled(c, s, step) && !NewCall(step)
    requires l in Do(c, s, step).ready
    ensures l in s.ready || IsMemo(c, l) || step == EnterPut(l)
  {
    hide ConfigOk, ActionsOk, DoWork, DoRecv, DoFinalize, DoRevoke, RuleEnabled, FillGetters, Dispatch, Dispatched,
      DoSelect, Send,
      RecvPhase, MakeEmpty, SourceOnly, Working;
    if Firing(step) {
      FiringGains(c, s, step, l);
    } else {
      match step
      case Revoke(k) => RevokeEffect(s, k);
      case Recv(k) => RecvEffect(c, s, k);
      case Work(g) => WorkProceeds(c, s, g);
      case Finalize(g) =>
        if IsMemo(c, s.call[g].phase.src) {
          FinalizeCellEffect(c, s, g);
        } else {
          FinalizePortEffect(c, s, g);
        }
      case _ =>
    }
  }

  lemma FiringGains(c: Config, s: State, step: Step, l: Loc)
    requires ConfigOk(c) && ActionsOk(c, Rest(s.lock)) && Enabled(c, s, step) && Firing(step)
    requires l in Do(c, s, step).ready
    ensures l in s.ready || IsMemo(c, l)
  {
    hide ConfigOk, ActionsOk, Do, RuleEnabled;
    FiringReady(c, s, step);
    if !step.Select? {
      assert !IsMemo(c, l) ==> l in ReadyPorts(c, Do(c, s, step).ready);
    }
  }

  /** The call goes on, or returns. */
  lemma StepFired(c: Config, s: State, step: Step, l: Loc)
    requires ConfigOk(c) && Inv(c, s) && Enabled(c, s, step) && !NewCall(step) && FiredCall(s, l)
    ensures FiredCall(Do(c, s, step), l) || step == Return(l)
  {
    hide Inv, Do, ConfigOk;
    RestOk(c, s);
    NotACell(c, s, l);
    if l in Do(c, s, step).ready {
      ReadyGains(c, s, step, l) by {
        hide Enabled;
      }
    }
    if OwnStep(step, l) {
      OwnFired(c, s, step, l);
    } else {
      OtherCall(c, s, step, l) by {
        hide Enabled;
      }
      assert Lookup(Do(c, s, step).call, l) == Some(s.call[l]);
    }
  }

  lemma NotACell(c: Config, s: State, l: Loc)
    requires Inv(c, s) && l in s.call
    ensures !IsMemo(c, l)
  {
    hide Locations, Counts, Slots, Takers, LockOk;
    GoodAt(c, s, l);
  }

  lemma OwnFired(c: Config, s: State, step: Step, l: Loc)
    requires Inv(c, s) && Enabled(c, s, step) && !NewCall(step) && FiredCall(s, l) && OwnStep(step, l)
    ensures step == Return(l) || (l in Do(c, s, step).call && !Do(c, s, step).call[l].phase.Starting?)
  {
    hide Inv, DoWork, DoRecv, DoFinalize, DoRevoke, RuleEnabled, RecvPhase, MakeEmpty, SourceOnly, Working, Follows;
    match step
    case Revoke(k) => RevokeEffect(s, k);
    case Recv(k) =>
      RecvEffect(c, s, k);
      MessageSane(c, s.call[k], s.box[k]);
    case Work(g) =>
      WorkProceeds(c, s, g);
      if Follows(s.call[g].phase, DoWork(c, s, g).call[g].phase) {
        FollowsSource(s.call[g].phase, DoWork(c, s, g).call[g].phase);
      }
    case Finalize(g) =>
      if IsMemo(c, s.call[g].phase.src) {
        FinalizeCellEffect(c, s, g);
      } else {
        FinalizePortEffect(c, s, g);
      }
    case _ =>
  }

  predicate Returned(steps: seq<Step>, l: Loc) { exists i :: 0 <= i < |steps| && steps[i] == Return(l) }

  lemma {:induction false} FiredUntilReturn(c: Config, s: State, steps: seq<Step>, l: Loc)
    requires ConfigOk(c) && Inv(c, s) && ValidRun(c, s, steps) && ScopedRun(c, s, steps) && NoNewCalls(steps)
    requires FiredCall(s, l)
    ensures FiredCall(Run(c, s, steps), l) || Returned(steps, l)
    decreases |steps|
  {
    hide Inv, Enabled, Do, Scoped, ConfigOk, FiredCall;
    if steps != [] {
      assert !NewCall(steps[0]);
      StepFired(c, s, steps[0], l);
      StepInv(c, s, steps[0]);
      if steps[0] != Return(l) {
        FiredUntilReturn(c, Do(c, s, steps[0]), steps[1..], l);
        if Returned(steps[1..], l) {
          var i :| 0 <= i < |steps[1..]| && steps[1..][i] == Return(l);
          assert steps[i + 1] == Return(l);
        }
      }
    }
  }

  /** When a run without new calls can go no further, every call that was fired has returned. */
  lemma FiredReturns(c: Config, s: State, steps: seq<Step>, l: Loc)
    requires ConfigOk(c) && Inv(c, s) && ValidRun(c, s, steps) && ScopedRun(c, s, steps) && NoNewCalls(steps)
    requires Stuck(c, Run(c, s, steps)) && FiredCall(s, l)
    ensures Returned(steps, l)
  {
    hide Inv, ConfigOk, ScopedRun, ValidRun, Run, Stuck;
    FiredUntilReturn(c, s, steps, l);
    RunSafe(c, s, steps);
    StuckWaits(c, Run(c, s, steps), l);
  }

  /** The threads of a tame protocol can always go on until nothing is left to do; by the bound above no schedule keeps
      them from it. */
  lemma {:induction false} RunsOut(c: Config, quiet: set<Loc>, s: State) returns (steps: seq<Step>)
    requires ConfigOk(c) && PortRules(c) && TameRules(c, quiet) && Tame(c, quiet, s)
    ensures ValidRun(c, s, steps) && ScopedRun(c, s, steps) && NoNewCalls(steps) && Stuck(c, Run(c, s, steps))
    decreases Measure(c, s)
  {
    hide Inv, Enabled, Do, Scoped, ConfigOk, PortRules, TameRules, Measure, TameRest, Quiet, Unshared, NewCall;
    if step :| Enabled(c, s, step) && !(step.BeginPut? || step.EnterGet? || step.TimeOut?) {
      OldCall(step);
      StepTame(c, quiet, s, step);
      StepMeasure(c, s, step);
      var more := RunsOut(c, quiet, Do(c, s, step));
      steps := [step] + more;
      assert steps[0] == step && steps[1..] == more;
    } else {
      steps := [];
    }
  }

  lemma OldCall(step: Step)
    requires !step.BeginPut? && !step.EnterGet?
    ensures !NewCall(step) && forall quiet :: Respects(quiet, step)
  {
  }
}
