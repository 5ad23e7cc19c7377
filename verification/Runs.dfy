/** Runs put together, and what the lock holder's part of a run can come to. */
module Runs {
  import opened Protocol
  import opened StepEffects

  /** Steps that the lock holder takes while firing. */
  predicate Firing(step: Step) { step.Select? || step.Perform? || step.SendNext? }

  predicate AllFiring(steps: seq<Step>) { forall i :: 0 <= i < |steps| ==> Firing(steps[i]) }

  function Selections(steps: seq<Step>): nat {
    if steps == [] then 0 else (if steps[0].Select? then 1 else 0) + Selections(steps[1..])
  }

  /** The ports that are ready. */
  function ReadyPorts(c: Config, ready: set<Loc>): set<Loc> { set l | l in ready && !IsMemo(c, l) }

  /** Every rule involves a port. */
  predicate PortRules(c: Config) {
    forall i :: 0 <= i < |c.rules| ==> exists l :: l in c.rules[i].guardReady && !IsMemo(c, l)
  }

  /** `s'` is reached from `s` by firing steps alone. */
  ghost predicate Reaches(c: Config, s: State, steps: seq<Step>, s': State) {
    ValidRun(c, s, steps) && AllFiring(steps) && Run(c, s, steps) == s'
  }

  lemma {:induction false} RunOn(c: Config, s: State, steps: seq<Step>, more: seq<Step>)
    requires ValidRun(c, s, steps) && ValidRun(c, Run(c, s, steps), more)
    ensures ValidRun(c, s, steps + more) && Run(c, s, steps + more) == Run(c, Run(c, s, steps), more)
    ensures Selections(steps + more) == Selections(steps) + Selections(more)
    decreases |steps|
  {
    hide Enabled, Do;
    if steps == [] {
      assert steps + more == more;
    } else {
      assert (steps + more)[0] == steps[0] && (steps + more)[1..] == steps[1..] + more;
      RunOn(c, Do(c, s, steps[0]), steps[1..], more);
    }
  }

  /** A run up to one of its steps, and the step. */
  lemma {:induction false} RunUpTo(c: Config, s: State, steps: seq<Step>, k: nat)
    requires ValidRun(c, s, steps) && k < |steps|
    ensures ValidRun(c, s, steps[..k]) && Enabled(c, Run(c, s, steps[..k]), steps[k])
    ensures ValidRun(c, s, steps[..k + 1]) && Run(c, s, steps[..k + 1]) == Do(c, Run(c, s, steps[..k]), steps[k])
    ensures ScopedRun(c, s, steps) ==> ScopedRun(c, s, steps[..k]) && ScopedRun(c, s, steps[..k + 1])
    decreases |steps|
  {
    hide Enabled, Do, Scoped;
    if k > 0 {
      var s', tail := Do(c, s, steps[0]), steps[1..];
      RunUpTo(c, s', tail, k - 1);
      assert steps[..k][1..] == tail[..k - 1] && steps[..k + 1][1..] == tail[..k];
    } else {
      OneStep(c, s, steps[0]);
      assert steps[..0] == [] && steps[..1] == [steps[0]];
      assert [steps[0]][1..] == [];
    }
  }

  lemma ReachesOn(c: Config, s: State, steps: seq<Step>, s1: State, more: seq<Step>, s2: State)
    requires Reaches(c, s, steps, s1) && Reaches(c, s1, more, s2)
    ensures Reaches(c, s, steps + more, s2) && Selections(steps + more) == Selections(steps) + Selections(more)
  {
    hide ValidRun, Run;
    RunOn(c, s, steps, more);
  }

  lemma ReachesNone(c: Config, s: State)
    ensures Reaches(c, s, [], s) && Selections([]) == 0
  {
  }

  lemma FiringStep(c: Config, s: State, step: Step)
    requires Enabled(c, s, step) && Firing(step)
    ensures Reaches(c, s, [step], Do(c, s, step))
    ensures Selections([step]) == if step.Select? then 1 else 0
  {
    OneStep(c, s, step);
    assert [step][1..] == [];
  }

  lemma OneStep(c: Config, s: State, step: Step)
    requires Enabled(c, s, step)
    ensures ValidRun(c, s, [step]) && Run(c, s, [step]) == Do(c, s, step)
  {
    hide Enabled, Do;
    var s' := Do(c, s, step);
    assert [step][0] == step && [step][1..] == [];
    assert ValidRun(c, s', []) && Run(c, s', []) == s';
  }

  /** A step, firings, a step. */
  lemma CriticalSection(c: Config, s: State, enter: Step, steps: seq<Step>, s2: State)
    requires Enabled(c, s, enter) && Reaches(c, Do(c, s, enter), steps, s2) && Enabled(c, s2, Release)
    ensures var run := [enter] + steps + [Release];
            ValidRun(c, s, run) && Run(c, s, run) == Do(c, s2, Release) && AllFiring(steps)
  {
    hide Enabled, Do;
    var run := steps + [Release];
    assert [Release][0] == Release && [Release][1..] == [];
    assert ValidRun(c, Do(c, s2, Release), []);
    assert ValidRun(c, s2, [Release]) && Run(c, s2, [Release]) == Run(c, Do(c, s2, Release), []);
    RunOn(c, Do(c, s, enter), steps, [Release]);
    var all := [enter] + steps + [Release];
    assert all[0] == enter && all[1..] == run;
  }

  // ---------------------------------------------------------------- the lock holder's next step

  lemma UnusedSlot(store: map<Ptr, Val>) returns (slot: Ptr)
    ensures slot !in store
  {
    var top := MaxKey(store.Keys);
    slot := top + 1;
  }

  lemma MaxKey(xs: set<int>) returns (top: int)
    ensures forall x <- xs :: x <= top
  {
    if x :| x in xs {
      var rest := MaxKey(xs - {x});
      top := if x > rest then x else rest;
      assert forall y <- xs :: y == x || y in xs - {x};
    } else {
      top := 0;
    }
  }

  lemma FirstEnabled(c: Config, s: State, n: nat) returns (i: nat)
    requires n <= |c.rules|
    ensures i <= n && (forall j :: 0 <= j < i ==> !RuleEnabled(s, c.rules[j])) && (i < n ==> RuleEnabled(s, c.rules[i]))
  {
    hide RuleEnabled;
    i := 0;
    while i < n && !RuleEnabled(s, c.rules[i])
      invariant i <= n && forall j :: 0 <= j < i ==> !RuleEnabled(s, c.rules[j])
    {
      i := i + 1;
    }
  }

  /** The lock holder always has a next step. */
  lemma HolderMoves(c: Config, s: State) returns (step: Step)
    requires s.lock.Held?
    ensures Enabled(c, s, step) && (step.SendNext? || step.Perform? || step.Select? || step.Release?)
  {
    hide RuleEnabled, Working;
    if s.lock.sends != [] {
      step := SendNext;
    } else if s.lock.rest != [] {
      var slot := UnusedSlot(s.store);
      step := Perform(slot);
    } else {
      var i := FirstEnabled(c, s, |c.rules|);
      step := if i < |c.rules| then Select(i) else Release;
    }
  }

  /** Whenever a rule is selected, no rule before it could have been. */
  ghost predicate FirstServed(c: Config, s: State, steps: seq<Step>)
    requires ValidRun(c, s, steps)
  {
    forall k: nat, i: nat :: k < |steps| && steps[k] == Select(i) ==>
      && ValidRun(c, s, steps[..k]) && i < |c.rules| && RuleEnabled(Run(c, s, steps[..k]), c.rules[i])
      && forall j :: 0 <= j < i ==> !RuleEnabled(Run(c, s, steps[..k]), c.rules[j])
  }

  /** In every run it is always the first enabled rule that fires. */
  lemma FirstRuleFires(c: Config, s: State, steps: seq<Step>)
    requires ValidRun(c, s, steps)
    ensures FirstServed(c, s, steps)
  {
    hide RuleEnabled, ValidRun, Run;
    forall k: nat, i: nat | k < |steps| && steps[k] == Select(i)
      ensures ValidRun(c, s, steps[..k]) && i < |c.rules| && RuleEnabled(Run(c, s, steps[..k]), c.rules[i])
      ensures forall j :: 0 <= j < i ==> !RuleEnabled(Run(c, s, steps[..k]), c.rules[j])
    {
      RunUpTo(c, s, steps, k);
    }
  }

  lemma ReachesFirst(c: Config, s: State, steps: seq<Step>, s': State)
    requires Reaches(c, s, steps, s')
    ensures ValidRun(c, s, steps) && FirstServed(c, s, steps)
  {
    hide ValidRun, Run, FirstServed;
    FirstRuleFires(c, s, steps);
  }

  /** A rule is enabled exactly if its guard holds, all locations of its actions are ready, the cells it takes from are
      full, and the cells it fills are empty. */
  lemma EnabledMeans(c: Config, s: State, r: Rule)
    requires RuleOk(c, r) && forall m <- s.mem :: IsMemo(c, m)
    ensures RuleEnabled(s, r) <==>
            && r.guard(s.mem)
            && forall a <- r.actions ::
                 && a.putter in s.ready && (IsMemo(c, a.putter) ==> a.putter in s.mem)
                 && (forall m <- a.mg :: m in s.ready && m !in s.mem)
                 && (forall g <- a.pg :: g in s.ready)
  {
    EnabledBy(c, s, r.actions);
  }

  lemma {:induction false} EnabledBy(c: Config, s: State, acts: seq<Action>)
    requires ActionsOk(c, acts) && forall m <- s.mem :: IsMemo(c, m)
    ensures (forall l <- Locs(acts) :: l in s.ready && (l in s.mem <==> l in Memos(c, Putters(acts)))) <==>
            forall a <- acts ::
              && a.putter in s.ready && (IsMemo(c, a.putter) ==> a.putter in s.mem)
              && (forall m <- a.mg :: m in s.ready && m !in s.mem)
              && (forall g <- a.pg :: g in s.ready)
  {
    hide Locs, Touched;
    if acts == [] {
      NoLocs();
    } else {
      var a, tail := acts[0], acts[1..];
      EnabledBy(c, s, tail);
      FirstEnabledBy(c, s, a);
      LocsSplit(c, acts);
      assert acts == [a] + tail;
    }
  }

  lemma NoLocs()
    ensures Locs([]) == {}
  {
  }

  /** The first action's locations and those of the others are apart. */
  lemma LocsSplit(c: Config, acts: seq<Action>)
    requires ActionsOk(c, acts) && acts != []
    ensures Locs(acts) == Touched(acts[0]) + Locs(acts[1..])
    ensures forall l <- Touched(acts[0]) :: l in Memos(c, Putters(acts)) <==> l == acts[0].putter && IsMemo(c, l)
    ensures forall l <- Locs(acts[1..]) :: l in Memos(c, Putters(acts)) <==> l in Memos(c, Putters(acts[1..]))
  {
    hide ActionOk;
    assert acts[0].putter in Touched(acts[0]);
    assert Putters(acts) == {acts[0].putter} + Putters(acts[1..]);
  }

  lemma FirstEnabledBy(c: Config, s: State, a: Action)
    requires ActionOk(c, a) && forall m <- s.mem :: IsMemo(c, m)
    ensures (forall l <- Touched(a) :: l in s.ready && (l in s.mem <==> l == a.putter && IsMemo(c, l))) <==>
            && a.putter in s.ready && (IsMemo(c, a.putter) ==> a.putter in s.mem)
            && (forall m <- a.mg :: m in s.ready && m !in s.mem)
            && (forall g <- a.pg :: g in s.ready)
  {
    assert a.putter in Touched(a) && (forall m <- a.mg :: m in Touched(a)) && forall g <- a.pg :: g in Touched(a);
  }

  lemma StepCellsFull(c: Config, s: State, step: Step)
    requires ConfigOk(c) && Enabled(c, s, step) && forall m <- s.mem :: IsMemo(c, m)
    ensures forall m <- Do(c, s, step).mem :: IsMemo(c, m)
  {
    hide RuleEnabled, Working, DoSelect, Send, FillGetters, Dispatch, Dispatched, DoRevoke, DoRecv, DoWork, DoFinalize,
      ActionsOk;
    if Plain(step) {
      PlainEffect(c, s, step);
    } else if step.Select? {
      SelectEffect(s, c.rules[step.i]);
      assert RuleOk(c, c.rules[step.i]);
    } else if step.SendNext? {
      SendLeaves(s, s.lock.sends[0], s.lock.src);
    } else if step.Perform? {
      PerformTransfers(c, s, step.slot);
    } else {
      AfterEffect(c, s, step);
    }
  }

  /** Only cells are ever full. */
  lemma {:induction false} OnlyCellsFull(c: Config, s: State, steps: seq<Step>)
    requires ConfigOk(c) && ValidRun(c, s, steps) && forall m <- s.mem :: IsMemo(c, m)
    ensures forall m <- Run(c, s, steps).mem :: IsMemo(c, m)
    decreases |steps|
  {
    hide Enabled, Do, ConfigOk;
    if steps != [] {
      StepCellsFull(c, s, steps[0]);
      OnlyCellsFull(c, Do(c, s, steps[0]), steps[1..]);
    }
  }

  // ---------------------------------------------------------------- how long the lock holder can go on

  /** A selected rule takes at least one ready port. */
  lemma FewerPorts(c: Config, s: State, i: nat)
    requires PortRules(c) && Enabled(c, s, Select(i))
    ensures |ReadyPorts(c, s.ready - c.rules[i].guardReady)| < |ReadyPorts(c, s.ready)|
  {
    var r := c.rules[i];
    var before, after := ReadyPorts(c, s.ready), ReadyPorts(c, s.ready - r.guardReady);
    var l :| l in r.guardReady && !IsMemo(c, l);
    assert l in before && l !in after && after <= before;
    assert before == after + (before - after);
  }

  /** The actions left to perform are sound; a firing makes no port ready. */
  lemma FiringReady(c: Config, s: State, step: Step)
    requires ConfigOk(c) && ActionsOk(c, Rest(s.lock)) && Enabled(c, s, step) && Firing(step)
    ensures ActionsOk(c, Rest(Do(c, s, step).lock))
    ensures !step.Select? ==> ReadyPorts(c, Do(c, s, step).ready) == ReadyPorts(c, s.ready)
    ensures step.Select? ==> Do(c, s, step).ready == s.ready - c.rules[step.i].guardReady
  {
    hide RuleEnabled, DoSelect, Send, Dispatched, FillGetters, Dispatch, ActionsOk;
    match step
    case Select(i) =>
      SelectEffect(s, c.rules[i]);
      assert RuleOk(c, c.rules[i]);
    case SendNext => SendLeaves(s, s.lock.sends[0], s.lock.src);
    case Perform(slot) =>
      PerformTransfers(c, s, slot);
      FirstAction(c, s.lock.rest);
  }

  lemma FirstAction(c: Config, acts: seq<Action>)
    requires ActionsOk(c, acts) && acts != []
    ensures ActionOk(c, acts[0]) && ActionsOk(c, acts[1..])
  {
  }

  /** If every rule involves a port, the holder fires at most as many rules as there are ready ports. */
  lemma {:induction false} PortsBound(c: Config, s: State, steps: seq<Step>)
    requires ConfigOk(c) && PortRules(c) && ActionsOk(c, Rest(s.lock)) && ValidRun(c, s, steps) && AllFiring(steps)
    ensures Selections(steps) + |ReadyPorts(c, Run(c, s, steps).ready)| <= |ReadyPorts(c, s.ready)|
    ensures ActionsOk(c, Rest(Run(c, s, steps).lock))
    decreases |steps|
  {
    hide Enabled, Do, ConfigOk, PortRules, ActionsOk, ReadyPorts;
    if steps != [] {
      var s' := Do(c, s, steps[0]);
      FiringReady(c, s, steps[0]);
      if steps[0].Select? {
        FewerPorts(c, s, steps[0].i);
      }
      PortsBound(c, s', steps[1..]);
    }
  }

  /** From `s`, the holder can fire at most `bound` rules, and every action it comes to is in scope. */
  ghost predicate Tractable(c: Config, s: State, bound: nat) {
    forall steps, s' :: Reaches(c, s, steps, s') ==>
      && Selections(steps) <= bound
      && (s'.lock.Held? && s'.lock.sends == [] && s'.lock.rest != [] ==> InScope(c, s', s'.lock.rest[0]))
  }

  lemma TractableOn(c: Config, s: State, bound: nat, steps: seq<Step>, s1: State)
    requires Tractable(c, s, bound) && Reaches(c, s, steps, s1)
    ensures Selections(steps) <= bound && Tractable(c, s1, bound - Selections(steps))
  {
    hide InScope, Selections;
    forall more, s2 | Reaches(c, s1, more, s2)
      ensures Selections(more) <= bound - Selections(steps)
      ensures s2.lock.Held? && s2.lock.sends == [] && s2.lock.rest != [] ==> InScope(c, s2, s2.lock.rest[0])
    {
      ReachesOn(c, s, steps, s1, more, s2);
    }
  }

  lemma TractableHere(c: Config, s: State, bound: nat)
    requires Tractable(c, s, bound)
    ensures s.lock.Held? && s.lock.sends == [] && s.lock.rest != [] ==> InScope(c, s, s.lock.rest[0])
  {
    hide InScope;
    ReachesNone(c, s);
  }
}
