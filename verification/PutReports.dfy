/** What a put is told about its datum, and where the datum then is. */
module PutReports {
  import opened Wrappers
  import opened Protocol
  import opened StepEffects
  import opened ProtocolInvariant
  import opened Linear

  /** The puts in progress whose datum is `v`. */
  function Callers(s: State, v: Val): set<Loc> { set p | p in s.call && s.call[p].Put? && s.call[p].datum == v }

  function Puts(steps: seq<Step>, v: Val): nat {
    if steps == [] then 0 else (if steps[0].BeginPut? && steps[0].v == v then 1 else 0) + Puts(steps[1..], v)
  }

  /** A put whose datum is `v` ends with this step, told so or timed out. */
  predicate Ends(s: State, step: Step, v: Val) {
    || (step.Return? && step.l in Callers(s, v))
    || (step.Revoke? && step.l in Callers(s, v) && step.l in s.ready)
  }

  function Ended(c: Config, s: State, steps: seq<Step>, v: Val): nat
    requires ValidRun(c, s, steps)
    decreases |steps|
  {
    if steps == [] then 0 else (if Ends(s, steps[0], v) then 1 else 0) + Ended(c, Do(c, s, steps[0]), steps[1..], v)
  }

  /** The value leaves, and not by way of its put: a get has returned it, or it was dropped. */
  function Onward(c: Config, s: State, step: Step): Option<Val> {
    if step.Revoke? || (step.Return? && step.l in s.call && s.call[step.l].Put?) then None else Exit(c, s, step)
  }

  function WentOn(c: Config, s: State, steps: seq<Step>, v: Val): nat
    requires ValidRun(c, s, steps)
    decreases |steps|
  {
    if steps == [] then 0 else One(Onward(c, s, steps[0]), v) + WentOn(c, Do(c, s, steps[0]), steps[1..], v)
  }

  /** A put that brings `v` in, and a put of `v` that ends. */
  function Came(step: Step, v: Val): set<Loc> { if step.BeginPut? && step.v == v then {step.p} else {} }

  function Went(s: State, step: Step, v: Val): set<Loc> { if Ends(s, step, v) then {step.l} else {} }

  lemma CallersWere(c: Config, s: State, step: Step, v: Val)
    requires Enabled(c, s, step)
    ensures Callers(Do(c, s, step), v) <= Callers(s, v) + Came(step, v) - Went(s, step, v)
  {
    hide Enabled, Do, Callers, Ends;
    forall p | p in Callers(Do(c, s, step), v) ensures p in Callers(s, v) + Came(step, v) - Went(s, step, v) {
      CallerWas(c, s, step, v, p);
    }
  }

  lemma StepCallers(c: Config, s: State, step: Step, v: Val)
    requires Enabled(c, s, step)
    ensures |Callers(Do(c, s, step), v)| + (if Ends(s, step, v) then 1 else 0) <=
            |Callers(s, v)| + (if step.BeginPut? && step.v == v then 1 else 0)
  {
    hide Enabled, Do, Callers;
    CallersWere(c, s, step, v);
    WentCalled(s, step, v);
    var all := Callers(s, v) + Came(step, v);
    SubsetSize(Callers(Do(c, s, step), v), all - Went(s, step, v));
    assert all == (all - Went(s, step, v)) + Went(s, step, v);
  }

  lemma WentCalled(s: State, step: Step, v: Val)
    ensures Went(s, step, v) <= Callers(s, v)
  {
  }

  lemma CallerWas(c: Config, s: State, step: Step, v: Val, p: Loc)
    requires Enabled(c, s, step) && p in Callers(Do(c, s, step), v)
    ensures p in Callers(s, v) || (step.BeginPut? && step.v == v && step.p == p)
    ensures !(Ends(s, step, v) && step.l == p)
  {
    StepEffect(c, s, step) by {
      hide Do, Enabled;
    }
    if Begins(step, p) {
      Begun(c, s, step, p);
    }
    if Ends(s, step, v) {
      Gone(c, s, step);
    }
  }

  lemma Begun(c: Config, s: State, step: Step, p: Loc)
    requires Enabled(c, s, step) && Begins(step, p)
    ensures var call := Do(c, s, step).call;
      p in call && if step.BeginPut? then call[p].Put? && call[p].datum == step.v else call[p].Get?
  {
  }

  lemma Gone(c: Config, s: State, step: Step)
    requires Enabled(c, s, step) && (step.Return? || (step.Revoke? && step.l in s.ready))
    ensures step.l !in Do(c, s, step).call
  {
    hide DoWork, DoRecv, DoFinalize, DoSelect, Send, FillGetters, Dispatch, Working, RuleEnabled;
  }

  lemma ExitsSplit(c: Config, s: State, step: Step, v: Val)
    ensures One(Exit(c, s, step), v) <= One(Onward(c, s, step), v) + if Ends(s, step, v) then 1 else 0
    ensures One(Onward(c, s, step), v) <= One(Exit(c, s, step), v)
    ensures step.BeginPut? ==> Entry(c, s, step) == Some(step.v)
  {
    hide FreedDatum, FillGetters;
  }

  /** Every put of `v` is in progress or has ended; what has left did so by an ended put, a get or a drop. */
  lemma {:induction false} RunCallers(c: Config, s: State, steps: seq<Step>, v: Val)
    requires ValidRun(c, s, steps)
    ensures |Callers(Run(c, s, steps), v)| + Ended(c, s, steps, v) <= |Callers(s, v)| + Puts(steps, v)
    ensures WentOn(c, s, steps, v) <= Exits(c, s, steps, v) <= WentOn(c, s, steps, v) + Ended(c, s, steps, v)
    ensures Puts(steps, v) <= Entries(c, s, steps, v)
    decreases |steps|
  {
    hide Enabled, Do, Callers, Exit, Entry, Onward, Ends;
    if steps != [] {
      StepCallers(c, s, steps[0], v);
      ExitsSplit(c, s, steps[0], v);
      RunCallers(c, Do(c, s, steps[0]), steps[1..], v);
    }
  }

  /** The put has been told, or its message is in its dropbox. */
  predicate Told(s: State, p: Loc, moved: bool) {
    && p in s.call && s.call[p].Put?
    && (s.call[p].phase == Sent(moved)
          || (BeforeMessage(s.call[p].phase) && Lookup(s.box, p) == Some(if moved then 1 else 0)))
  }

  lemma ToldStack(c: Config, s: State, p: Loc, moved: bool)
    requires Linear.Linear(c, s) && Told(s, p, moved)
    ensures StackDatum(s, p) == if moved then None else Some(s.call[p].datum)
  {
    hide Inv, Busy, Engaged;
    LinearAt(c, s, p);
  }

  /** A put told "not moved" has its datum, and it is nowhere else. A put told "moved" has lost it to one slot or one
      getter's hands, or it has gone on: a get has returned it, or it was dropped. */
  lemma PutReportsWhere(c: Config, steps: seq<Step>, p: Loc, moved: bool)
    requires ConfigOk(c) && !c.isCopy && ValidRun(c, Init(c), steps) && ScopedRun(c, Init(c), steps)
    requires var s := Run(c, Init(c), steps);
             Told(s, p, moved) && Entries(c, Init(c), steps, s.call[p].datum) == 1
    ensures var s := Run(c, Init(c), steps); var v := s.call[p].datum;
            if !moved then Places(s, v) == {OnStack(p)} && Exits(c, Init(c), steps, v) == 0
            else || (WentOn(c, Init(c), steps, v) == 1 && Places(s, v) == {})
                 || (Exits(c, Init(c), steps, v) == 0 && exists q: Place :: Places(s, v) == {q} && !q.OnStack?)
  {
    hide Linear.Linear, ConfigOk, Places, Exits, Entries, ValidRun, ScopedRun, Run, WentOn, Ended, Puts, StackDatum;
    var s := Run(c, Init(c), steps);
    var v := s.call[p].datum;
    InitLinear(c);
    Conservation(c, Init(c), steps, v);
    OnePlace(c, steps, v);
    RunCallers(c, Init(c), steps, v);
    ToldStack(c, s, p, moved);
    SoleCaller(s, v, p);
    PlacesAre(s, v, OnStack(p));
    if q: Place :| Places(s, v) == {q} {
      PlacesAre(s, v, q);
      StackIsCaller(s, v, q);
    }
  }

  lemma SoleCaller(s: State, v: Val, p: Loc)
    requires p in s.call && s.call[p].Put? && s.call[p].datum == v
    ensures |Callers(s, v)| >= 1 && (|Callers(s, v)| == 1 ==> forall q :: q in Callers(s, v) ==> q == p)
  {
    SubsetSize({p}, Callers(s, v));
    forall q | |Callers(s, v)| == 1 && q in Callers(s, v) ensures q == p {
      SubsetSize({p, q}, Callers(s, v));
    }
  }

  lemma StackIsCaller(s: State, v: Val, q: Place)
    ensures q.OnStack? && Datum(s, q) == Some(v) ==> q.p in Callers(s, v)
  {
  }
}
