/** Guarded ternary assignments and their sequential composition (graveyard6/rbpa.rs). */
module AbstractRules {
  import opened Wrappers
  import opened StateSets

  type Port = nat

  /** A rule fires on states of its guard, at one port or silently, and assigns the specific variables of `assign`. */
  datatype AbstractRule = AbstractRule(guard: StateSet, port: Option<Port>, assign: StateSet, ids: seq<nat>) {
    predicate Silent() { port.None? }

    /** A generic assignment leaves a generic guard's variable alone. */
    predicate Wf(n: nat) {
      |guard| == n && |assign| == n && forall i :: 0 <= i < n ==> assign[i].X? ==> guard[i].X?
    }
  }

  // ---------------------------------------------------------------- meaning

  function ApplyVar(g: Var, a: Var, v: Var): Var { if !a.X? then a else if !g.X? then g else v }

  predicate Fits(r: AbstractRule, s: StateSet)
    requires |r.guard| == |s|
  {
    forall i :: 0 <= i < |s| ==> !Mismatches(r.guard[i], s[i])
  }

  /** The states a rule leads to from those of `s` that it can fire on, if there are any. */
  function Applied(r: AbstractRule, s: StateSet): (t: Option<StateSet>)
    requires |r.guard| == |s| && |r.assign| == |s|
    ensures t.Some? ==> |t.value| == |s|
  {
    if Fits(r, s) then Some(seq(|s|, i requires 0 <= i < |s| => ApplyVar(r.guard[i], r.assign[i], s[i]))) else None
  }

  method Apply(r: AbstractRule, s: StateSet) returns (t: Option<StateSet>)
    requires |r.guard| == |s| && |r.assign| == |s|
    ensures t == Applied(r, s)
  {
    var res := s;
    var i := 0;
    while i < |s|
      invariant 0 <= i <= |s| == |res|
      invariant forall k ::
        0 <= k < i ==> !Mismatches(r.guard[k], s[k]) && res[k] == ApplyVar(r.guard[k], r.assign[k], s[k])
      invariant forall k :: i <= k < |s| ==> res[k] == s[k]
    {
      var g, a := r.guard[i], r.assign[i];
      if Mismatches(g, res[i]) {
        return None;
      } else if !a.X? {
        res := res[i := a];
      } else if !g.X? {
        res := res[i := g];
      }
      i := i + 1;
    }
    assert res == Applied(r, s).value;
    return Some(res);
  }

  /** On a concrete state a rule fires exactly if every specific variable of its guard has that value there. It gives
      the specific variables of its assignment their values and leaves the others. */
  lemma AppliedMeans(r: AbstractRule, s: StateSet)
    requires r.Wf(|s|) && Concrete(s)
    ensures Applied(r, s).Some? <==> forall i :: 0 <= i < |s| && r.guard[i] != X ==> r.guard[i] == s[i]
    ensures Applied(r, s).Some? ==> forall i :: 0 <= i < |s| ==>
              Applied(r, s).value[i] == if r.assign[i] != X then r.assign[i] else s[i]
  {
    assert forall i :: 0 <= i < |s| ==> (Mismatches(r.guard[i], s[i]) <==> r.guard[i] != X && r.guard[i] != s[i]);
  }

  lemma AppliedConcrete(r: AbstractRule, s: StateSet)
    requires r.Wf(|s|) && Concrete(s) && Applied(r, s).Some?
    ensures Concrete(Applied(r, s).value)
  {
  }

  /** Applying a rule to a set of states is exact: it stands for the successors of the states that can fire. */
  lemma ApplyExact(r: AbstractRule, p: StateSet)
    requires r.Wf(|p|)
    ensures Applied(r, p).None? ==> forall s :: In(s, p) ==> Applied(r, s).None?
    ensures Applied(r, p).Some? ==>
              forall t :: In(t, Applied(r, p).value) <==> exists s :: In(s, p) && Applied(r, s) == Some(t)
  {
    if Applied(r, p).Some? {
      var q := Applied(r, p).value;
      forall t ensures In(t, q) <==> exists s :: In(s, p) && Applied(r, s) == Some(t) {
        if In(t, q) {
          var s := Origin(r, p, t);
          assert Applied(r, s).value == t;
        }
      }
    }
  }

  /** A state of `p` from which the rule leads to `t`. */
  function Origin(r: AbstractRule, p: StateSet, t: StateSet): (s: StateSet)
    requires r.Wf(|p|) && Fits(r, p) && In(t, Applied(r, p).value)
    ensures In(s, p) && Fits(r, s)
  {
    seq(|p|, i requires 0 <= i < |p| => if !p[i].X? then p[i] else if !r.guard[i].X? then r.guard[i] else t[i])
  }

  // ---------------------------------------------------------------- building rules

  /** Make the generic variables of `s` specific where `other` is. */
  function Specified(s: StateSet, other: StateSet): (t: StateSet)
    requires |s| == |other|
    ensures |t| == |s|
  {
    seq(|s|, i requires 0 <= i < |s| => if VarCmp(s[i], other[i]) == Some(Less) then other[i] else s[i])
  }

  method MakeSpecificWrt(s: StateSet, other: StateSet) returns (t: StateSet)
    requires |s| == |other|
    ensures t == Specified(s, other)
  {
    t := s;
    var i := 0;
    while i < |s|
      invariant 0 <= i <= |s| == |t|
      invariant forall k :: 0 <= k < i ==> t[k] == Specified(s, other)[k]
      invariant forall k :: i <= k < |s| ==> t[k] == s[k]
    {
      if VarCmp(t[i], other[i]) == Some(Less) {
        t := t[i := other[i]];
      }
      i := i + 1;
    }
  }

  function NewRule(guard: StateSet, port: Option<Port>, assign: StateSet, ids: seq<nat>): (r: AbstractRule)
    requires |guard| == |assign|
    ensures r.Wf(|guard|)
  {
    AbstractRule(guard, port, Specified(assign, guard), ids)
  }

  /** Spelling out the guard in the assignment changes no step of the rule. */
  lemma NewRuleSteps(guard: StateSet, port: Option<Port>, assign: StateSet, ids: seq<nat>, s: StateSet)
    requires |guard| == |assign| == |s|
    ensures Applied(NewRule(guard, port, assign, ids), s) == Applied(AbstractRule(guard, port, assign, ids), s)
  {
    var r := AbstractRule(guard, port, assign, ids);
    if Fits(r, s) {
      assert Applied(NewRule(guard, port, assign, ids), s).value == Applied(r, s).value;
    }
  }

  method BuildNewRule(guard: StateSet, port: Option<Port>, assign: StateSet, ids: seq<nat>) returns (r: AbstractRule)
    requires |guard| == |assign|
    ensures r == NewRule(guard, port, assign, ids)
  {
    var specific := MakeSpecificWrt(assign, guard);
    return AbstractRule(guard, port, specific, ids);
  }

  // ---------------------------------------------------------------- composition

  predicate MayPrecede(r1: AbstractRule, r2: AbstractRule)
    requires |r1.assign| == |r2.guard|
  {
    && (forall i :: 0 <= i < |r1.assign| ==> !Mismatches(r1.assign[i], r2.guard[i]))
    && (r1.Silent() || r2.Silent())
  }

  method CanPrecede(r1: AbstractRule, r2: AbstractRule) returns (b: bool)
    requires |r1.assign| == |r2.guard|
    ensures b <==> MayPrecede(r1, r2)
  {
    var i := 0;
    while i < |r1.assign|
      invariant 0 <= i <= |r1.assign|
      invariant forall k :: 0 <= k < i ==> !Mismatches(r1.assign[k], r2.guard[k])
    {
      if Mismatches(r1.assign[i], r2.guard[i]) {
        return false;
      }
      i := i + 1;
    }
    return r1.Silent() || r2.Silent();
  }

  function GuardVar(g1: Var, a1: Var, g2: Var): Var { if g1.X? && a1.X? && !g2.X? then g2 else g1 }

  function AssignVar(g1: Var, a1: Var, g2: Var, a2: Var): Var {
    if g2.X? && a2.X? then (if !a1.X? then a1 else if !g1.X? then g1 else a2) else a2
  }

  predicate SameSize(r1: AbstractRule, r2: AbstractRule) {
    |r1.guard| == |r1.assign| == |r2.guard| == |r2.assign|
  }

  function Sequence(r1: AbstractRule, r2: AbstractRule): (r: AbstractRule)
    requires SameSize(r1, r2)
    ensures r.Wf(|r1.guard|)
  {
    NewRule(seq(|r1.guard|, i requires 0 <= i < |r1.guard| => GuardVar(r1.guard[i], r1.assign[i], r2.guard[i])),
            if r1.port.Some? then r1.port else r2.port,
            seq(|r1.guard|,
              i requires 0 <= i < |r1.guard| => AssignVar(r1.guard[i], r1.assign[i], r2.guard[i], r2.assign[i])),
            r2.ids)
  }

  function Composed(r1: AbstractRule, r2: AbstractRule): Option<AbstractRule>
    requires SameSize(r1, r2)
  {
    if MayPrecede(r1, r2) then Some(Sequence(r1, r2)) else None
  }

  method Compose(r1: AbstractRule, r2: AbstractRule) returns (r: Option<AbstractRule>)
    requires SameSize(r1, r2)
    ensures r == Composed(r1, r2)
    ensures r.Some? ==> r.value.port == (if r1.port.Some? then r1.port else r2.port) && r.value.ids == r2.ids
  {
    var ok := CanPrecede(r1, r2);
    if !ok {
      return None;
    }
    var guard := r1.guard;
    var i := 0;
    while i < |guard|
      invariant 0 <= i <= |guard| == |r1.guard|
      invariant forall k :: 0 <= k < i ==> guard[k] == GuardVar(r1.guard[k], r1.assign[k], r2.guard[k])
      invariant forall k :: i <= k < |guard| ==> guard[k] == r1.guard[k]
    {
      if guard[i].X? && r1.assign[i].X? && !r2.guard[i].X? {
        guard := guard[i := r2.guard[i]];
      }
      i := i + 1;
    }
    var assign := r2.assign;
    i := 0;
    while i < |assign|
      invariant 0 <= i <= |assign| == |r1.guard|
      invariant forall k :: 0 <= k < i ==> assign[k] == AssignVar(r1.guard[k], r1.assign[k], r2.guard[k], r2.assign[k])
      invariant forall k :: i <= k < |assign| ==> assign[k] == r2.assign[k]
    {
      if r2.guard[i].X? && assign[i].X? {
        if !r1.assign[i].X? {
          assign := assign[i := r1.assign[i]];
        } else if !r1.guard[i].X? {
          assign := assign[i := r1.guard[i]];
        }
      }
      i := i + 1;
    }
    assert guard == seq(|r1.guard|, k requires 0 <= k < |r1.guard| => GuardVar(r1.guard[k], r1.assign[k], r2.guard[k]));
    assert assign
      == seq(|r1.guard|,
        k requires 0 <= k < |r1.guard| => AssignVar(r1.guard[k], r1.assign[k], r2.guard[k], r2.assign[k]));
    var rule := BuildNewRule(guard, if r1.port.Some? then r1.port else r2.port, assign, r2.ids);
    return Some(rule);
  }

  /** First one rule, then the other. */
  function Then(r1: AbstractRule, r2: AbstractRule, s: StateSet): Option<StateSet>
    requires SameSize(r1, r2) && |r1.guard| == |s|
  {
    match Applied(r1, s)
    case None => None
    case Some(t) => Applied(r2, t)
  }

  /** Composition is exact on every set of states: the composed rule does what the two do in sequence, and where
      the rules do not compose for lack of a port the sequence is impossible. */
  lemma ComposeExact(r1: AbstractRule, r2: AbstractRule, s: StateSet)
    requires r1.Wf(|s|) && r2.Wf(|s|)
    ensures match Composed(r1, r2)
            case Some(r) => Applied(r, s) == Then(r1, r2, s)
            case None => (!r1.Silent() && !r2.Silent()) || Then(r1, r2, s) == None
  {
    if Composed(r1, r2).Some? {
      var r := Sequence(r1, r2);
      forall i | 0 <= i < |s| ensures
          var v := s[i]; var u := ApplyVar(r1.guard[i], r1.assign[i], v);
          && ((!Mismatches(r1.guard[i], v) && !Mismatches(r2.guard[i], u)) <==> !Mismatches(r.guard[i], v))
          && (!Mismatches(r1.guard[i], v) ==>
                ApplyVar(r.guard[i], r.assign[i], v) == ApplyVar(r2.guard[i], r2.assign[i], u))
      {
      }
      SequenceFits(r1, r2, s);
      if Fits(r, s) {
        assert Applied(r, s).value == Then(r1, r2, s).value;
      }
    } else if r1.Silent() || r2.Silent() {
      var i :| 0 <= i < |s| && Mismatches(r1.assign[i], r2.guard[i]);
      assert Applied(r1, s).Some? ==> Applied(r1, s).value[i] == r1.assign[i];
    }
  }

  lemma SequenceFits(r1: AbstractRule, r2: AbstractRule, s: StateSet)
    requires r1.Wf(|s|) && r2.Wf(|s|) && MayPrecede(r1, r2)
    requires forall i :: 0 <= i < |s| ==>
               var u := ApplyVar(r1.guard[i], r1.assign[i], s[i]);
               ((!Mismatches(r1.guard[i], s[i]) && !Mismatches(r2.guard[i], u)) <==>
                 !Mismatches(Sequence(r1, r2).guard[i], s[i]))
    ensures Fits(Sequence(r1, r2), s) <==> Applied(r1, s).Some? && Fits(r2, Applied(r1, s).value)
  {
    if Applied(r1, s).Some? && Fits(r2, Applied(r1, s).value) {
      forall i | 0 <= i < |s| ensures !Mismatches(Sequence(r1, r2).guard[i], s[i]) {
        assert !Mismatches(r2.guard[i], Applied(r1, s).value[i]);
      }
    }
  }

  /** A silent rule composes with another exactly when some concrete state can run both. */
  lemma ComposesIff(r1: AbstractRule, r2: AbstractRule, n: nat)
    requires r1.Wf(n) && r2.Wf(n) && r1.Silent()
    ensures Composed(r1, r2).Some? <==> exists s :: |s| == n && Concrete(s) && Then(r1, r2, s).Some?
  {
    if Composed(r1, r2).Some? {
      var s := Sample(Sequence(r1, r2).guard, T);
      ComposeExact(r1, r2, s);
      assert |s| == n && Concrete(s) && Then(r1, r2, s).Some?;
    } else {
      forall s | |s| == n && Concrete(s) ensures Then(r1, r2, s).None? {
        ComposeExact(r1, r2, s);
      }
    }
  }

  // ---------------------------------------------------------------- rules without effect

  predicate Effectless(r: AbstractRule)
    requires |r.guard| == |r.assign|
  {
    r.Silent() && forall i :: 0 <= i < |r.guard| ==>
      !Mismatches(r.guard[i], r.assign[i]) && VarCmp(r.guard[i], r.assign[i]) != Some(Less)
  }

  method NoEffect(r: AbstractRule) returns (b: bool)
    requires |r.guard| == |r.assign|
    ensures b <==> Effectless(r)
    ensures b ==> r.port == None
  {
    if r.port.Some? {
      return false;
    }
    var i := 0;
    while i < |r.guard|
      invariant 0 <= i <= |r.guard|
      invariant forall k ::
        0 <= k < i ==> !Mismatches(r.guard[k], r.assign[k]) && VarCmp(r.guard[k], r.assign[k]) != Some(Less)
    {
      if Mismatches(r.guard[i], r.assign[i]) || VarCmp(r.guard[i], r.assign[i]) == Some(Less) {
        return false;
      }
      i := i + 1;
    }
    return true;
  }

  /** The test is exact: a silent rule passes it iff it changes no state that it can fire on. */
  lemma EffectlessExact(r: AbstractRule, n: nat)
    requires r.Wf(n) && r.Silent()
    ensures Effectless(r) <==> forall s :: |s| == n && Concrete(s) && Applied(r, s).Some? ==> Applied(r, s) == Some(s)
  {
    if Effectless(r) {
      forall s | |s| == n && Concrete(s) && Applied(r, s).Some? ensures Applied(r, s) == Some(s) {
        assert Applied(r, s).value == s;
      }
    } else {
      var i :| 0 <= i < n && (Mismatches(r.guard[i], r.assign[i]) || VarCmp(r.guard[i], r.assign[i]) == Some(Less));
      var s := Sample(r.guard, if r.assign[i].T? then F else T);
      assert Applied(r, s).value[i] != s[i];
    }
  }

  /** Firing a rule twice in a row is firing it once. */
  lemma Idempotent(r: AbstractRule, s: StateSet)
    requires r.Wf(|s|) && Then(r, r, s).Some?
    ensures Then(r, r, s) == Applied(r, s)
  {
    assert Then(r, r, s).value == Applied(r, s).value;
  }
}
