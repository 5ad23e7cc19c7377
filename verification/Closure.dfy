/** The states reachable through internal rules, over partially known states (graveyard4/rba_builder.rs). */
module Closure {
  import opened Wrappers

  /** What is known of each memory variable. */
  type Partial = seq<Option<bool>>

  /** `T`, `F`: assigned; `G`: left alone; `U`: unknown from here on. */
  datatype AssignVal = T | F | G | U

  datatype Rule = Rule(guard: Partial, action: seq<AssignVal>)

  predicate Sized(n: nat, r: Rule) { |r.guard| == n && |r.action| == n }

  // ---------------------------------------------------------------- one step

  predicate Compatible(s: Partial, t: Partial)
    requires |s| == |t|
  {
    forall i :: 0 <= i < |s| && s[i].Some? && t[i].Some? ==> s[i] == t[i]
  }

  /** Decides whether some concrete state is described by both. */
  method TestCompatible(s: Partial, t: Partial) returns (b: bool)
    requires |s| == |t|
    ensures b <==> Compatible(s, t)
    ensures b <==> exists c :: Describes(s, c) && Describes(t, c)
  {
    CompatibleMeans(s, t);
    var i := 0;
    while i < |s|
      invariant 0 <= i <= |s|
      invariant forall k :: 0 <= k < i && s[k].Some? && t[k].Some? ==> s[k] == t[k]
    {
      if s[i].Some? && t[i].Some? && s[i].value != t[i].value {
        return false;
      }
      i := i + 1;
    }
    return true;
  }

  lemma CompatibleMeans(s: Partial, t: Partial)
    requires |s| == |t|
    ensures Compatible(s, t) <==> exists c :: Describes(s, c) && Describes(t, c)
  {
    if Compatible(s, t) {
      var c := seq(|s|, i requires 0 <= i < |s| =>
        if s[i].Some? then s[i].value else t[i].Some? && t[i].value);
      assert Describes(s, c) && Describes(t, c);
    }
  }

  function ApplyVal(a: AssignVal, v: Option<bool>): Option<bool> {
    match a
    case G => v
    case T => Some(true)
    case F => Some(false)
    case U => None
  }

  function Applied(action: seq<AssignVal>, s: Partial): (t: Partial)
    requires |action| == |s|
    ensures |t| == |s|
  {
    seq(|s|, i requires 0 <= i < |s| => ApplyVal(action[i], s[i]))
  }

  method ApplyTo(action: seq<AssignVal>, s: Partial) returns (t: Partial)
    requires |action| == |s|
    ensures t == Applied(action, s)
  {
    t := s;
    var i := 0;
    while i < |s|
      invariant 0 <= i <= |s| == |t|
      invariant forall k :: 0 <= k < i ==> t[k] == ApplyVal(action[k], s[k])
      invariant forall k :: i <= k < |s| ==> t[k] == s[k]
    {
      match action[i] {
        case G =>
        case T => t := t[i := Some(true)];
        case F => t := t[i := Some(false)];
        case U => t := t[i := None];
      }
      i := i + 1;
    }
    assert t == Applied(action, s);
  }

  predicate Steps(n: nat, r: Rule, s: Partial, t: Partial) {
    Sized(n, r) && |s| == n && Compatible(s, r.guard) && t == Applied(r.action, s)
  }

  // ---------------------------------------------------------------- reachability

  predicate AllSized(n: nat, rules: seq<Rule>) { forall k :: 0 <= k < |rules| ==> Sized(n, rules[k]) }

  /** `t` can be reached from `s` in exactly `k` rule steps. */
  ghost predicate ReachIn(n: nat, rules: seq<Rule>, s: Partial, t: Partial, k: nat)
    decreases k
  {
    if k == 0 then s == t
    else exists u, r :: ReachIn(n, rules, s, u, k - 1) && r in rules && Steps(n, r, u, t)
  }

  ghost predicate Reachable(n: nat, rules: seq<Rule>, s: Partial, t: Partial) {
    exists k: nat :: k >= 1 && ReachIn(n, rules, s, t, k)
  }

  /** All partial states of `n` variables. */
  function Universe(n: nat): (us: set<Partial>) {
    if n == 0 then {[]}
    else
      var us := Universe(n - 1);
      (set s | s in us :: s + [None]) + (set s | s in us :: s + [Some(true)]) + (set s | s in us :: s + [Some(false)])
  }

  lemma UniverseHas(n: nat, s: Partial)
    requires |s| == n
    ensures s in Universe(n)
  {
    if n > 0 {
      var init, v := s[..n - 1], s[n - 1];
      UniverseHas(n - 1, init);
      assert s == init + [v];
      if v.None? {
      } else if v.value {
        assert v == Some(true);
      } else {
        assert v == Some(false);
      }
    }
  }

  /** Every successor of `s` is in `res`. */
  predicate Explored(n: nat, rules: seq<Rule>, s: Partial, res: set<Partial>) {
    forall r <- rules :: Sized(n, r) && |s| == n && Compatible(s, r.guard) ==> Applied(r.action, s) in res
  }

  /** The set has all successors of the start and of its own members. */
  predicate Closed(n: nat, rules: seq<Rule>, start: Partial, res: set<Partial>) {
    Explored(n, rules, start, res) && forall s <- res :: Explored(n, rules, s, res)
  }

  /** The worklist loop: terminates for any number of variables, with exactly the states reachable in at least one
      step; this is the least closed set. */
  method InternalClose(n: nat, start: Partial, rules: seq<Rule>) returns (res: set<Partial>)
    requires |start| == n && AllSized(n, rules)
    ensures forall t :: t in res <==> Reachable(n, rules, start, t)
    ensures Closed(n, rules, start, res) && forall closed :: Closed(n, rules, start, closed) ==> res <= closed
  {
    res := {};
    var todo := {start};
    while todo != {}
      invariant res <= Universe(n) && (forall s <- todo :: |s| == n)
      invariant forall s <- todo :: s == start || s in res
      invariant forall t <- res :: Reachable(n, rules, start, t)
      invariant forall s :: (s == start || s in res) && s !in todo ==> Explored(n, rules, s, res)
      decreases |Universe(n) - res|, |todo|
    {
      hide Reachable, Universe, Compatible, Explored;
      var state :| state in todo;
      var before, todoBefore := res, todo;
      todo := todo - {state};
      res, todo := Explore(n, start, rules, state, res, todo);
      SmallerRest(Universe(n), before, res);
      forall s | (s == start || s in res) && s !in todo ensures Explored(n, rules, s, res) {
        if s != state && s !in res - before {
          MoreExplored(n, rules, s, before, res);
        }
      }
    }
    LeastClosed(n, rules, start, res);
  }

  lemma LeastClosed(n: nat, rules: seq<Rule>, start: Partial, res: set<Partial>)
    requires Closed(n, rules, start, res) && forall t <- res :: Reachable(n, rules, start, t)
    ensures forall t :: t in res <==> Reachable(n, rules, start, t)
    ensures forall closed :: Closed(n, rules, start, closed) ==> res <= closed
  {
    hide Closed, ReachIn;
    forall t, closed | Closed(n, rules, start, closed) && Reachable(n, rules, start, t) ensures t in closed {
      var k: nat :| k >= 1 && ReachIn(n, rules, start, t, k);
      AllReached(n, rules, start, t, k, closed);
    }
  }

  /** One pass over the rules: the successors of `state` not known yet are kept and queued. */
  method Explore(n: nat, start: Partial, rules: seq<Rule>, state: Partial, res0: set<Partial>, todo0: set<Partial>)
    returns (res: set<Partial>, todo: set<Partial>)
    requires |state| == n && AllSized(n, rules) && (state == start || state in res0)
    requires res0 <= Universe(n) && (forall t <- res0 :: Reachable(n, rules, start, t)) && forall s <- todo0 :: |s| == n
    ensures res0 <= res <= Universe(n) && todo == todo0 + (res - res0) && forall s <- todo :: |s| == n
    ensures forall t <- res :: Reachable(n, rules, start, t)
    ensures Explored(n, rules, state, res)
  {
    hide Reachable, Universe;
    res, todo := res0, todo0;
    var i := 0;
    while i < |rules|
      invariant 0 <= i <= |rules| && res0 <= res <= Universe(n) && todo == todo0 + (res - res0) && forall s <- todo ::
        |s| == n
      invariant forall t <- res :: Reachable(n, rules, start, t)
      invariant forall k :: 0 <= k < i && Compatible(state, rules[k].guard) ==> Applied(rules[k].action, state) in res
    {
      var r := rules[i];
      assert r in rules;
      var ok := TestCompatible(state, r.guard);
      if ok {
        var next := ApplyTo(r.action, state);
        if next !in res {
          UniverseHas(n, next);
          OneMore(n, rules, start, state, r, next);
          res := res + {next};
          todo := todo + {next};
        }
      }
      i := i + 1;
    }
  }

  lemma OneMore(n: nat, rules: seq<Rule>, start: Partial, s: Partial, r: Rule, t: Partial)
    requires (s == start || Reachable(n, rules, start, s)) && r in rules && Steps(n, r, s, t)
    ensures Reachable(n, rules, start, t)
  {
    var k: nat := 0;
    if s == start {
      assert ReachIn(n, rules, start, s, 0);
    } else {
      k :| k >= 1 && ReachIn(n, rules, start, s, k);
    }
    assert ReachIn(n, rules, start, t, k + 1);
  }

  lemma SmallerRest(all: set<Partial>, before: set<Partial>, after: set<Partial>)
    requires before <= after <= all
    ensures after == before || |all - after| < |all - before|
  {
    assert all - before == (all - after) + (after - before);
  }

  lemma MoreExplored(n: nat, rules: seq<Rule>, s: Partial, before: set<Partial>, after: set<Partial>)
    requires Explored(n, rules, s, before) && before <= after
    ensures Explored(n, rules, s, after)
  {
  }

  /** A set closed under the rules that has the successors of the start has everything reachable: the closure is
      least. */
  lemma {:induction false} AllReached(n: nat, rules: seq<Rule>, start: Partial, t: Partial, k: nat,
      closed: set<Partial>)
    requires k >= 1 && ReachIn(n, rules, start, t, k)
    requires Closed(n, rules, start, closed)
    ensures t in closed
    decreases k
  {
    var u, r :| ReachIn(n, rules, start, u, k - 1) && r in rules && Steps(n, r, u, t);
    if k > 1 {
      AllReached(n, rules, start, u, k - 1, closed);
    }
  }

  // ---------------------------------------------------------------- concrete states

  type Concrete = seq<bool>

  predicate Describes(p: Partial, b: Concrete) {
    |p| == |b| && forall i :: 0 <= i < |b| && p[i].Some? ==> p[i].value == b[i]
  }

  predicate Assigned(a: AssignVal, before: bool, after: bool) {
    match a
    case G => after == before
    case T => after
    case F => !after
    case U => true
  }

  /** A step of a concrete state: the guard holds, and an unknown variable may get either value. */
  predicate ConcreteStep(n: nat, r: Rule, b: Concrete, b': Concrete) {
    Sized(n, r) && Describes(r.guard, b) && |b'| == n && forall i :: 0 <= i < n ==> Assigned(r.action[i], b[i], b'[i])
  }

  ghost predicate ConcreteReach(n: nat, rules: seq<Rule>, b: Concrete, b': Concrete, k: nat)
    decreases k
  {
    if k == 0 then b == b'
    else exists c, r :: ConcreteReach(n, rules, b, c, k - 1) && r in rules && ConcreteStep(n, r, c, b')
  }

  lemma StepSound(n: nat, r: Rule, s: Partial, b: Concrete, b': Concrete)
    requires Describes(s, b) && |s| == n && ConcreteStep(n, r, b, b')
    ensures Steps(n, r, s, Applied(r.action, s)) && Describes(Applied(r.action, s), b')
  {
  }

  lemma {:induction false} ReachSound(n: nat, rules: seq<Rule>, s: Partial, b: Concrete, b': Concrete, k: nat)
      returns (t: Partial)
    requires Describes(s, b) && |s| == n && ConcreteReach(n, rules, b, b', k)
    ensures ReachIn(n, rules, s, t, k) && Describes(t, b') && |t| == n
    decreases k
  {
    if k == 0 {
      t := s;
    } else {
      var c, r :| ConcreteReach(n, rules, b, c, k - 1) && r in rules && ConcreteStep(n, r, c, b');
      var u := ReachSound(n, rules, s, b, c, k - 1);
      StepSound(n, r, u, c, b');
      t := Applied(r.action, u);
    }
  }

  /** Every concrete state reachable from one that the start describes is described by some member of the closure. */
  lemma ClosureSound(n: nat, rules: seq<Rule>, start: Partial, b: Concrete, b': Concrete, k: nat, res: set<Partial>)
    requires |start| == n && Describes(start, b) && k >= 1 && ConcreteReach(n, rules, b, b', k)
    requires forall t :: t in res <==> Reachable(n, rules, start, t)
    ensures exists t :: t in res && Describes(t, b')
  {
    var t := ReachSound(n, rules, start, b, b', k);
    assert Reachable(n, rules, start, t);
  }

  /** A step describes more than can happen exactly if its guard teaches something that the state does not know and the
      action leaves alone: what is learnt is forgotten. */
  lemma StepExact(n: nat, r: Rule, s: Partial)
    requires Sized(n, r) && |s| == n && Compatible(s, r.guard)
    ensures (forall b' :: Describes(Applied(r.action, s), b') ==> exists b ::
      Describes(s, b) && ConcreteStep(n, r, b, b'))
            <==> forall i :: 0 <= i < n && s[i].None? && r.guard[i].Some? ==> !r.action[i].G?
  {
    var t := Applied(r.action, s);
    if i :| 0 <= i < n && s[i].None? && r.guard[i].Some? && r.action[i].G? {
      var b' := seq(n, j requires 0 <= j < n => if j == i then !r.guard[i].value else t[j].Some? && t[j].value);
      assert Describes(t, b');
      forall b | Describes(s, b) ensures !ConcreteStep(n, r, b, b') {
        assert b'[i] != r.guard[i].value;
      }
    } else {
      forall b' | Describes(t, b') ensures exists b :: Describes(s, b) && ConcreteStep(n, r, b, b') {
        var b := seq(n, j requires 0 <= j < n =>
          if s[j].Some? then s[j].value else if r.guard[j].Some? then r.guard[j].value else b'[j]);
        assert Describes(s, b) && ConcreteStep(n, r, b, b');
      }
    }
  }
}
