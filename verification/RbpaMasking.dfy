/** Variables that no guard reads can be masked, and ports hidden (graveyard6/rbpa.rs). */
module RbpaMasking {
  import opened Wrappers
  import opened StateSets
  import opened AbstractRules
  import opened RbpaElimination

  // ---------------------------------------------------------------- irrelevant variables

  /** The variables still in use that no rule's guard reads. */
  function Unread(rules: Rules, mask: seq<bool>): set<nat>
    requires AllWf(rules, |mask|)
  {
    set i: nat | i < |mask| && mask[i] && forall k :: 0 <= k < |rules| ==> rules[k].guard[i].X?
  }

  /** A variable in use stays so exactly if some guard reads it. */
  lemma UnreadMeans(rules: Rules, mask: seq<bool>)
    requires AllWf(rules, |mask|)
    ensures forall i: nat :: i < |mask| && mask[i] ==> (i !in Unread(rules, mask) <==>
                                                          exists r <- rules :: r.guard[i] != X)
  {
    forall i: nat | i < |mask| && mask[i]
      ensures i !in Unread(rules, mask) <==> exists r <- rules :: r.guard[i] != X
    {
      if i !in Unread(rules, mask) {
        var k :| 0 <= k < |rules| && !rules[k].guard[i].X?;
        assert rules[k] in rules;
      }
    }
  }

  function Generic(s: StateSet, dead: set<nat>): (t: StateSet)
    ensures |t| == |s|
  {
    seq(|s|, i requires 0 <= i < |s| => if i in dead then X else s[i])
  }

  function MaskRule(r: AbstractRule, dead: set<nat>): AbstractRule {
    r.(guard := Generic(r.guard, dead), assign := Generic(r.assign, dead))
  }

  function MaskRules(rules: Rules, dead: set<nat>): (rs: Rules)
    ensures forall n :: AllWf(rules, n) ==> AllWf(rs, n)
  {
    seq(|rules|, k requires 0 <= k < |rules| => MaskRule(rules[k], dead))
  }

  lemma MaskMore(rules: Rules, done: set<nat>, i: nat)
    ensures MaskRules(MaskRules(rules, done), {i}) == MaskRules(rules, done + {i})
    ensures MaskRules(rules, {}) == rules
  {
    forall k | 0 <= k < |rules|
      ensures MaskRule(MaskRule(rules[k], done), {i}) == MaskRule(rules[k], done + {i})
      ensures MaskRule(rules[k], {}) == rules[k]
    {
      forall s: StateSet ensures Generic(Generic(s, done), {i}) == Generic(s, done + {i}) && Generic(s, {}) == s {
      }
    }
  }

  /** The states agree on all variables but the dead ones. */
  predicate Alike(s: StateSet, t: StateSet, dead: set<nat>) {
    |s| == |t| && forall i: nat :: i < |s| && i !in dead ==> s[i] == t[i]
  }

  /** The rules agree on all variables but the dead ones, which neither guard reads. */
  predicate Similar(r: AbstractRule, r': AbstractRule, dead: set<nat>, n: nat) {
    && r.Wf(n) && r'.Wf(n) && r.port == r'.port && Alike(r.guard, r'.guard, dead) && Alike(r.assign, r'.assign, dead)
    && forall i <- dead :: i < n ==> r.guard[i].X? && r'.guard[i].X?
  }

  ghost predicate Simulated(rules: Rules, rules': Rules, dead: set<nat>, n: nat) {
    forall r <- rules :: exists r' <- rules' :: Similar(r, r', dead, n)
  }

  lemma SimilarStep(r: AbstractRule, r': AbstractRule, dead: set<nat>, n: nat, s: StateSet, s': StateSet)
    requires Similar(r, r', dead, n) && State(s, n) && State(s', n) && Alike(s, s', dead)
    ensures Applied(r, s).Some? ==> Applied(r', s').Some? && Alike(Applied(r, s).value, Applied(r', s').value, dead)
  {
    if Applied(r, s).Some? {
      forall i: nat | i < n ensures !Mismatches(r'.guard[i], s'[i]) {
        assert !Mismatches(r.guard[i], s[i]);
      }
    }
  }

  lemma {:induction false} SimilarWord(rules: Rules, rules': Rules, dead: set<nat>, n: nat, w: Rules, p: Port,
      s: StateSet, s': StateSet)
    returns (w': Rules)
    requires Simulated(rules, rules', dead, n) && Word(rules, w, p) && AllWf(w, n)
    requires State(s, n) && State(s', n) && Alike(s, s', dead) && Exec(w, s, n).Some?
    ensures Word(rules', w', p) && AllWf(w', n) && Exec(w', s', n).Some?
    ensures Alike(Exec(w, s, n).value, Exec(w', s', n).value, dead)
    decreases |w|
  {
    hide Applied, Word, Alike, Concrete, Similar;
    WordHead(rules, w, p);
    var r, tail := w[0], w[1..];
    assert w == [r] + tail;
    var r' :| r' in rules' && Similar(r, r', dead, n);
    SimilarPort(r, r', dead, n);
    SimilarStep(r, r', dead, n, s, s');
    AppliedConcrete(r, s);
    AppliedConcrete(r', s');
    if |w| == 1 {
      w' := [r'];
      LastWord(rules', w', p);
      ExecOne(r, s, n);
      ExecOne(r', s', n);
    } else {
      WordTail(rules, w, p);
      var v := SimilarWord(rules, rules', dead, n, tail, p, Applied(r, s).value, Applied(r', s').value);
      w' := [r'] + v;
      WordJoin(rules', [r'], v, p);
      assert ([r'] + v)[1..] == v;
    }
  }

  lemma SimilarPort(r: AbstractRule, r': AbstractRule, dead: set<nat>, n: nat)
    requires Similar(r, r', dead, n)
    ensures r.Wf(n) && r'.Wf(n) && r.port == r'.port
  {
  }

  lemma {:induction false} SimilarTrace(rules: Rules, rules': Rules, dead: set<nat>, n: nat, ps: seq<Port>,
      s: StateSet, s': StateSet, t: StateSet)
    returns (t': StateSet)
    requires AllWf(rules, n) && AllWf(rules', n) && Simulated(rules, rules', dead, n)
    requires State(s, n) && State(s', n) && Alike(s, s', dead) && Visible(rules, n, ps, s, t)
    ensures Visible(rules', n, ps, s', t') && Alike(t, t', dead)
    decreases |ps|
  {
    hide Alike, Concrete, Word, Simulated, Exec;
    if ps == [] {
      t' := s';
    } else {
      var u :| State(u, n) && Weak(rules, n, ps[0], s, u) && Visible(rules, n, ps[1..], u, t);
      var w: Rules :| Word(rules, w, ps[0]) && AllWf(w, n) && Exec(w, s, n) == Some(u);
      var w' := SimilarWord(rules, rules', dead, n, w, ps[0], s, s');
      var u' := Exec(w', s', n).value;
      assert Weak(rules', n, ps[0], s', u');
      t' := SimilarTrace(rules, rules', dead, n, ps[1..], u, u', t);
    }
  }

  /** The ports can fire in this order from `s`. */
  ghost predicate Admits(rules: Rules, n: nat, ps: seq<Port>, s: StateSet)
    requires AllWf(rules, n) && State(s, n)
  {
    exists t :: Visible(rules, n, ps, s, t)
  }

  /** Masking what no guard reads leaves all visible traces possible, from every state, and adds none. */
  lemma MaskingExact(rules: Rules, mask: seq<bool>, ps: seq<Port>, s: StateSet)
    requires AllWf(rules, |mask|) && State(s, |mask|)
    ensures Admits(MaskRules(rules, Unread(rules, mask)), |mask|, ps, s) <==> Admits(rules, |mask|, ps, s)
  {
    var n, dead := |mask|, Unread(rules, mask);
    var rules' := MaskRules(rules, dead);
    forall k | 0 <= k < |rules| ensures Similar(rules[k], rules'[k], dead, n) && Similar(rules'[k], rules[k], dead, n) {
    }
    assert Simulated(rules, rules', dead, n) by {
      forall r <- rules ensures exists r' <- rules' :: Similar(r, r', dead, n) {
        var k :| 0 <= k < |rules| && rules[k] == r;
        assert rules'[k] in rules';
      }
    }
    assert Simulated(rules', rules, dead, n) by {
      forall r <- rules' ensures exists r' <- rules :: Similar(r, r', dead, n) {
        var k :| 0 <= k < |rules'| && rules'[k] == r;
        assert rules[k] in rules;
      }
    }
    if t :| Visible(rules, n, ps, s, t) {
      var t' := SimilarTrace(rules, rules', dead, n, ps, s, s, t);
    }
    if t :| Visible(rules', n, ps, s, t) {
      var t' := SimilarTrace(rules', rules, dead, n, ps, s, s, t);
    }
  }

  // ---------------------------------------------------------------- hiding ports

  function HideRule(r: AbstractRule, keep: set<Port>): AbstractRule {
    if r.port.Some? && r.port.value !in keep then r.(port := None) else r
  }

  function HideRules(rules: Rules, keep: set<Port>): (rs: Rules)
    ensures |rs| == |rules| && forall n :: AllWf(rules, n) ==> AllWf(rs, n)
  {
    seq(|rules|, k requires 0 <= k < |rules| => HideRule(rules[k], keep))
  }

  /** A word of the original automaton: rules of hidden ports or none, then one on the kept port `p`. */
  predicate HiddenWord(rules: Rules, keep: set<Port>, w: Rules, p: Port) {
    && p in keep && w != [] && (forall r <- w :: r in rules) && w[|w| - 1].port == Some(p)
    && forall i :: 0 <= i < |w| - 1 ==> w[i].port.None? || w[i].port.value !in keep
  }

  /** Hiding changes labels, not steps. */
  lemma {:induction false} ExecHidden(w: Rules, keep: set<Port>, s: StateSet, n: nat)
    requires AllWf(w, n) && State(s, n)
    ensures Exec(HideRules(w, keep), s, n) == Exec(w, s, n)
    decreases |w|
  {
    if w != [] && Applied(w[0], s).Some? {
      AppliedConcrete(w[0], s);
      assert HideRules(w, keep)[1..] == HideRules(w[1..], keep);
      ExecHidden(w[1..], keep, Applied(w[0], s).value, n);
    }
  }

  /** Some rules of the original automaton that hide as the rules of `w` do. */
  lemma {:induction false} Unhide(rules: Rules, keep: set<Port>, w: Rules) returns (v: Rules)
    requires forall r <- w :: r in HideRules(rules, keep)
    ensures (forall r <- v :: r in rules) && HideRules(v, keep) == w
    decreases |w|
  {
    if w == [] {
      v := [];
    } else {
      assert w[0] in w;
      var k :| 0 <= k < |rules| && HideRules(rules, keep)[k] == w[0];
      var u := Unhide(rules, keep, w[1..]);
      v := [rules[k]] + u;
      assert HideRules(v, keep) == [HideRule(rules[k], keep)] + HideRules(u, keep) == w;
    }
  }

  /** After hiding all other ports, a visible step is one on a kept port after steps of hidden ports or none. */
  lemma HidingExact(rules: Rules, keep: set<Port>, n: nat, p: Port, s: StateSet, t: StateSet)
    requires AllWf(rules, n) && State(s, n)
    ensures Weak(HideRules(rules, keep), n, p, s, t) <==>
            exists w :: HiddenWord(rules, keep, w, p) && AllWf(w, n) && Exec(w, s, n) == Some(t)
  {
    var rules' := HideRules(rules, keep);
    if Weak(rules', n, p, s, t) {
      var w: Rules :| Word(rules', w, p) && AllWf(w, n) && Exec(w, s, n) == Some(t);
      var v := Unhide(rules, keep, w);
      UnhiddenWord(rules, keep, v, p);
      WfOf(rules, v, n);
      ExecHidden(v, keep, s, n);
    }
    if w: Rules :| HiddenWord(rules, keep, w, p) && AllWf(w, n) && Exec(w, s, n) == Some(t) {
      UnhiddenWord(rules, keep, w, p);
      ExecHidden(w, keep, s, n);
    }
  }

  lemma WfOf(rules: Rules, w: Rules, n: nat)
    requires AllWf(rules, n) && forall r <- w :: r in rules
    ensures AllWf(w, n)
  {
    forall i | 0 <= i < |w| ensures w[i].Wf(n) {
      assert w[i] in w;
    }
  }

  lemma UnhiddenWord(rules: Rules, keep: set<Port>, w: Rules, p: Port)
    requires forall r <- w :: r in rules
    ensures Word(HideRules(rules, keep), HideRules(w, keep), p) <==> HiddenWord(rules, keep, w, p)
  {
    var w', rules' := HideRules(w, keep), HideRules(rules, keep);
    forall r <- w' ensures r in rules' {
      var k :| 0 <= k < |w'| && w'[k] == r;
      assert w[k] in w;
      var j :| 0 <= j < |rules| && rules[j] == w[k];
      assert rules'[j] == r;
    }
    assert w != [] ==> w'[|w| - 1] == HideRule(w[|w| - 1], keep);
    assert forall i :: 0 <= i < |w| ==> (w'[i].Silent() <==> w[i].port.None? || w[i].port.value !in keep);
  }
}
