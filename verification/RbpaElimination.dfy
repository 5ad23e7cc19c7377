/** Eliminating silent rules from a rule-based port automaton preserves its visible behaviour (graveyard6/rbpa.rs). */
module RbpaElimination {
  import opened Wrappers
  import opened StateSets
  import opened AbstractRules

  type Rules = seq<AbstractRule>

  predicate AllWf(rules: Rules, n: nat) { forall i :: 0 <= i < |rules| ==> rules[i].Wf(n) }

  // ---------------------------------------------------------------- visible behaviour

  predicate State(s: StateSet, n: nat) { |s| == n && Concrete(s) }

  /** Where the rules of a word lead, one after the other. */
  function Exec(w: Rules, s: StateSet, n: nat): (t: Option<StateSet>)
    requires AllWf(w, n) && State(s, n)
    ensures t.Some? ==> State(t.value, n)
  {
    if w == [] then Some(s)
    else if Applied(w[0], s).None? then None
    else
      AppliedConcrete(w[0], s);
      Exec(w[1..], Applied(w[0], s).value, n)
  }

  /** A word of the automaton: some silent rules, then one on port `p`. */
  predicate Word(rules: Rules, w: Rules, p: Port) {
    w != [] && (forall r <- w :: r in rules) && (forall i :: 0 <= i < |w| - 1 ==> w[i].Silent())
      && w[|w| - 1].port == Some(p)
  }

  /** The automaton can make `p` fire, going from `s` to `t`, possibly after silent steps. */
  ghost predicate Weak(rules: Rules, n: nat, p: Port, s: StateSet, t: StateSet)
    requires AllWf(rules, n) && State(s, n)
  {
    exists w :: Word(rules, w, p) && AllWf(w, n) && Exec(w, s, n) == Some(t)
  }

  /** The ports `ps` can fire in this order, from `s` to `t`. */
  ghost predicate Visible(rules: Rules, n: nat, ps: seq<Port>, s: StateSet, t: StateSet)
    requires AllWf(rules, n) && State(s, n)
  {
    if ps == [] then s == t
    else exists u :: State(u, n) && Weak(rules, n, ps[0], s, u) && Visible(rules, n, ps[1..], u, t)
  }

  // ---------------------------------------------------------------- elimination

  predicate FirstSilent(rules: Rules, idx: nat) {
    idx < |rules| && rules[idx].Silent() && forall k :: 0 <= k < idx ==> !rules[k].Silent()
  }

  function Without(rules: Rules, idx: nat): Rules
    requires idx < |rules|
  {
    rules[..idx] + rules[idx + 1..]
  }

  /** The compositions of `q` with those of `rules` that it may precede. */
  function Compositions(q: AbstractRule, rules: Rules, n: nat): (cs: Rules)
    requires q.Wf(n) && AllWf(rules, n)
    ensures AllWf(cs, n)
  {
    if rules == [] then []
    else
      var last := rules[|rules| - 1];
      Compositions(q, rules[..|rules| - 1], n) + if Composed(q, last).Some? then [Composed(q, last).value] else []
  }

  function Eliminated(rules: Rules, idx: nat, n: nat): (rs: Rules)
    requires AllWf(rules, n) && idx < |rules|
    ensures AllWf(rs, n)
  {
    Without(rules, idx) + if Effectless(rules[idx]) then [] else Compositions(rules[idx], Without(rules, idx), n)
  }

  lemma CompositionsAre(q: AbstractRule, rules: Rules, n: nat, r: AbstractRule)
    requires q.Wf(n) && AllWf(rules, n)
    ensures r in Compositions(q, rules, n) <==> exists r2 <- rules :: Composed(q, r2) == Some(r)
  {
    if rules != [] {
      var init, last := rules[..|rules| - 1], rules[|rules| - 1];
      CompositionsAre(q, init, n, r);
      assert rules == init + [last];
    }
  }

  lemma WithoutHas(rules: Rules, idx: nat, r: AbstractRule)
    requires idx < |rules|
    ensures r in Without(rules, idx) ==> r in rules
    ensures r in rules && r != rules[idx] ==> r in Without(rules, idx)
  {
    assert rules == rules[..idx] + [rules[idx]] + rules[idx + 1..];
  }

  /** A composed rule is a silent step and then another. */
  lemma ExecComposed(q: AbstractRule, r2: AbstractRule, w: Rules, s: StateSet, n: nat)
    requires q.Wf(n) && r2.Wf(n) && AllWf(w, n) && State(s, n) && q.Silent()
    ensures Composed(q, r2).Some? ==> Exec([Composed(q, r2).value] + w, s, n) == Exec([q, r2] + w, s, n)
    ensures Composed(q, r2).None? ==> Exec([q, r2] + w, s, n).None?
  {
    ComposeExact(q, r2, s);
    var w2 := [q, r2] + w;
    assert w2[1..] == [r2] + w && ([r2] + w)[1..] == w;
    if Composed(q, r2).Some? {
      assert ([Composed(q, r2).value] + w)[1..] == w;
    }
  }

  /** A rule of the new automaton is one of the old ones, or the eliminated rule followed by one of them. */
  lemma Unfold(rules: Rules, idx: nat, n: nat, r: AbstractRule) returns (pre: Rules)
    requires AllWf(rules, n) && idx < |rules| && rules[idx].Silent() && r in Eliminated(rules, idx, n)
    ensures AllWf(pre, n) && r.Wf(n) && forall x <- pre :: x in rules
    ensures pre == [r]
      || (|pre| == 2 && pre[0] == rules[idx] && pre[1].port == r.port && Composed(rules[idx], pre[1]) == Some(r))
  {
    var q, rest := rules[idx], Without(rules, idx);
    WithoutHas(rules, idx, r);
    CompositionsAre(q, rest, n, r);
    if r in rest {
      pre := [r];
    } else {
      var r2 :| r2 in rest && Composed(q, r2) == Some(r);
      WithoutHas(rules, idx, r2);
      pre := [q, r2];
    }
  }

  /** Every word of the new rules is, rule for rule or as a pair, a word of the old ones. */
  lemma {:induction false} Expand(rules: Rules, idx: nat, n: nat, w: Rules, p: Port, s: StateSet) returns (w': Rules)
    requires AllWf(rules, n) && idx < |rules| && rules[idx].Silent() && State(s, n)
    requires Word(Eliminated(rules, idx, n), w, p) && AllWf(w, n)
    ensures Word(rules, w', p) && AllWf(w', n) && Exec(w', s, n) == Exec(w, s, n)
    decreases |w|
  {
    hide Eliminated, Applied, Concrete, Fits, Composed, Word, Exec;
    WordHead(Eliminated(rules, idx, n), w, p);
    var q, r, tail := rules[idx], w[0], w[1..];
    var pre := Unfold(rules, idx, n, r);
    assert w == [r] + tail;
    if tail == [] {
      w' := pre;
      LastWord(rules, pre, p);
      ExecPrefix(q, r, pre, [], s, n);
      assert pre + [] == pre && [r] + [] == w;
    } else {
      WordTail(Eliminated(rules, idx, n), w, p);
      var v;
      if Applied(r, s).Some? {
        AppliedConcrete(r, s);
        v := Expand(rules, idx, n, tail, p, Applied(r, s).value);
      } else {
        v := Expand(rules, idx, n, tail, p, s);
      }
      w' := pre + v;
      ExecPrefix(q, r, pre, v, s, n);
      ExecTail(r, tail, v, s, n);
      WordJoin(rules, pre, v, p);
    }
  }

  lemma WordHead(rules: Rules, w: Rules, p: Port)
    requires Word(rules, w, p)
    ensures w != [] && w[0] in rules && if |w| == 1 then w[0].port == Some(p) else w[0].Silent()
  {
  }

  lemma LastWord(rules: Rules, pre: Rules, p: Port)
    requires (forall r <- pre :: r in rules) && (|pre| == 1 || (|pre| == 2 && pre[0].Silent()))
    requires pre[|pre| - 1].port == Some(p)
    ensures Word(rules, pre, p)
  {
  }

  lemma WordTail(rules: Rules, w: Rules, p: Port)
    requires Word(rules, w, p) && |w| > 1
    ensures Word(rules, w[1..], p) && w[0].Silent()
  {
    assert w[1..][|w| - 2] == w[|w| - 1];
  }

  lemma WordJoin(rules: Rules, pre: Rules, v: Rules, p: Port)
    requires Word(rules, v, p) && (forall r <- pre :: r in rules && r.Silent())
    ensures Word(rules, pre + v, p)
  {
  }

  lemma ExecPrefix(q: AbstractRule, r: AbstractRule, pre: Rules, v: Rules, s: StateSet, n: nat)
    requires q.Wf(n) && q.Silent() && r.Wf(n) && AllWf(pre, n) && AllWf(v, n) && State(s, n)
    requires pre == [r] || (|pre| == 2 && pre[0] == q && Composed(q, pre[1]) == Some(r))
    ensures Exec(pre + v, s, n) == Exec([r] + v, s, n)
  {
    if pre != [r] {
      assert pre == [q, pre[1]];
      ExecComposed(q, pre[1], v, s, n);
    }
  }

  lemma ExecTail(r: AbstractRule, u: Rules, v: Rules, s: StateSet, n: nat)
    requires r.Wf(n) && AllWf(u, n) && AllWf(v, n) && State(s, n)
    requires Applied(r, s).Some? ==>
      State(Applied(r, s).value, n) && Exec(u, Applied(r, s).value, n) == Exec(v, Applied(r, s).value, n)
    ensures Exec([r] + u, s, n) == Exec([r] + v, s, n)
  {
    assert ([r] + u)[1..] == u && ([r] + v)[1..] == v;
  }

  /** Every run of a word of the old rules is a run of a word of the new ones: the eliminated rule is skipped where it
      has no effect or repeats itself, and otherwise composed with its successor. */
  lemma {:induction false} Contract(rules: Rules, idx: nat, n: nat, w: Rules, p: Port, s: StateSet) returns (w': Rules)
    requires AllWf(rules, n) && idx < |rules| && rules[idx].Silent() && State(s, n)
    requires Word(rules, w, p) && AllWf(w, n) && Exec(w, s, n).Some?
    ensures Word(Eliminated(rules, idx, n), w', p) && AllWf(w', n) && Exec(w', s, n) == Exec(w, s, n)
    decreases |w|
  {
    hide Applied, Concrete, Fits, Composed, Word, Eliminated;
    WordHead(rules, w, p);
    var q, r, rules' := rules[idx], w[0], Eliminated(rules, idx, n);
    assert w == [r] + w[1..];
    if r != q {
      Retained(rules, idx, n, r);
    }
    if |w| == 1 {
      w' := w;
      LastWord(rules', w, p);
      return;
    }
    WordTail(rules, w, p);
    var t := Applied(r, s).value;
    AppliedConcrete(r, s);
    if r != q {
      var v := Contract(rules, idx, n, w[1..], p, t);
      w' := [r] + v;
      ExecTail(r, w[1..], v, s, n);
      WordJoin(rules', [r], v, p);
    } else if Effectless(q) {
      EffectlessExact(q, n);
      w' := Contract(rules, idx, n, w[1..], p, s);
    } else {
      if w[1] == q {
        Idempotent(q, s);
        assert Exec(w[1..], s, n) == Exec(w, s, n);
        w' := Contract(rules, idx, n, w[1..], p, s);
      } else {
        w' := ContractPair(rules, idx, n, w, p, s);
      }
    }
  }

  lemma Retained(rules: Rules, idx: nat, n: nat, r: AbstractRule)
    requires AllWf(rules, n) && idx < |rules| && r in rules && r != rules[idx]
    ensures r in Eliminated(rules, idx, n)
  {
    WithoutHas(rules, idx, r);
  }

  lemma ExecOne(r: AbstractRule, s: StateSet, n: nat)
    requires r.Wf(n) && State(s, n)
    ensures Exec([r], s, n) == Applied(r, s)
  {
    if Applied(r, s).Some? {
      AppliedConcrete(r, s);
      assert [r][1..] == [];
    }
  }

  lemma {:induction false} ContractPair(rules: Rules, idx: nat, n: nat, w: Rules, p: Port, s: StateSet)
      returns (w': Rules)
    requires AllWf(rules, n) && idx < |rules| && rules[idx].Silent() && State(s, n) && !Effectless(rules[idx])
    requires Word(rules, w, p) && AllWf(w, n) && Exec(w, s, n).Some? && |w| > 1 && w[0] == rules[idx]
    requires w[1] != rules[idx]
    ensures Word(Eliminated(rules, idx, n), w', p) && AllWf(w', n) && Exec(w', s, n) == Exec(w, s, n)
    decreases |w|, 0
  {
    var q, r2, tail, rest, rules' := rules[idx], w[1], w[2..], Without(rules, idx), Eliminated(rules, idx, n);
    assert w == [q, r2] + tail;
    ExecComposed(q, r2, tail, s, n);
    var r := Composed(q, r2).value;
    WithoutHas(rules, idx, r2);
    CompositionsAre(q, rest, n, r);
    assert ([r] + tail)[1..] == tail;
    if tail == [] {
      w' := [r];
      assert [r] + tail == [r];
    } else {
      WordTail(rules, w, p);
      WordTail(rules, w[1..], p);
      assert w[1..][1..] == tail;
      AppliedConcrete(r, s);
      var v := Contract(rules, idx, n, tail, p, Applied(r, s).value);
      w' := [r] + v;
      ExecTail(r, tail, v, s, n);
      WordJoin(rules', [r], v, p);
    }
  }

  /** Eliminating one silent rule changes no visible step. */
  lemma EliminationExact(rules: Rules, idx: nat, n: nat, p: Port, s: StateSet, t: StateSet)
    requires AllWf(rules, n) && idx < |rules| && rules[idx].Silent() && State(s, n)
    ensures Weak(Eliminated(rules, idx, n), n, p, s, t) <==> Weak(rules, n, p, s, t)
  {
    var rules' := Eliminated(rules, idx, n);
    if Weak(rules', n, p, s, t) {
      var w: Rules :| Word(rules', w, p) && AllWf(w, n) && Exec(w, s, n) == Some(t);
      var w' := Expand(rules, idx, n, w, p, s);
    }
    if Weak(rules, n, p, s, t) {
      var w: Rules :| Word(rules, w, p) && AllWf(w, n) && Exec(w, s, n) == Some(t);
      var w' := Contract(rules, idx, n, w, p, s);
    }
  }

  /** ... and no visible trace. */
  lemma {:induction false} TracesPreserved(rules: Rules, idx: nat, n: nat, ps: seq<Port>, s: StateSet, t: StateSet)
    requires AllWf(rules, n) && idx < |rules| && rules[idx].Silent() && State(s, n)
    ensures Visible(Eliminated(rules, idx, n), n, ps, s, t) <==> Visible(rules, n, ps, s, t)
    decreases |ps|
  {
    if ps != [] {
      forall u | State(u, n) ensures
          && (Weak(Eliminated(rules, idx, n), n, ps[0], s, u) <==> Weak(rules, n, ps[0], s, u))
          && (Visible(Eliminated(rules, idx, n), n, ps[1..], u, t) <==> Visible(rules, n, ps[1..], u, t))
      {
        EliminationExact(rules, idx, n, ps[0], s, u);
        TracesPreserved(rules, idx, n, ps[1..], u, t);
      }
    }
  }

  /** `after` results from `before` by eliminating silent rules, first ones first, any number of times. */
  ghost predicate Reduces(before: Rules, after: Rules, n: nat, rounds: nat)
    requires AllWf(before, n)
    decreases rounds
  {
    if rounds == 0 then after == before
    else exists idx :: FirstSilent(before, idx) && Reduces(Eliminated(before, idx, n), after, n, rounds - 1)
  }

  /** All visible traces survive any number of eliminations. Once no silent rule is left, a visible step is one rule. */
  lemma {:induction false} ReductionPreserves(before: Rules, after: Rules, n: nat, rounds: nat, ps: seq<Port>,
      s: StateSet, t: StateSet)
    requires AllWf(before, n) && Reduces(before, after, n, rounds) && State(s, n)
    ensures AllWf(after, n) && (Visible(after, n, ps, s, t) <==> Visible(before, n, ps, s, t))
    decreases rounds
  {
    if rounds > 0 {
      var idx :| FirstSilent(before, idx) && Reduces(Eliminated(before, idx, n), after, n, rounds - 1);
      ReductionPreserves(Eliminated(before, idx, n), after, n, rounds - 1, ps, s, t);
      TracesPreserved(before, idx, n, ps, s, t);
    }
  }

  lemma WeakIsOneRule(rules: Rules, n: nat, p: Port, s: StateSet, t: StateSet)
    requires AllWf(rules, n) && State(s, n) && forall r <- rules :: !r.Silent()
    ensures Weak(rules, n, p, s, t) <==> exists r <- rules :: r.port == Some(p) && Applied(r, s) == Some(t)
  {
    if Weak(rules, n, p, s, t) {
      var w: Rules :| Word(rules, w, p) && AllWf(w, n) && Exec(w, s, n) == Some(t);
      if |w| > 1 {
        WordTail(rules, w, p);
      }
      assert w == [w[0]];
      ExecOne(w[0], s, n);
      assert w[0] in rules && w[0].port == Some(p) && Applied(w[0], s) == Some(t);
    }
    if r :| r in rules && r.port == Some(p) && Applied(r, s) == Some(t) {
      ExecOne(r, s, n);
      assert Word(rules, [r], p) && AllWf([r], n) && Exec([r], s, n) == Some(t);
    }
  }
}
