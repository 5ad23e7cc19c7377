/** Whole rounds of normalization: a silent rule is eliminated, then rules are merged (graveyard6/rbpa.rs). */
module RbpaNormalization {
  import opened Wrappers
  import opened StateSets
  import opened AbstractRules
  import opened RbpaElimination
  import opened RbpaMerging

  // ---------------------------------------------------------------- merging all

  /** The first pair of rules, row by row, that is merged. */
  ghost predicate FirstPair(rules: Rules, n: nat, i: nat, j: nat)
    requires AllWf(rules, n)
  {
    && i < j < |rules| && Merged(rules[i], rules[j], n).Some?
    && forall k, l :: 0 <= k < l < |rules| && (k < i || (k == i && l < j)) ==> Merged(rules[k], rules[l], n).None?
  }

  ghost function Joined(rules: Rules, n: nat, i: nat, j: nat): (rs: Rules)
    requires AllWf(rules, n) && i < j < |rules| && Merged(rules[i], rules[j], n).Some?
    ensures AllWf(rs, n) && |rs| == |rules| - 1
  {
    Without(rules[i := Merged(rules[i], rules[j], n).value], j)
  }

  ghost predicate CanMerge(rules: Rules, n: nat)
    requires AllWf(rules, n)
  {
    exists i, j: nat :: FirstPair(rules, n, i, j)
  }

  ghost function TheFirst(rules: Rules, n: nat): (ij: (nat, nat))
    requires AllWf(rules, n) && CanMerge(rules, n)
    ensures FirstPair(rules, n, ij.0, ij.1)
  {
    var i, j: nat :| FirstPair(rules, n, i, j);
    (i, j)
  }

  ghost function JoinedOnce(rules: Rules, n: nat): (rs: Rules)
    requires AllWf(rules, n) && CanMerge(rules, n)
    ensures AllWf(rs, n) && |rs| == |rules| - 1
  {
    Joined(rules, n, TheFirst(rules, n).0, TheFirst(rules, n).1)
  }

  /** What is left when no two rules can be merged any more. */
  ghost function MergeAll(rules: Rules, n: nat): (rs: Rules)
    requires AllWf(rules, n)
    ensures AllWf(rs, n) && |rs| <= |rules|
    decreases |rules|
  {
    if CanMerge(rules, n) then MergeAll(JoinedOnce(rules, n), n) else rules
  }

  /** Every pair that is merged on the way may be. */
  ghost predicate MergesRightly(rules: Rules, n: nat)
    requires AllWf(rules, n)
    decreases |rules|
  {
    CanMerge(rules, n) ==>
      Mergeable(rules[TheFirst(rules, n).0], rules[TheFirst(rules, n).1]) && MergesRightly(JoinedOnce(rules, n), n)
  }

  lemma OneFirstPair(rules: Rules, n: nat, i: nat, j: nat, k: nat, l: nat)
    requires AllWf(rules, n) && FirstPair(rules, n, i, j) && FirstPair(rules, n, k, l)
    ensures i == k && j == l
  {
  }

  lemma MergeFirst(rules: Rules, n: nat, i: nat, j: nat)
    requires AllWf(rules, n) && FirstPair(rules, n, i, j)
    ensures CanMerge(rules, n) && TheFirst(rules, n) == (i, j) && JoinedOnce(rules, n) == Joined(rules, n, i, j)
    ensures MergeAll(rules, n) == MergeAll(Joined(rules, n, i, j), n)
  {
    hide FirstPair;
    var ij := TheFirst(rules, n);
    OneFirstPair(rules, n, i, j, ij.0, ij.1);
  }

  /** Merging goes on as long as it can: the first pair that is merged, row by row, is replaced at the place of its
      first rule. */
  lemma MergeAllMeans(rules: Rules, n: nat, i: nat, j: nat)
    requires AllWf(rules, n) && i < j < |rules| && Merged(rules[i], rules[j], n).Some?
    requires forall k, l :: 0 <= k < l < |rules| && (k < i || (k == i && l < j)) ==> Merged(rules[k], rules[l], n).None?
    ensures var rules' := rules[..i] + [Merged(rules[i], rules[j], n).value] + rules[i + 1..j] + rules[j + 1..];
            FirstPair(rules, n, i, j) && AllWf(rules', n) && MergeAll(rules, n) == MergeAll(rules', n)
  {
    hide Merged, MergeAll;
    MergeFirst(rules, n, i, j);
    assert Joined(rules, n, i, j)
      == rules[..i] + [Merged(rules[i], rules[j], n).value] + rules[i + 1..j] + rules[j + 1..];
  }

  lemma MergeNone(rules: Rules, n: nat)
    requires AllWf(rules, n) && forall k, l :: 0 <= k < l < |rules| ==> Merged(rules[k], rules[l], n).None?
    ensures !CanMerge(rules, n) && MergeAll(rules, n) == rules
  {
    hide Merged;
  }

  // ---------------------------------------------------------------- the same steps, the same traces

  ghost predicate Steps(rules: Rules, n: nat, p: Option<Port>, s: StateSet, t: StateSet)
    requires AllWf(rules, n) && State(s, n)
  {
    exists i :: 0 <= i < |rules| && Step(rules[i], n, p, s, t)
  }

  ghost predicate SameSteps(rules: Rules, rules': Rules, n: nat)
    requires AllWf(rules, n) && AllWf(rules', n)
  {
    forall p, s, t | State(s, n) :: Steps(rules, n, p, s, t) <==> Steps(rules', n, p, s, t)
  }

  /** Merging two rules that may be merged changes no step of the automaton. */
  lemma JoinedSteps(rules: Rules, n: nat, i: nat, j: nat)
    requires AllWf(rules, n) && i < j < |rules| && Merged(rules[i], rules[j], n).Some? && Mergeable(rules[i], rules[j])
    ensures SameSteps(rules, Joined(rules, n, i, j), n)
  {
    hide Step, Merged, Mergeable;
    MergedExact(rules[i], rules[j], n);
    var m, rules' := Merged(rules[i], rules[j], n).value, Joined(rules, n, i, j);
    forall p, s, t | State(s, n) ensures Steps(rules, n, p, s, t) <==> Steps(rules', n, p, s, t) {
      assert Step(m, n, p, s, t) <==> Step(rules[i], n, p, s, t) || Step(rules[j], n, p, s, t);
      if k :| 0 <= k < |rules| && Step(rules[k], n, p, s, t) {
        var k' := if k == j then i else if k < j then k else k - 1;
        assert Step(rules'[k'], n, p, s, t);
      }
      if k :| 0 <= k < |rules'| && Step(rules'[k], n, p, s, t) {
        var k' := if k < j then k else k + 1;
        assert k != i ==> rules'[k] == rules[k'];
      }
    }
  }

  lemma {:induction false} MergeAllSteps(rules: Rules, n: nat)
    requires AllWf(rules, n) && MergesRightly(rules, n)
    ensures SameSteps(rules, MergeAll(rules, n), n)
    decreases |rules|
  {
    hide Merged, Mergeable, Steps;
    if CanMerge(rules, n) {
      JoinedSteps(rules, n, TheFirst(rules, n).0, TheFirst(rules, n).1);
      MergeAllSteps(JoinedOnce(rules, n), n);
    }
  }

  /** A word of one automaton, rule for rule a word of the other with the same run. */
  lemma {:induction false} SameWord(rules: Rules, rules': Rules, n: nat, w: Rules, p: Port, s: StateSet)
      returns (w': Rules)
    requires AllWf(rules, n) && AllWf(rules', n) && SameSteps(rules, rules', n) && State(s, n)
    requires Word(rules, w, p) && AllWf(w, n) && Exec(w, s, n).Some?
    ensures Word(rules', w', p) && AllWf(w', n) && Exec(w', s, n) == Exec(w, s, n)
    decreases |w|
  {
    hide Applied, Concrete, Fits, Word, SameSteps;
    WordHead(rules, w, p);
    var t := Applied(w[0], s).value;
    var r := SameStep(rules, rules', n, w[0], s, t);
    AppliedConcrete(w[0], s);
    assert w == [w[0]] + w[1..];
    if |w| == 1 {
      w' := [r];
      ExecOne(r, s, n);
      ExecOne(w[0], s, n);
      assert w == [w[0]];
      LastWord(rules', [r], p);
    } else {
      WordTail(rules, w, p);
      var v := SameWord(rules, rules', n, w[1..], p, t);
      w' := [r] + v;
      assert w'[1..] == v;
      WordJoin(rules', [r], v, p);
    }
  }

  lemma SameStep(rules: Rules, rules': Rules, n: nat, r: AbstractRule, s: StateSet, t: StateSet)
      returns (r': AbstractRule)
    requires AllWf(rules, n) && AllWf(rules', n) && SameSteps(rules, rules', n) && State(s, n)
    requires r in rules && r.Wf(n) && Applied(r, s) == Some(t)
    ensures r' in rules' && r'.Wf(n) && r'.port == r.port && Applied(r', s) == Some(t)
  {
    var i :| 0 <= i < |rules| && rules[i] == r;
    assert Step(rules[i], n, r.port, s, t);
    assert Steps(rules, n, r.port, s, t) && Steps(rules', n, r.port, s, t);
    var k :| 0 <= k < |rules'| && Step(rules'[k], n, r.port, s, t);
    r' := rules'[k];
  }

  lemma SameSymmetric(rules: Rules, rules': Rules, n: nat)
    requires AllWf(rules, n) && AllWf(rules', n) && SameSteps(rules, rules', n)
    ensures SameSteps(rules', rules, n)
  {
    hide Steps;
  }

  lemma SameWeak(rules: Rules, rules': Rules, n: nat, p: Port, s: StateSet, t: StateSet)
    requires AllWf(rules, n) && AllWf(rules', n) && SameSteps(rules, rules', n) && State(s, n)
    ensures Weak(rules, n, p, s, t) <==> Weak(rules', n, p, s, t)
  {
    hide SameSteps, Word, Exec;
    SameSymmetric(rules, rules', n);
    if Weak(rules, n, p, s, t) {
      var w: Rules :| Word(rules, w, p) && AllWf(w, n) && Exec(w, s, n) == Some(t);
      var w' := SameWord(rules, rules', n, w, p, s);
    }
    if Weak(rules', n, p, s, t) {
      var w: Rules :| Word(rules', w, p) && AllWf(w, n) && Exec(w, s, n) == Some(t);
      var w' := SameWord(rules', rules, n, w, p, s);
    }
  }

  /** Automata with the same steps have the same visible traces. */
  lemma {:induction false} SameTraces(rules: Rules, rules': Rules, n: nat, ps: seq<Port>, s: StateSet, t: StateSet)
    requires AllWf(rules, n) && AllWf(rules', n) && SameSteps(rules, rules', n) && State(s, n)
    ensures Visible(rules, n, ps, s, t) <==> Visible(rules', n, ps, s, t)
    decreases |ps|
  {
    hide SameSteps, Weak;
    if ps != [] {
      forall u | State(u, n) ensures
          && (Weak(rules, n, ps[0], s, u) <==> Weak(rules', n, ps[0], s, u))
          && (Visible(rules, n, ps[1..], u, t) <==> Visible(rules', n, ps[1..], u, t))
      {
        SameWeak(rules, rules', n, ps[0], s, u);
        SameTraces(rules, rules', n, ps[1..], u, t);
      }
    }
  }

  // ---------------------------------------------------------------- rounds

  /** The first silent rule is eliminated, then rules are merged; a rule without effect is only removed. */
  ghost function Tidied(rules: Rules, idx: nat, n: nat): (rs: Rules)
    requires AllWf(rules, n) && idx < |rules|
    ensures AllWf(rs, n)
  {
    if Effectless(rules[idx]) then Eliminated(rules, idx, n) else MergeAll(Eliminated(rules, idx, n), n)
  }

  /** One round of normalization. */
  ghost predicate Round(before: Rules, after: Rules, n: nat)
    requires AllWf(before, n)
  {
    exists idx: nat :: FirstSilent(before, idx) && after == Tidied(before, idx, n)
  }

  /** All pairs merged in the round may be merged. */
  ghost predicate RoundRight(before: Rules, n: nat)
    requires AllWf(before, n)
  {
    forall idx: nat :: FirstSilent(before, idx) && !Effectless(before[idx]) ==>
      MergesRightly(Eliminated(before, idx, n), n)
  }

  ghost predicate Rounds(before: Rules, after: Rules, n: nat, rounds: nat)
    requires AllWf(before, n)
    decreases rounds
  {
    if rounds == 0 then after == before
    else exists mid :: AllWf(mid, n) && Round(before, mid, n) && Rounds(mid, after, n, rounds - 1)
  }

  /** None of the rounds merges what it should not. */
  ghost predicate AllRight(before: Rules, n: nat, rounds: nat)
    requires AllWf(before, n)
    decreases rounds
  {
    rounds > 0 ==>
      RoundRight(before, n) && forall mid :: AllWf(mid, n) && Round(before, mid, n) ==> AllRight(mid, n, rounds - 1)
  }

  lemma RoundPreserves(before: Rules, after: Rules, n: nat, ps: seq<Port>, s: StateSet, t: StateSet)
    requires AllWf(before, n) && Round(before, after, n) && RoundRight(before, n) && State(s, n)
    ensures AllWf(after, n) && (Visible(after, n, ps, s, t) <==> Visible(before, n, ps, s, t))
  {
    hide Visible, MergesRightly, MergeAll, SameSteps, Eliminated, Effectless;
    var idx: nat :| FirstSilent(before, idx) && after == Tidied(before, idx, n);
    TracesPreserved(before, idx, n, ps, s, t);
    if !Effectless(before[idx]) {
      MergeAllSteps(Eliminated(before, idx, n), n);
      SameTraces(Eliminated(before, idx, n), after, n, ps, s, t);
    }
  }

  /** All visible traces survive any number of rounds that merge only what may be merged. */
  lemma {:induction false} NormalizationPreserves(before: Rules, after: Rules, n: nat, rounds: nat, ps: seq<Port>,
      s: StateSet, t: StateSet)
    requires AllWf(before, n) && Rounds(before, after, n, rounds) && AllRight(before, n, rounds) && State(s, n)
    ensures AllWf(after, n) && (Visible(after, n, ps, s, t) <==> Visible(before, n, ps, s, t))
    decreases rounds
  {
    hide Visible, Round, RoundRight;
    if rounds > 0 {
      var mid: Rules :| AllWf(mid, n) && Round(before, mid, n) && Rounds(mid, after, n, rounds - 1);
      RoundPreserves(before, mid, n, ps, s, t);
      NormalizationPreserves(mid, after, n, rounds - 1, ps, s, t);
    }
  }

  /** One more round at the end. */
  lemma {:induction false} RoundsMore(before: Rules, mid: Rules, after: Rules, n: nat, rounds: nat)
    requires AllWf(before, n) && Rounds(before, mid, n, rounds) && AllWf(mid, n) && Round(mid, after, n)
    requires AllWf(after, n)
    ensures Rounds(before, after, n, rounds + 1)
    decreases rounds
  {
    hide Round;
    if rounds == 0 {
      assert Rounds(after, after, n, 0);
    } else {
      var next: Rules :| AllWf(next, n) && Round(before, next, n) && Rounds(next, mid, n, rounds - 1);
      RoundsMore(next, mid, after, n, rounds - 1);
    }
  }
}
