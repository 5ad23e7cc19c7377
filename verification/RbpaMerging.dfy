/** Representing two rules by one (graveyard6/rbpa.rs). */
module RbpaMerging {
  import opened Wrappers
  import opened StateSets
  import opened AbstractRules
  import opened RbpaElimination

  predicate Step(r: AbstractRule, n: nat, p: Option<Port>, s: StateSet, t: StateSet)
    requires r.Wf(n) && State(s, n)
  {
    r.port == p && Applied(r, s) == Some(t)
  }

  /** The steps of `m` are those of the two rules together. */
  ghost predicate Unites(m: AbstractRule, r1: AbstractRule, r2: AbstractRule, n: nat)
    requires m.Wf(n) && r1.Wf(n) && r2.Wf(n)
  {
    forall p, s, t | State(s, n) :: Step(m, n, p, s, t) <==> Step(r1, n, p, s, t) || Step(r2, n, p, s, t)
  }

  /** Every step of the second rule is one of the first, read off the two rules. */
  predicate Covers(r1: AbstractRule, r2: AbstractRule)
    requires SameSize(r1, r2)
  {
    && r1.port == r2.port
    && forall i :: 0 <= i < |r1.guard| ==>
         && (r1.guard[i].X? || r1.guard[i] == r2.guard[i])
         && (r1.assign[i] == r2.assign[i] || (r1.assign[i].X? && r2.assign[i] == r2.guard[i]))
  }

  /** The guards differ in one variable only, with opposite values there. */
  predicate OpposedAt(g1: StateSet, g2: StateSet, i: nat)
    requires |g1| == |g2|
  {
    i < |g1| && Mismatches(g1[i], g2[i]) && forall k :: 0 <= k < |g1| && k != i ==> g1[k] == g2[k]
  }

  predicate Halves(r1: AbstractRule, r2: AbstractRule)
    requires SameSize(r1, r2)
  {
    r1.port == r2.port && r1.assign == r2.assign && exists i :: 0 <= i < |r1.guard| && OpposedAt(r1.guard, r2.guard, i)
  }

  predicate Mergeable(r1: AbstractRule, r2: AbstractRule)
    requires SameSize(r1, r2)
  {
    Covers(r1, r2) || Covers(r2, r1) || Halves(r1, r2)
  }

  /** The test for keeping the first rule alone: its guard is no more specific, and its assignment compares alike. */
  predicate Subsumes(r1: AbstractRule, r2: AbstractRule)
    requires SameSize(r1, r2)
  {
    Leq(r1.guard, r2.guard)
      && (r1.assign == r2.assign || (r1.guard != r2.guard && r1.assign != r2.assign && Leq(r1.assign, r2.assign)))
  }

  ghost predicate Opposed(g1: StateSet, g2: StateSet)
    requires |g1| == |g2|
  {
    exists i: nat :: OpposedAt(g1, g2, i)
  }

  /** The rule that replaces two: the more generic one, or the one that is split in half by them. */
  ghost function Merged(r1: AbstractRule, r2: AbstractRule, n: nat): (m: Option<AbstractRule>)
    requires r1.Wf(n) && r2.Wf(n)
    ensures m.Some? ==> m.value.Wf(n)
  {
    if Subsumes(r1, r2) then Some(r1)
    else if Subsumes(r2, r1) then Some(r2)
    else if r1.assign == r2.assign && Opposed(r1.guard, r2.guard) then
      var i: nat :| OpposedAt(r1.guard, r2.guard, i);
      Some(NewRule(r1.guard[i := X], r1.port, r1.assign, r1.ids + r2.ids))
    else None
  }

  /** Two rules are merged whenever one covers the other or they are halves of one. Some other pairs are merged too, and
      then the result does not have the steps of both. */
  lemma MergedExact(r1: AbstractRule, r2: AbstractRule, n: nat)
    requires r1.Wf(n) && r2.Wf(n)
    ensures Mergeable(r1, r2) ==> Merged(r1, r2, n).Some?
    ensures Merged(r1, r2, n).Some? ==> (Unites(Merged(r1, r2, n).value, r1, r2, n) <==> Mergeable(r1, r2))
  {
    hide Unites;
    if Subsumes(r1, r2) {
      Subsumed(r1, r2, n);
    } else if Subsumes(r2, r1) {
      Subsumed(r2, r1, n);
      UnitesSymmetric(r2, r2, r1, n);
    } else {
      NotCovered(r1, r2, n);
      if r1.assign == r2.assign && Opposed(r1.guard, r2.guard) {
        var i: nat :| OpposedAt(r1.guard, r2.guard, i)
          && Merged(r1, r2, n) == Some(NewRule(r1.guard[i := X], r1.port, r1.assign, r1.ids + r2.ids));
        HalvesUnite(r1, r2, n, i);
      }
    }
  }

  lemma UnitesSymmetric(m: AbstractRule, r1: AbstractRule, r2: AbstractRule, n: nat)
    requires m.Wf(n) && r1.Wf(n) && r2.Wf(n)
    ensures Unites(m, r1, r2, n) <==> Unites(m, r2, r1, n)
  {
  }

  /** A rule that covers another subsumes it. */
  lemma NotCovered(r1: AbstractRule, r2: AbstractRule, n: nat)
    requires r1.Wf(n) && r2.Wf(n) && !Subsumes(r1, r2) && !Subsumes(r2, r1)
    ensures !Covers(r1, r2) && !Covers(r2, r1)
  {
    CoverSubsumes(r1, r2, n);
    CoverSubsumes(r2, r1, n);
  }

  lemma CoverSubsumes(r1: AbstractRule, r2: AbstractRule, n: nat)
    requires r1.Wf(n) && r2.Wf(n)
    ensures Covers(r1, r2) ==> Subsumes(r1, r2)
  {
    if Covers(r1, r2) && r1.guard == r2.guard {
      assert r1.assign == r2.assign;
    }
  }

  lemma ContainsAll(r1: AbstractRule, r2: AbstractRule)
    requires SameSize(r1, r2)
    ensures Contains(r1.guard, r2.guard) <==> Leq(r1.guard, r2.guard)
    ensures Contains(r2.guard, r1.guard) <==> Leq(r2.guard, r1.guard)
    ensures Contains(r1.assign, r2.assign) <==> Leq(r1.assign, r2.assign)
    ensures Contains(r2.assign, r1.assign) <==> Leq(r2.assign, r1.assign)
    ensures Leq(r1.guard, r2.guard) && Leq(r2.guard, r1.guard) ==> r1.guard == r2.guard
    ensures Leq(r1.assign, r2.assign) && Leq(r2.assign, r1.assign) <==> r1.assign == r2.assign
  {
    hide Contains;
    ContainsPointwise(r1.guard, r2.guard);
    ContainsPointwise(r2.guard, r1.guard);
    ContainsPointwise(r1.assign, r2.assign);
    ContainsPointwise(r2.assign, r1.assign);
  }

  lemma OpposedMeans(g1: StateSet, g2: StateSet, i: nat)
    requires |g1| == |g2|
    ensures OpposedAt(g1, g2, i) <==> i < |g1| && {g1[i], g2[i]} == {T, F} && g1[i := X] == g2[i := X]
  {
    if i < |g1| && g1[i := X] == g2[i := X] {
      forall k | 0 <= k < |g1| && k != i ensures g1[k] == g2[k] {
        assert g1[i := X][k] == g2[i := X][k];
      }
    }
    assert forall v, w: Var :: {v, w} == {T, F} <==> Mismatches(v, w) by {
      forall v, w: Var ensures {v, w} == {T, F} <==> Mismatches(v, w) {
        assert v in {v, w} && w in {v, w} && (T in {v, w} <==> v.T? || w.T?) && (F in {v, w} <==> v.F? || w.F?);
      }
    }
  }

  /** Two scans decide whether and how to merge. If the guard of one rule contains that of the other, that rule is kept
      exactly if the assignments are equal or both containments are strict and the same way round. Otherwise the rules
      are merged exactly if their assignments are equal and their guards are opposed in one variable only. */
  method TryMerge(r1: AbstractRule, r2: AbstractRule, n: nat) returns (m: Option<AbstractRule>)
    requires r1.Wf(n) && r2.Wf(n)
    ensures m == Merged(r1, r2, n)
    ensures Contains(r1.guard, r2.guard) ==>
              m == if r1.assign == r2.assign || (!Contains(r2.guard, r1.guard)
                      && Contains(r1.assign, r2.assign) && !Contains(r2.assign, r1.assign))
                   then Some(r1) else None
    ensures !Contains(r1.guard, r2.guard) && Contains(r2.guard, r1.guard) ==>
              m == if r1.assign == r2.assign || (Contains(r2.assign, r1.assign) && !Contains(r1.assign, r2.assign))
                   then Some(r2) else None
    ensures !Contains(r1.guard, r2.guard) && !Contains(r2.guard, r1.guard) ==>
              match m
              case Some(r) =>
                && r1.assign == r2.assign
                && exists i :: 0 <= i < n && {r1.guard[i], r2.guard[i]} == {T, F}
                               && r1.guard[i := X] == r2.guard[i := X] == r.guard
                               && r == AbstractRule(r.guard, r1.port, r1.assign, r1.ids + r2.ids)
              case None =>
                r1.assign == r2.assign ==> forall i :: 0 <= i < n && {r1.guard[i], r2.guard[i]} == {T, F} ==>
                  r1.guard[i := X] != r2.guard[i := X]
    ensures Mergeable(r1, r2) ==> m.Some?
    ensures m.Some? ==> m.value.Wf(n) && (Unites(m.value, r1, r2, n) <==> Mergeable(r1, r2))
  {
    hide Contains, Mergeable, Unites;
    MergedExact(r1, r2, n);
    ContainsAll(r1, r2);
    forall i: nat {
      OpposedMeans(r1.guard, r2.guard, i);
    }
    var g := PartialCmp(r1.guard, r2.guard);
    var a := PartialCmp(r1.assign, r2.assign);
    OrderPointwise(r1.guard, r2.guard, g);
    OrderPointwise(r1.assign, r2.assign, a);
    if g.Some? && a.Some? && (a == Some(Equal) || a == g) && (g == Some(Equal) || g == Some(Less)) {
      return Some(r1);
    } else if g.Some? && a.Some? && (a == Some(Equal) || a == g) && g == Some(Greater) {
      return Some(r2);
    } else if g == None && a == Some(Equal) {
      m := MergeHalves(r1, r2, n);
    } else {
      OpposedApart(r1.guard, r2.guard);
      return None;
    }
  }

  lemma OpposedApart(g1: StateSet, g2: StateSet)
    requires |g1| == |g2|
    ensures Opposed(g1, g2) ==> !Leq(g1, g2) && !Leq(g2, g1)
  {
  }

  lemma OrderPointwise(p: StateSet, q: StateSet, o: Option<Ordering>)
    requires |p| == |q| && Compares(p, q, o)
    ensures (o == Some(Equal) || o == Some(Less)) <==> Leq(p, q)
    ensures (o == Some(Equal) || o == Some(Greater)) <==> Leq(q, p)
    ensures o == Some(Equal) <==> p == q
  {
    ContainsPointwise(p, q);
    ContainsPointwise(q, p);
  }

  method MergeHalves(r1: AbstractRule, r2: AbstractRule, n: nat) returns (m: Option<AbstractRule>)
    requires r1.Wf(n) && r2.Wf(n) && r1.assign == r2.assign
    requires !Leq(r1.guard, r2.guard) && !Leq(r2.guard, r1.guard)
    ensures m == Merged(r1, r2, n)
  {
    var guard := r1.guard;
    var equalSoFar := true;
    ghost var at := 0;
    var i := 0;
    while i < n
      invariant 0 <= i <= n == |guard|
      invariant equalSoFar ==> guard == r1.guard && forall k :: 0 <= k < i ==> r1.guard[k] == r2.guard[k]
      invariant !equalSoFar ==> 0 <= at < i && r1.guard[at] != r2.guard[at] && guard == r1.guard[at := X]
      invariant !equalSoFar ==> forall k :: 0 <= k < i && k != at ==> r1.guard[k] == r2.guard[k]
    {
      if guard[i] != r2.guard[i] {
        if !equalSoFar {
          assert forall k: nat :: !OpposedAt(r1.guard, r2.guard, k);
          return None;
        }
        equalSoFar := false;
        guard := guard[i := X];
        at := i;
      }
      i := i + 1;
    }
    var rule := BuildNewRule(guard, r1.port, r1.assign, r1.ids + r2.ids);
    assert OpposedAt(r1.guard, r2.guard, at) && forall k: nat :: OpposedAt(r1.guard, r2.guard, k) ==> k == at;
    return Some(rule);
  }

  /** Two opposed halves are united exactly if they share their port. */
  lemma HalvesUnite(r1: AbstractRule, r2: AbstractRule, n: nat, i: nat)
    requires r1.Wf(n) && r2.Wf(n) && r1.assign == r2.assign && OpposedAt(r1.guard, r2.guard, i)
    ensures Unites(NewRule(r1.guard[i := X], r1.port, r1.assign, r1.ids + r2.ids), r1, r2, n) <==> Mergeable(r1, r2)
  {
    var m := NewRule(r1.guard[i := X], r1.port, r1.assign, r1.ids + r2.ids);
    assert m.assign == r1.assign;
    if r1.port == r2.port {
      forall s | State(s, n) ensures Fits(m, s) <==> Fits(r1, s) || Fits(r2, s)
                             ensures Fits(r1, s) ==> Applied(m, s) == Applied(r1, s)
                             ensures Fits(r2, s) ==> Applied(m, s) == Applied(r2, s)
      {
        HalfStep(m, r1, r2, n, i, s);
      }
    } else {
      var s := Sample(r2.guard, T);
      assert Step(r2, n, r2.port, s, Applied(r2, s).value) && !Step(m, n, r2.port, s, Applied(r2, s).value);
    }
  }

  lemma HalfStep(m: AbstractRule, r1: AbstractRule, r2: AbstractRule, n: nat, i: nat, s: StateSet)
    requires r1.Wf(n) && r2.Wf(n) && m.Wf(n) && r1.assign == r2.assign == m.assign && OpposedAt(r1.guard, r2.guard, i)
    requires m.guard == r1.guard[i := X] && State(s, n)
    ensures Fits(m, s) <==> Fits(r1, s) || Fits(r2, s)
    ensures Fits(r1, s) ==> Applied(m, s) == Applied(r1, s)
    ensures Fits(r2, s) ==> Applied(m, s) == Applied(r2, s)
  {
    if Fits(m, s) {
      assert forall k :: 0 <= k < n && k != i ==> !Mismatches(r1.guard[k], s[k]) && !Mismatches(r2.guard[k], s[k]);
    }
    if Fits(r1, s) || Fits(r2, s) {
      forall k | 0 <= k < n ensures !Mismatches(m.guard[k], s[k]) {
        assert !Mismatches(r1.guard[k], s[k]) || !Mismatches(r2.guard[k], s[k]);
      }
      assert Fits(r1, s) ==> Applied(m, s).value == Applied(r1, s).value;
      assert Fits(r2, s) ==> Applied(m, s).value == Applied(r2, s).value;
    }
  }

  /** The more generic guard's rule can stand for both exactly if it covers the other. */
  lemma Subsumed(r1: AbstractRule, r2: AbstractRule, n: nat)
    requires r1.Wf(n) && r2.Wf(n)
    requires Leq(r1.guard, r2.guard)
    ensures Unites(r1, r1, r2, n) <==> Mergeable(r1, r2)
    ensures Unites(r1, r2, r1, n) <==> Mergeable(r1, r2)
  {
    hide Applied, Fits;
    assert !Halves(r1, r2);
    assert Covers(r2, r1) ==> Covers(r1, r2);
    if Covers(r1, r2) {
      forall s | State(s, n) && Applied(r2, s).Some? ensures Applied(r1, s) == Applied(r2, s) {
        CoveredStep(r1, r2, n, s);
      }
    } else {
      var s := Uncovered(r1, r2, n);
      var t := Applied(r2, s).value;
      assert Step(r2, n, r2.port, s, t) && !Step(r1, n, r2.port, s, t);
    }
  }

  lemma CoveredStep(r1: AbstractRule, r2: AbstractRule, n: nat, s: StateSet)
    requires r1.Wf(n) && r2.Wf(n) && Covers(r1, r2) && State(s, n) && Applied(r2, s).Some?
    ensures Applied(r1, s) == Applied(r2, s)
  {
    forall i | 0 <= i < n ensures !Mismatches(r1.guard[i], s[i]) {
      assert !Mismatches(r2.guard[i], s[i]);
    }
    assert Applied(r1, s).value == Applied(r2, s).value;
  }

  lemma Uncovered(r1: AbstractRule, r2: AbstractRule, n: nat) returns (s: StateSet)
    requires r1.Wf(n) && r2.Wf(n) && !Covers(r1, r2)
    requires Leq(r1.guard, r2.guard)
    ensures State(s, n) && Applied(r2, s).Some? && (r1.port != r2.port || Applied(r1, s) != Applied(r2, s))
  {
    s := Sample(r2.guard, T);
    if r1.port == r2.port {
      var i :| 0 <= i < n && r1.assign[i] != r2.assign[i] && !(r1.assign[i].X? && r2.assign[i] == r2.guard[i]);
      var v := if r1.assign[i].X? then r2.assign[i] else r1.assign[i];
      s := Sample(r2.guard, if v.T? then F else T);
      assert Applied(r1, s).Some? ==> Applied(r1, s).value[i] != Applied(r2, s).value[i];
    }
  }

  /** Rules for different ports, and rules whose assignments merely compare like their guards, are merged wrongly. */
  lemma MergesTooMuch()
    ensures var r1, r2 := AbstractRule([X], Some(0), [X], []), AbstractRule([T], Some(1), [T], []);
            r1.Wf(1) && r2.Wf(1) && Subsumes(r1, r2) && !Mergeable(r1, r2)
    ensures var r1, r2 := AbstractRule([X, X], Some(0), [T, X], []), AbstractRule([F, X], Some(0), [T, T], []);
            r1.Wf(2) && r2.Wf(2) && Subsumes(r1, r2) && !Mergeable(r1, r2)
  {
    var r1, r2 := AbstractRule([X, X], Some(0), [T, X], []), AbstractRule([F, X], Some(0), [T, T], []);
    assert r1.assign[1] != r2.assign[1] && r2.assign[1] != r2.guard[1];
    assert r2.assign != r1.assign;
    assert !(r2.guard[0].X? || r2.guard[0] == r1.guard[0]);
  }
}
