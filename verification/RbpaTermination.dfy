/** When normalization ends: it need not, and it does if no silent rules follow each other in a circle
    (graveyard6/rbpa.rs). */
module RbpaTermination {
  import opened Wrappers
  import opened StateSets
  import opened AbstractRules
  import opened RbpaElimination
  import opened RbpaMerging
  import opened RbpaNormalization

  // ---------------------------------------------------------------- it need not

  function Left(ids: seq<nat>): AbstractRule { AbstractRule([F, X, X], None, [F, F, X], ids) }

  function Right(ids: seq<nat>): AbstractRule { AbstractRule([X, F, X], None, [F, F, X], ids) }

  lemma LeftRight(ids: seq<nat>, ids': seq<nat>)
    ensures Left(ids).Wf(3) && Right(ids).Wf(3) && !Effectless(Left(ids))
    ensures Composed(Left(ids), Right(ids')) == Some(Left(ids')) && Merged(Right(ids'), Left(ids), 3) == None
  {
    var l, r := Left(ids), Right(ids');
    assert l.guard[0] == F && l.guard[1] == X && r.guard[0] == X && r.guard[1] == F;
    assert Sequence(l, r).guard == [F, X, X] && Sequence(l, r).assign == [F, F, X];
  }

  lemma RightLeft(ids: seq<nat>, ids': seq<nat>)
    ensures !Effectless(Right(ids))
    ensures Composed(Right(ids), Left(ids')) == Some(Right(ids')) && Merged(Left(ids'), Right(ids), 3) == None
  {
    var l, r := Left(ids'), Right(ids);
    assert l.guard[0] == F && l.guard[1] == X && r.guard[0] == X && r.guard[1] == F;
    assert Sequence(r, l).guard == [X, F, X] && Sequence(r, l).assign == [F, F, X];
  }

  /** Two silent rules, each of which turns the other into itself. */
  ghost predicate Circling(rules: Rules) {
    exists a, b :: rules == [Left(a), Right(b)] || rules == [Right(a), Left(b)]
  }

  lemma PairRound(q: AbstractRule, r: AbstractRule, q': AbstractRule)
    requires q.Wf(3) && r.Wf(3) && q'.Wf(3) && q.Silent() && !Effectless(q)
    requires Composed(q, r) == Some(q') && Merged(r, q', 3) == None
    ensures FirstSilent([q, r], 0) && Eliminated([q, r], 0, 3) == [r, q'] && MergeAll([r, q'], 3) == [r, q']
    ensures MergesRightly([r, q'], 3)
  {
    hide Composed, Merged, Compositions, MergeAll, MergesRightly, CanMerge, Effectless;
    assert Without([q, r], 0) == [r];
    OneComposition(q, r);
    NoMerge(r, q');
    assert [r] + [q'] == [r, q'];
  }

  lemma OneComposition(q: AbstractRule, r: AbstractRule)
    requires q.Wf(3) && r.Wf(3) && Composed(q, r).Some?
    ensures Compositions(q, [r], 3) == [Composed(q, r).value]
  {
    hide Composed;
    assert [r][..0] == [];
    assert Compositions(q, [], 3) == [];
  }

  lemma NoMerge(q: AbstractRule, r: AbstractRule)
    requires q.Wf(3) && r.Wf(3) && Merged(q, r, 3) == None
    ensures MergeAll([q, r], 3) == [q, r] && MergesRightly([q, r], 3)
  {
    hide Merged;
    assert !CanMerge([q, r], 3);
  }

  /** One round leaves two such rules. */
  lemma CirclingRound(rules: Rules, rules': Rules)
    requires Circling(rules) && AllWf(rules, 3) && Round(rules, rules', 3)
    ensures Circling(rules')
  {
    hide Composed, Merged, Eliminated, MergeAll, Effectless, MergesRightly;
    var a, b :| rules == [Left(a), Right(b)] || rules == [Right(a), Left(b)];
    CircleRound(a, b);
    assert FirstSilent(rules, 0);
  }

  lemma CircleRound(a: seq<nat>, b: seq<nat>)
    ensures Left(a).Wf(3) && Right(a).Wf(3) && Left(b).Wf(3) && Right(b).Wf(3)
    ensures FirstSilent([Left(a), Right(b)], 0) && Eliminated([Left(a), Right(b)], 0, 3) == [Right(b), Left(b)]
    ensures FirstSilent([Right(a), Left(b)], 0) && Eliminated([Right(a), Left(b)], 0, 3) == [Left(b), Right(b)]
    ensures MergeAll([Right(b), Left(b)], 3) == [Right(b), Left(b)] && MergesRightly([Right(b), Left(b)], 3)
    ensures MergeAll([Left(b), Right(b)], 3) == [Left(b), Right(b)] && MergesRightly([Left(b), Right(b)], 3)
  {
    hide Composed, Merged, Eliminated, MergeAll, Effectless, MergesRightly;
    LeftRight(a, b);
    LeftRight(b, b);
    RightLeft(a, b);
    RightLeft(b, b);
    PairRound(Left(a), Right(b), Left(b));
    PairRound(Right(a), Left(b), Right(b));
  }

  /** However many rounds are made of these two rules, a silent rule is left, so the loop of `normalize` never ends. */
  lemma {:induction false} NeverEnds(rules: Rules, rules': Rules, rounds: nat)
    requires Circling(rules) && AllWf(rules, 3) && Rounds(rules, rules', 3, rounds)
    ensures FirstSilent(rules', 0)
    decreases rounds
  {
    hide Round, Circling;
    if rounds == 0 {
      assert FirstSilent(rules, 0) by {
        CirclingSilent(rules);
      }
    } else {
      var mid: Rules :| AllWf(mid, 3) && Round(rules, mid, 3) && Rounds(mid, rules', 3, rounds - 1);
      CirclingRound(rules, mid);
      NeverEnds(mid, rules', rounds - 1);
    }
  }

  lemma CirclingSilent(rules: Rules)
    requires Circling(rules)
    ensures FirstSilent(rules, 0)
  {
  }

  lemma CirclingNext(rules: Rules) returns (next: Rules)
    requires Circling(rules)
    ensures AllWf(rules, 3) && AllWf(next, 3) && Circling(next) && Round(rules, next, 3)
  {
    hide MergeAll, MergesRightly, Eliminated, Left, Right, Effectless;
    var a, b :| rules == [Left(a), Right(b)] || rules == [Right(a), Left(b)];
    CircleRound(a, b);
    next := if rules == [Left(a), Right(b)] then [Right(b), Left(b)] else [Left(b), Right(b)];
    assert FirstSilent(rules, 0) && next == Tidied(rules, 0, 3);
  }

  /** And any number of rounds can be made. */
  lemma {:induction false} AnyRounds(rules: Rules, rounds: nat)
    requires Circling(rules) && AllWf(rules, 3)
    ensures exists rules' :: Rounds(rules, rules', 3, rounds)
    decreases rounds
  {
    hide Round, Circling;
    if rounds == 0 {
      assert Rounds(rules, rules, 3, 0);
    } else {
      var mid := CirclingNext(rules);
      AnyRounds(mid, rounds - 1);
      var rules' :| Rounds(mid, rules', 3, rounds - 1);
      assert Rounds(rules, rules', 3, rounds);
    }
  }

  // ---------------------------------------------------------------- weighing silent rules

  function Share(r: AbstractRule, w: nat, q: AbstractRule): nat
    requires |q.assign| == |r.guard|
  {
    if r.Silent() && MayPrecede(q, r) then w else 0
  }

  /** The weight of the silent rules that may follow `q`. */
  function Load(rules: Rules, ws: seq<nat>, q: AbstractRule, n: nat): nat
    requires AllWf(rules, n) && |ws| == |rules| && q.Wf(n)
  {
    if rules == [] then 0
    else
      var k := |rules| - 1;
      Load(rules[..k], ws[..k], q, n) + Share(rules[k], ws[k], q)
  }

  /** Every silent rule outweighs the silent rules that may follow it. */
  ghost predicate Weighted(rules: Rules, ws: seq<nat>, n: nat)
    requires AllWf(rules, n)
  {
    |ws| == |rules| && forall i :: 0 <= i < |rules| && rules[i].Silent() ==> Load(rules, ws, rules[i], n) < ws[i]
  }

  /** A rule that anything may follow. */
  function Skip(n: nat): (r: AbstractRule)
    ensures r.Wf(n)
  {
    AbstractRule(seq(n, i => X), None, seq(n, i => X), [])
  }

  /** The weight of all silent rules. */
  function Total(rules: Rules, ws: seq<nat>, n: nat): nat
    requires AllWf(rules, n) && |ws| == |rules|
  {
    Load(rules, ws, Skip(n), n)
  }

  lemma {:induction false} LoadAppend(rules: Rules, ws: seq<nat>, more: Rules, vs: seq<nat>, q: AbstractRule, n: nat)
    requires AllWf(rules, n) && |ws| == |rules| && AllWf(more, n) && |vs| == |more| && q.Wf(n)
    ensures Load(rules + more, ws + vs, q, n) == Load(rules, ws, q, n) + Load(more, vs, q, n)
    decreases |more|
  {
    hide Share;
    if more == [] {
      assert rules + more == rules && ws + vs == ws;
    } else {
      var k := |more| - 1;
      LoadAppend(rules, ws, more[..k], vs[..k], q, n);
      assert (rules + more)[..|rules| + k] == rules + more[..k] && (ws + vs)[..|rules| + k] == ws + vs[..k];
    }
  }

  lemma LoadOne(r: AbstractRule, w: nat, q: AbstractRule, n: nat)
    requires r.Wf(n) && q.Wf(n)
    ensures Load([r], [w], q, n) == Share(r, w, q)
  {
    hide Share;
    assert [r][..0] == [] && [w][..0] == [];
  }

  function Dropped(ws: seq<nat>, idx: nat): seq<nat>
    requires idx < |ws|
  {
    ws[..idx] + ws[idx + 1..]
  }

  lemma LoadMid(rules: Rules, ws: seq<nat>, r: AbstractRule, w: nat, more: Rules, vs: seq<nat>, q: AbstractRule, n: nat)
    requires AllWf(rules, n) && |ws| == |rules| && AllWf(more, n) && |vs| == |more| && r.Wf(n) && q.Wf(n)
    ensures Load(rules + [r] + more, ws + [w] + vs, q, n) == Load(rules + more, ws + vs, q, n) + Share(r, w, q)
  {
    hide Share, Load;
    LoadAppend(rules, ws, more, vs, q, n);
    LoadAppend(rules, ws, [r], [w], q, n);
    LoadAppend(rules + [r], ws + [w], more, vs, q, n);
    LoadOne(r, w, q, n);
  }

  lemma LoadWithout(rules: Rules, ws: seq<nat>, idx: nat, q: AbstractRule, n: nat)
    requires AllWf(rules, n) && |ws| == |rules| && q.Wf(n) && idx < |rules|
    ensures Load(rules, ws, q, n) == Load(Without(rules, idx), Dropped(ws, idx), q, n) + Share(rules[idx], ws[idx], q)
  {
    hide Share, Load;
    LoadMid(rules[..idx], ws[..idx], rules[idx], ws[idx], rules[idx + 1..], ws[idx + 1..], q, n);
    Around(rules, idx);
    Around(ws, idx);
  }

  lemma Around<T>(xs: seq<T>, i: nat)
    requires i < |xs|
    ensures xs == xs[..i] + [xs[i]] + xs[i + 1..]
  {
  }

  /** What may follow `p` may follow `q`. */
  ghost predicate Under(p: AbstractRule, q: AbstractRule, n: nat)
    requires p.Wf(n) && q.Wf(n)
  {
    forall r: AbstractRule | r.Wf(n) && r.Silent() :: MayPrecede(p, r) ==> MayPrecede(q, r)
  }

  lemma {:induction false} LoadUnder(rules: Rules, ws: seq<nat>, p: AbstractRule, q: AbstractRule, n: nat)
    requires AllWf(rules, n) && |ws| == |rules| && p.Wf(n) && q.Wf(n) && Under(p, q, n)
    ensures Load(rules, ws, p, n) <= Load(rules, ws, q, n)
    decreases |rules|
  {
    if rules != [] {
      var k := |rules| - 1;
      LoadUnder(rules[..k], ws[..k], p, q, n);
    }
  }

  lemma {:induction false} ShareOfLoad(rules: Rules, ws: seq<nat>, i: nat, q: AbstractRule, n: nat)
    requires AllWf(rules, n) && |ws| == |rules| && q.Wf(n) && i < |rules|
    ensures Share(rules[i], ws[i], q) <= Load(rules, ws, q, n)
  {
    hide Share, Load;
    LoadWithout(rules, ws, i, q, n);
  }

  // ---------------------------------------------------------------- eliminating

  /** A composed rule follows only what its first part follows, and is followed only by what may follow its last. */
  lemma ComposedBetween(q: AbstractRule, r: AbstractRule, x: AbstractRule, n: nat)
    requires q.Wf(n) && r.Wf(n) && x.Wf(n) && q.Silent() && Composed(q, r).Some?
    ensures var c := Composed(q, r).value;
            && c.Wf(n) && c.port == r.port && (MayPrecede(x, c) ==> MayPrecede(x, q)) && (r.Silent() ==> Under(c, r, n))
  {
    var c := Composed(q, r).value;
    forall i | 0 <= i < n
      ensures !Mismatches(x.assign[i], c.guard[i]) ==> !Mismatches(x.assign[i], q.guard[i])
      ensures r.assign[i].X? || c.assign[i] == r.assign[i]
    {
    }
  }

  function ComposedWeights(q: AbstractRule, rules: Rules, ws: seq<nat>, n: nat): (vs: seq<nat>)
    requires q.Wf(n) && AllWf(rules, n) && |ws| == |rules|
    ensures |vs| == |Compositions(q, rules, n)|
  {
    if rules == [] then []
    else
      var k := |rules| - 1;
      ComposedWeights(q, rules[..k], ws[..k], n) + if Composed(q, rules[k]).Some? then [ws[k]] else []
  }

  /** The compositions weigh no more for `x` than the rules they come from weigh for `q`, and nothing if `q` may not
      follow `x`. */
  lemma {:induction false} ComposedLoad(q: AbstractRule, rules: Rules, ws: seq<nat>, x: AbstractRule, n: nat)
    requires q.Wf(n) && AllWf(rules, n) && |ws| == |rules| && x.Wf(n) && q.Silent()
    ensures Load(Compositions(q, rules, n), ComposedWeights(q, rules, ws, n), x, n) <= Share(q, Load(rules, ws, q, n),
      x)
    decreases |rules|
  {
    hide Composed;
    if rules != [] {
      var k := |rules| - 1;
      ComposedLoad(q, rules[..k], ws[..k], x, n);
      var cs, vs := Compositions(q, rules[..k], n), ComposedWeights(q, rules[..k], ws[..k], n);
      if Composed(q, rules[k]).Some? {
        var c := Composed(q, rules[k]).value;
        ComposedBetween(q, rules[k], x, n);
        ComposedMay(q, rules[k]);
        LoadAppend(cs, vs, [c], [ws[k]], x, n);
        LoadOne(c, ws[k], x, n);
      } else {
        assert cs + [] == cs && vs + [] == vs;
      }
    }
  }

  lemma ComposedMay(q: AbstractRule, r: AbstractRule)
    requires SameSize(q, r) && Composed(q, r).Some?
    ensures MayPrecede(q, r)
  {
  }

  lemma {:induction false} CompositionAt(q: AbstractRule, rules: Rules, ws: seq<nat>, n: nat, i: nat) returns (j: nat)
    requires q.Wf(n) && AllWf(rules, n) && |ws| == |rules| && i < |Compositions(q, rules, n)|
    ensures j < |rules| && Composed(q, rules[j]) == Some(Compositions(q, rules, n)[i])
    ensures ComposedWeights(q, rules, ws, n)[i] == ws[j]
    decreases |rules|
  {
    hide Composed;
    var k := |rules| - 1;
    if i < |Compositions(q, rules[..k], n)| {
      j := CompositionAt(q, rules[..k], ws[..k], n, i);
    } else {
      j := k;
    }
  }

  function EliminatedWeights(rules: Rules, ws: seq<nat>, idx: nat, n: nat): (vs: seq<nat>)
    requires AllWf(rules, n) && |ws| == |rules| && idx < |rules|
    ensures |vs| == |Eliminated(rules, idx, n)|
  {
    Dropped(ws, idx) + if Effectless(rules[idx]) then []
      else ComposedWeights(rules[idx], Without(rules, idx), Dropped(ws, idx), n)
  }

  /** For any rule, what is left weighs no more than what was there. */
  lemma EliminatedLoad(rules: Rules, ws: seq<nat>, idx: nat, x: AbstractRule, n: nat)
    requires AllWf(rules, n) && Weighted(rules, ws, n) && idx < |rules| && rules[idx].Silent() && x.Wf(n)
    ensures var q, rest, vs := rules[idx], Without(rules, idx), Dropped(ws, idx);
            && Load(Eliminated(rules, idx, n), EliminatedWeights(rules, ws, idx, n), x, n)
               <= Load(rest, vs, x, n) + Share(q, Load(rest, vs, q, n), x)
            && Load(rest, vs, q, n) < ws[idx] && Load(rules, ws, x, n) == Load(rest, vs, x, n) + Share(q, ws[idx], x)
  {
    hide Load, Compositions, ComposedWeights, Effectless;
    var q, rest, vs := rules[idx], Without(rules, idx), Dropped(ws, idx);
    LoadWithout(rules, ws, idx, x, n);
    LoadWithout(rules, ws, idx, q, n);
    ComposedLoad(q, rest, vs, x, n);
    LoadAppend(rest, vs, Compositions(q, rest, n), ComposedWeights(q, rest, vs, n), x, n);
    assert rest + [] == rest && vs + [] == vs;
  }

  /** Where a rule that is left was before. */
  lemma WithoutAt(rules: Rules, ws: seq<nat>, idx: nat, k: nat) returns (i: nat)
    requires |ws| == |rules| && idx < |rules| && k < |rules| - 1
    ensures i < |rules| && i != idx && rules[i] == Without(rules, idx)[k] && ws[i] == Dropped(ws, idx)[k]
  {
    i := if k < idx then k else k + 1;
  }

  lemma RetainedLight(rules: Rules, ws: seq<nat>, idx: nat, i: nat, n: nat)
    requires AllWf(rules, n) && Weighted(rules, ws, n) && idx < |rules| && rules[idx].Silent() && i < |rules|
    requires rules[i].Silent()
    ensures Load(Eliminated(rules, idx, n), EliminatedWeights(rules, ws, idx, n), rules[i], n) < ws[i]
  {
    hide Load, Eliminated, EliminatedWeights, MayPrecede;
    EliminatedLoad(rules, ws, idx, rules[i], n);
  }

  lemma CompositionLight(rules: Rules, ws: seq<nat>, idx: nat, i: nat, n: nat)
    requires AllWf(rules, n) && Weighted(rules, ws, n) && idx < |rules| && rules[idx].Silent() && i < |rules|
    requires rules[i].Silent()
    requires i != idx && Composed(rules[idx], rules[i]).Some?
    ensures Composed(rules[idx], rules[i]).value.Wf(n)
    ensures Load(Eliminated(rules, idx, n), EliminatedWeights(rules, ws, idx, n),
      Composed(rules[idx], rules[i]).value, n) < ws[i]
  {
    hide Load, Eliminated, EliminatedWeights, MayPrecede, Composed;
    var q, r, c := rules[idx], rules[i], Composed(rules[idx], rules[i]).value;
    ComposedMay(q, r);
    ComposedBetween(q, r, q, n);
    EliminatedLoad(rules, ws, idx, c, n);
    EliminatedLoad(rules, ws, idx, r, n);
    LoadUnder(Without(rules, idx), Dropped(ws, idx), c, r, n);
    ShareOfLoad(rules, ws, i, q, n);
    ShareOfLoad(rules, ws, idx, r, n);
    if MayPrecede(c, q) {
      UnderAt(c, r, q, n);
    }
  }

  lemma UnderAt(p: AbstractRule, q: AbstractRule, r: AbstractRule, n: nat)
    requires p.Wf(n) && q.Wf(n) && r.Wf(n) && Under(p, q, n) && r.Silent() && MayPrecede(p, r)
    ensures MayPrecede(q, r)
  {
  }

  /** Eliminating a silent rule keeps a weighing and makes the whole lighter. */
  lemma EliminatedWeighted(rules: Rules, ws: seq<nat>, idx: nat, n: nat)
    requires AllWf(rules, n) && Weighted(rules, ws, n) && idx < |rules| && rules[idx].Silent()
    ensures Weighted(Eliminated(rules, idx, n), EliminatedWeights(rules, ws, idx, n), n)
    ensures Total(Eliminated(rules, idx, n), EliminatedWeights(rules, ws, idx, n), n) < Total(rules, ws, n)
  {
    hide Load, MayPrecede, Composed, Compositions, ComposedWeights, Effectless;
    var rest, vs, rules', ws' := Without(rules, idx), Dropped(ws, idx), Eliminated(rules, idx, n),
      EliminatedWeights(rules, ws, idx, n);
    forall k | 0 <= k < |rules'| && rules'[k].Silent() ensures Load(rules', ws', rules'[k], n) < ws'[k] {
      if k < |rest| {
        var i := WithoutAt(rules, ws, idx, k);
        RetainedLight(rules, ws, idx, i, n);
      } else {
        var j := CompositionAt(rules[idx], rest, vs, n, k - |rest|);
        var i := WithoutAt(rules, ws, idx, j);
        ComposedBetween(rules[idx], rules[i], rules[i], n);
        CompositionLight(rules, ws, idx, i, n);
      }
    }
    EliminatedLoad(rules, ws, idx, Skip(n), n);
    SkipMay(rules[idx], n);
  }

  lemma SkipMay(r: AbstractRule, n: nat)
    requires r.Wf(n) && r.Silent()
    ensures MayPrecede(Skip(n), r)
  {
  }

  // ---------------------------------------------------------------- merging

  /** The rule may follow itself. */
  predicate Loops(r: AbstractRule)
    requires |r.assign| == |r.guard|
  {
    r.Silent() && MayPrecede(r, r)
  }

  /** A rule that stands for two others, with weight or rank `w`: it follows nothing that neither of them follows, is
      followed by no more than one of them whose weight it has, and may follow itself only if one of them may. */
  ghost predicate StandsFor(m: AbstractRule, w: nat, r1: AbstractRule, w1: nat, r2: AbstractRule, w2: nat, n: nat)
    requires m.Wf(n) && r1.Wf(n) && r2.Wf(n)
  {
    && (forall x: AbstractRule | x.Wf(n) && m.Silent() && MayPrecede(x, m) ::
          (r1.Silent() && MayPrecede(x, r1) && w <= w1) || (r2.Silent() && MayPrecede(x, r2) && w <= w2))
    && (Loops(m) ==> Loops(r1) || Loops(r2))
    && (m.Silent() ==> (r1.Silent() && w == w1 && Under(m, r1, n)) || (r2.Silent() && w == w2 && Under(m, r2, n)))
  }

  lemma HalvesStand(r1: AbstractRule, w1: nat, r2: AbstractRule, w2: nat, i: nat, n: nat)
    requires r1.Wf(n) && r2.Wf(n) && r1.port == r2.port && r1.assign == r2.assign && OpposedAt(r1.guard, r2.guard, i)
    ensures var m := NewRule(r1.guard[i := X], r1.port, r1.assign, r1.ids + r2.ids);
            m.Wf(n) && StandsFor(m, if w1 <= w2 then w1 else w2, r1, w1, r2, w2, n)
  {
    var m := NewRule(r1.guard[i := X], r1.port, r1.assign, r1.ids + r2.ids);
    assert m.assign == r1.assign && MayPrecede(m, m) == MayPrecede(r1, m);
    forall x: AbstractRule | x.Wf(n) && MayPrecede(x, m) ensures MayPrecede(x, r1) || MayPrecede(x, r2) {
      var r := if Mismatches(x.assign[i], r1.guard[i]) then r2 else r1;
      forall k | 0 <= k < n ensures !Mismatches(x.assign[k], r.guard[k]) {
        assert k != i ==> m.guard[k] == r.guard[k];
      }
    }
  }

  lemma MergedStands(r1: AbstractRule, w1: nat, r2: AbstractRule, w2: nat, n: nat) returns (w: nat)
    requires r1.Wf(n) && r2.Wf(n) && Merged(r1, r2, n).Some? && Mergeable(r1, r2)
    ensures StandsFor(Merged(r1, r2, n).value, w, r1, w1, r2, w2, n)
  {
    hide Share, Subsumes;
    if Subsumes(r1, r2) {
      w := w1;
    } else if Subsumes(r2, r1) {
      w := w2;
    } else {
      w := if w1 <= w2 then w1 else w2;
      NotCovered(r1, r2, n);
      var i: nat :| OpposedAt(r1.guard, r2.guard, i)
        && Merged(r1, r2, n) == Some(NewRule(r1.guard[i := X], r1.port, r1.assign, r1.ids + r2.ids));
      HalvesStand(r1, w1, r2, w2, i, n);
    }
  }

  lemma JoinedLoad(rules: Rules, ws: seq<nat>, i: nat, j: nat, m: AbstractRule, w: nat, x: AbstractRule, n: nat)
    requires AllWf(rules, n) && |ws| == |rules| && i < j < |rules| && m.Wf(n) && x.Wf(n)
    requires StandsFor(m, w, rules[i], ws[i], rules[j], ws[j], n)
    ensures Load(Without(rules[i := m], j), Dropped(ws[i := w], j), x, n) <= Load(rules, ws, x, n)
  {
    hide Load, Share, Under;
    LoadWithout(rules[i := m], ws[i := w], j, x, n);
    LoadWithout(rules[i := m], ws[i := w], i, x, n);
    LoadWithout(rules, ws, i, x, n);
    assert Without(rules[i := m], i) == Without(rules, i) && Dropped(ws[i := w], i) == Dropped(ws, i);
    SharesStand(m, w, rules[i], ws[i], rules[j], ws[j], x, n);
  }

  lemma SharesStand(m: AbstractRule, w: nat, r1: AbstractRule, w1: nat, r2: AbstractRule, w2: nat, x: AbstractRule,
      n: nat)
    requires m.Wf(n) && r1.Wf(n) && r2.Wf(n) && x.Wf(n) && StandsFor(m, w, r1, w1, r2, w2, n)
    ensures Share(m, w, x) <= Share(r1, w1, x) + Share(r2, w2, x)
  {
    hide MayPrecede, Under;
  }

  /** Merging two rules that may be merged keeps a weighing. */
  lemma JoinedWeighted(rules: Rules, ws: seq<nat>, i: nat, j: nat, n: nat) returns (ws': seq<nat>)
    requires AllWf(rules, n) && Weighted(rules, ws, n) && i < j < |rules|
    requires Merged(rules[i], rules[j], n).Some? && Mergeable(rules[i], rules[j])
    ensures Weighted(Joined(rules, n, i, j), ws', n) && Total(Joined(rules, n, i, j), ws', n) <= Total(rules, ws, n)
  {
    hide Load, Share, Under, Merged, Mergeable;
    var m := Merged(rules[i], rules[j], n).value;
    var w := MergedStands(rules[i], ws[i], rules[j], ws[j], n);
    ws' := Dropped(ws[i := w], j);
    var rules' := Joined(rules, n, i, j);
    forall k | 0 <= k < |rules'| && rules'[k].Silent() ensures Load(rules', ws', rules'[k], n) < ws'[k] {
      JoinedLoad(rules, ws, i, j, m, w, rules'[k], n);
      if k == i {
        var y := if rules[i].Silent() && w == ws[i] && Under(m, rules[i], n) then i else j;
        LoadUnder(rules, ws, m, rules[y], n);
      } else {
        assert rules'[k] == rules[if k < j then k else k + 1];
      }
    }
    JoinedLoad(rules, ws, i, j, m, w, Skip(n), n);
  }

  lemma {:induction false} MergeAllWeighted(rules: Rules, ws: seq<nat>, n: nat) returns (ws': seq<nat>)
    requires AllWf(rules, n) && Weighted(rules, ws, n) && MergesRightly(rules, n)
    ensures Weighted(MergeAll(rules, n), ws', n) && Total(MergeAll(rules, n), ws', n) <= Total(rules, ws, n)
    decreases |rules|
  {
    hide Weighted, Total, Merged, Mergeable, FirstPair;
    if CanMerge(rules, n) {
      var ij := TheFirst(rules, n);
      assert ij.0 < ij.1 < |rules| && Merged(rules[ij.0], rules[ij.1], n).Some? by {
        FirstMerges(rules, n, ij.0, ij.1);
      }
      var vs := JoinedWeighted(rules, ws, ij.0, ij.1, n);
      ws' := MergeAllWeighted(JoinedOnce(rules, n), vs, n);
    } else {
      ws' := ws;
    }
  }

  lemma FirstMerges(rules: Rules, n: nat, i: nat, j: nat)
    requires AllWf(rules, n) && FirstPair(rules, n, i, j)
    ensures i < j < |rules| && Merged(rules[i], rules[j], n).Some?
  {
  }

  // ---------------------------------------------------------------- it ends

  lemma OneWeightEach(rules: Rules, ws: seq<nat>, n: nat)
    requires AllWf(rules, n) && Weighted(rules, ws, n)
    ensures |ws| == |rules|
  {
  }

  /** The silent rules weigh less after each round, so there are at most as many rounds as they weigh. */
  lemma {:induction false} RoundsBounded(rules: Rules, ws: seq<nat>, rules': Rules, n: nat, rounds: nat)
    requires AllWf(rules, n) && Weighted(rules, ws, n) && Rounds(rules, rules', n, rounds) && AllRight(rules, n, rounds)
    ensures rounds <= Total(rules, ws, n)
    decreases rounds
  {
    hide Weighted, Total, Eliminated, MergeAll, MergesRightly, EliminatedWeights, Effectless;
    if rounds > 0 {
      var mid: Rules :| AllWf(mid, n) && Round(rules, mid, n) && Rounds(mid, rules', n, rounds - 1);
      var idx: nat :| FirstSilent(rules, idx) && mid == Tidied(rules, idx, n);
      OneWeightEach(rules, ws, n);
      EliminatedWeighted(rules, ws, idx, n);
      var vs := EliminatedWeights(rules, ws, idx, n);
      if !Effectless(rules[idx]) {
        vs := MergeAllWeighted(Eliminated(rules, idx, n), vs, n);
      }
      RoundsBounded(mid, vs, rules', n, rounds - 1);
    }
  }

  /** No silent rules follow each other in a circle. */
  ghost predicate Ranked(rules: Rules, rank: seq<nat>, n: nat)
    requires AllWf(rules, n)
  {
    && |rank| == |rules|
    && forall i, j ::
          0 <= i < |rules| && 0 <= j < |rules| && rules[i].Silent() && rules[j].Silent()
            && MayPrecede(rules[i], rules[j]) ==>
         rank[j] < rank[i]
  }

  function Times(b: nat, k: nat): (p: nat)
    ensures b >= 1 ==> p >= k
  {
    if b == 0 then 0 else k + Times(b - 1, k)
  }

  lemma {:induction false} NothingTimes(b: nat)
    ensures Times(b, 0) == 0
  {
    if b > 0 {
      NothingTimes(b - 1);
    }
  }

  function Power(b: nat, e: nat): (p: nat)
    ensures b >= 1 ==> p >= 1
  {
    if e == 0 then 1 else Times(b, Power(b, e - 1))
  }

  lemma {:induction false} PowerGrows(b: nat, d: nat, e: nat)
    requires d <= e && b >= 1
    ensures Power(b, d) <= Power(b, e)
    decreases e
  {
    if d < e {
      PowerGrows(b, d, e - 1);
    }
  }

  /** The weight that a rank deserves. */
  function Weights(rank: seq<nat>, b: nat): (ws: seq<nat>)
    ensures |ws| == |rank|
  {
    seq(|rank|, i requires 0 <= i < |rank| => Power(b, rank[i]))
  }

  lemma {:induction false} RankedLoad(rules: Rules, ws: seq<nat>, q: AbstractRule, most: nat, n: nat)
    requires AllWf(rules, n) && |ws| == |rules| && q.Wf(n)
    requires forall j :: 0 <= j < |rules| && rules[j].Silent() && MayPrecede(q, rules[j]) ==> ws[j] <= most
    ensures Load(rules, ws, q, n) <= Times(|rules|, most)
    decreases |rules|
  {
    if rules != [] {
      var k := |rules| - 1;
      RankedLoad(rules[..k], ws[..k], q, most, n);
    }
  }

  lemma RankedLight(rules: Rules, rank: seq<nat>, i: nat, n: nat)
    requires AllWf(rules, n) && Ranked(rules, rank, n) && i < |rules| && rules[i].Silent()
    ensures var ws := Weights(rank, |rules| + 1); Load(rules, ws, rules[i], n) < ws[i]
  {
    hide MayPrecede, Load;
    var b, ws := |rules| + 1, Weights(rank, |rules| + 1);
    var most := if rank[i] == 0 then 0 else Power(b, rank[i] - 1);
    forall j | 0 <= j < |rules| && rules[j].Silent() && MayPrecede(rules[i], rules[j]) ensures ws[j] <= most {
      PowerGrows(b, rank[j], rank[i] - 1);
    }
    RankedLoad(rules, ws, rules[i], most, n);
    NothingTimes(|rules|);
  }

  /** If silent rules are ranked, those that may follow themselves excluded, the rounds that merge only what may be
      merged have a bound that can be computed beforehand. */
  lemma RankedEnds(rules: Rules, rank: seq<nat>, rules': Rules, n: nat, rounds: nat)
    requires AllWf(rules, n) && Ranked(rules, rank, n) && Rounds(rules, rules', n, rounds) && AllRight(rules, n, rounds)
    ensures rounds <= Total(rules, Weights(rank, |rules| + 1), n)
  {
    hide Load, Rounds, AllRight, Total, MayPrecede;
    var ws := Weights(rank, |rules| + 1);
    forall i | 0 <= i < |rules| && rules[i].Silent() ensures Load(rules, ws, rules[i], n) < ws[i] {
      RankedLight(rules, rank, i, n);
    }
    RoundsBounded(rules, ws, rules', n, rounds);
  }

  // ---------------------------------------------------------------- rules that may follow themselves

  /** No two silent rules follow each other in a circle. A rule may follow itself. */
  ghost predicate Ordered(rules: Rules, rank: seq<nat>, n: nat)
    requires AllWf(rules, n)
  {
    && |rank| == |rules|
    && forall i, j ::
         0 <= i < |rules| && 0 <= j < |rules| && i != j && rules[i].Silent() && rules[j].Silent()
           && MayPrecede(rules[i], rules[j]) ==>
         rank[j] < rank[i]
  }

  /** From position `k` on, no rule may follow itself. */
  ghost predicate Fresh(rules: Rules, k: nat, n: nat)
    requires AllWf(rules, n)
  {
    forall i :: k <= i < |rules| ==> !Loops(rules[i])
  }

  /** The `i`th rule, or its composition with the rule at `idx`. */
  function Kept(rules: Rules, idx: nat, i: nat, composed: bool): AbstractRule
    requires idx < |rules| && i < |rules| && SameSize(rules[idx], rules[i])
    requires composed ==> Composed(rules[idx], rules[i]).Some?
  {
    if composed then Composed(rules[idx], rules[i]).value else rules[i]
  }

  /** A composition ranks just above the rule it ends with. */
  function RankOf(rank: seq<nat>, i: nat, composed: bool): nat
    requires i < |rank|
  {
    2 * rank[i] + if composed then 1 else 0
  }

  /** Compositions follow what the eliminated rule followed, so they never follow one another. */
  lemma KeptRanked(rules: Rules, rank: seq<nat>, idx: nat, i: nat, a: bool, j: nat, b: bool, n: nat)
    requires AllWf(rules, n) && Ordered(rules, rank, n) && idx < |rules| && rules[idx].Silent()
    requires i < |rules| && j < |rules| && i != idx && j != idx
    requires (a ==> Composed(rules[idx], rules[i]).Some?) && (b ==> Composed(rules[idx], rules[j]).Some?)
    requires var x, y := Kept(rules, idx, i, a), Kept(rules, idx, j, b);
             x.Wf(n) && y.Wf(n) && x.Silent() && y.Silent() && MayPrecede(x, y)
    ensures !(a && b) && ((!a && !b && i == j) || RankOf(rank, j, b) < RankOf(rank, i, a))
  {
    hide MayPrecede, Composed, Under;
    var q, x, y := rules[idx], Kept(rules, idx, i, a), Kept(rules, idx, j, b);
    if b {
      ComposedBetween(q, rules[j], x, n);
      ComposedMay(q, rules[j]);
    }
    if a {
      ComposedBetween(q, rules[i], q, n);
      ComposedMay(q, rules[i]);
      UnderMay(x, rules[i], y, n);
      UnderMay(x, rules[i], q, n);
    }
  }

  lemma UnderMay(p: AbstractRule, q: AbstractRule, r: AbstractRule, n: nat)
    requires p.Wf(n) && q.Wf(n) && r.Wf(n) && Under(p, q, n) && r.Silent()
    ensures MayPrecede(p, r) ==> MayPrecede(q, r)
  {
  }

  function Scaled(rank: seq<nat>, composed: bool): (rs: seq<nat>)
    ensures |rs| == |rank|
  {
    seq(|rank|, i requires 0 <= i < |rank| => RankOf(rank, i, composed))
  }

  function EliminatedRanks(rules: Rules, rank: seq<nat>, idx: nat, n: nat): (rs: seq<nat>)
    requires AllWf(rules, n) && |rank| == |rules| && idx < |rules|
    ensures |rs| == |Eliminated(rules, idx, n)|
  {
    var left := Dropped(rank, idx);
    Scaled(left, false)
    + if Effectless(rules[idx]) then [] else ComposedWeights(rules[idx], Without(rules, idx), Scaled(left, true), n)
  }

  /** Where a rule of the next round comes from. */
  lemma KeptFrom(rules: Rules, rank: seq<nat>, idx: nat, p: nat, n: nat) returns (i: nat, composed: bool)
    requires AllWf(rules, n) && |rank| == |rules| && idx < |rules| && rules[idx].Silent()
    requires p < |Eliminated(rules, idx, n)|
    ensures i < |rules| && i != idx && (composed ==> Composed(rules[idx], rules[i]).Some?)
    ensures Eliminated(rules, idx, n)[p] == Kept(rules, idx, i, composed)
    ensures EliminatedRanks(rules, rank, idx, n)[p] == RankOf(rank, i, composed)
    ensures composed <==> p >= |rules| - 1
    ensures !composed ==> i == if p < idx then p else p + 1
  {
    hide Composed, Compositions, ComposedWeights, Effectless;
    var rest, left := Without(rules, idx), Dropped(rank, idx);
    composed := p >= |rest|;
    if composed {
      var k := CompositionAt(rules[idx], rest, Scaled(left, true), n, p - |rest|);
      i := if k < idx then k else k + 1;
    } else {
      i := if p < idx then p else p + 1;
    }
  }

  /** Eliminating a silent rule keeps the others in order, and its compositions do not follow themselves. */
  lemma EliminatedOrdered(rules: Rules, rank: seq<nat>, idx: nat, k: nat, n: nat)
    requires AllWf(rules, n) && Ordered(rules, rank, n) && Fresh(rules, k, n)
    requires idx < k <= |rules| && rules[idx].Silent()
    ensures Ordered(Eliminated(rules, idx, n), EliminatedRanks(rules, rank, idx, n), n)
    ensures Fresh(Eliminated(rules, idx, n), k - 1, n) && k - 1 <= |Eliminated(rules, idx, n)|
  {
    hide Composed, MayPrecede, Eliminated, EliminatedRanks, Effectless;
    var rules', rank' := Eliminated(rules, idx, n), EliminatedRanks(rules, rank, idx, n);
    forall p, r | 0 <= p < |rules'| && 0 <= r < |rules'| && p != r && rules'[p].Silent() && rules'[r].Silent()
                  && MayPrecede(rules'[p], rules'[r])
      ensures rank'[r] < rank'[p]
    {
      var i, a := KeptFrom(rules, rank, idx, p, n);
      var j, b := KeptFrom(rules, rank, idx, r, n);
      KeptRanked(rules, rank, idx, i, a, j, b, n);
    }
    forall p | k - 1 <= p < |rules'| ensures !Loops(rules'[p]) {
      var i, a := KeptFrom(rules, rank, idx, p, n);
      if Loops(rules'[p]) && a {
        KeptRanked(rules, rank, idx, i, a, i, a, n);
      }
    }
    LeftOver(rules, idx, n);
  }

  lemma LeftOver(rules: Rules, idx: nat, n: nat)
    requires AllWf(rules, n) && idx < |rules|
    ensures |rules| - 1 <= |Eliminated(rules, idx, n)|
  {
    hide Compositions;
  }

  /** Merging two rules that may be merged keeps the order, and no fresh rule comes to follow itself. */
  lemma JoinedOrdered(rules: Rules, rank: seq<nat>, k: nat, i: nat, j: nat, n: nat)
      returns (rank': seq<nat>, k': nat)
    requires AllWf(rules, n) && Ordered(rules, rank, n) && Fresh(rules, k, n) && k <= |rules| && i < j < |rules|
    requires Merged(rules[i], rules[j], n).Some? && Mergeable(rules[i], rules[j])
    ensures Ordered(Joined(rules, n, i, j), rank', n)
    ensures Fresh(Joined(rules, n, i, j), k', n) && k' <= k && k' <= |rules| - 1
  {
    hide MayPrecede, Merged, Mergeable, Loops;
    var m := Merged(rules[i], rules[j], n).value;
    var w := MergedStands(rules[i], rank[i], rules[j], rank[j], n);
    rank', k' := Dropped(rank[i := w], j), if j < k then k - 1 else k;
    var rules' := Joined(rules, n, i, j);
    forall p | 0 <= p < |rules'| && p != i
      ensures rules'[p] == rules[if p < j then p else p + 1] && rank'[p] == rank[if p < j then p else p + 1]
    {
    }
    assert rules'[i] == m && rank'[i] == w;
    forall p, r | 0 <= p < |rules'| && 0 <= r < |rules'| && p != r && rules'[p].Silent() && rules'[r].Silent()
                  && MayPrecede(rules'[p], rules'[r])
      ensures rank'[r] < rank'[p]
    {
      if p == i {
        var z := if rules[i].Silent() && w == rank[i] && Under(m, rules[i], n) then i else j;
        UnderMay(m, rules[z], rules'[r], n);
      }
    }
  }

  lemma {:induction false} MergeAllOrdered(rules: Rules, rank: seq<nat>, k: nat, n: nat)
      returns (rank': seq<nat>, k': nat)
    requires AllWf(rules, n) && Ordered(rules, rank, n) && Fresh(rules, k, n) && k <= |rules| && MergesRightly(rules, n)
    ensures Ordered(MergeAll(rules, n), rank', n)
    ensures Fresh(MergeAll(rules, n), k', n) && k' <= k && k' <= |MergeAll(rules, n)|
    decreases |rules|
  {
    hide Ordered, Fresh, Merged, Mergeable, FirstPair;
    if CanMerge(rules, n) {
      var ij := TheFirst(rules, n);
      FirstMerges(rules, n, ij.0, ij.1);
      var mid, l := JoinedOrdered(rules, rank, k, ij.0, ij.1, n);
      rank', k' := MergeAllOrdered(JoinedOnce(rules, n), mid, l, n);
    } else {
      rank', k' := rank, k;
    }
  }

  /** No more than `bound` rounds can be made that merge only what may be merged. */
  ghost predicate Ends(rules: Rules, n: nat, bound: nat)
    requires AllWf(rules, n)
  {
    forall rules', rounds: nat :: Rounds(rules, rules', n, rounds) && AllRight(rules, n, rounds) ==> rounds <= bound
  }

  lemma NoRoundEnds(rules: Rules, n: nat)
    requires AllWf(rules, n) && (RoundRight(rules, n) ==> forall idx: nat :: !FirstSilent(rules, idx))
    ensures Ends(rules, n, 0)
  {
    hide RoundRight, Tidied;
  }

  lemma OneMoreRound(rules: Rules, idx: nat, n: nat, bound: nat)
    requires AllWf(rules, n) && FirstSilent(rules, idx) && Ends(Tidied(rules, idx, n), n, bound)
    ensures Ends(rules, n, bound + 1)
  {
    hide RoundRight, Tidied;
    forall rules', rounds: nat | Rounds(rules, rules', n, rounds) && AllRight(rules, n, rounds)
      ensures rounds <= bound + 1
    {
      if rounds > 0 {
        var mid: Rules :| AllWf(mid, n) && Round(rules, mid, n) && Rounds(mid, rules', n, rounds - 1);
        assert mid == Tidied(rules, idx, n);
      }
    }
  }

  /** Once no silent rule is left that may follow itself. */
  lemma FreshEnds(rules: Rules, rank: seq<nat>, k: nat, n: nat) returns (bound: nat)
    requires AllWf(rules, n) && Ordered(rules, rank, n) && Fresh(rules, k, n)
    requires forall i :: 0 <= i < |rules| && i < k ==> !rules[i].Silent()
    ensures Ends(rules, n, bound)
  {
    hide MayPrecede, Rounds, AllRight, Total;
    bound := Total(rules, Weights(rank, |rules| + 1), n);
    forall i | 0 <= i < |rules| && rules[i].Silent() ensures !MayPrecede(rules[i], rules[i]) {
      assert !Loops(rules[i]);
    }
    forall rules', rounds: nat | Rounds(rules, rules', n, rounds) && AllRight(rules, n, rounds)
      ensures rounds <= bound
    {
      RankedEnds(rules, rank, rules', n, rounds);
    }
  }

  /** Each round removes one of the rules that were there at first, as long as one of them is silent; what it adds comes
      behind them, and never follows itself. */
  lemma {:induction false} EndsFrom(rules: Rules, rank: seq<nat>, k: nat, n: nat) returns (bound: nat)
    requires AllWf(rules, n) && Ordered(rules, rank, n) && Fresh(rules, k, n) && k <= |rules|
    ensures Ends(rules, n, bound)
    decreases k
  {
    hide Ordered, Fresh, Ends, Eliminated, EliminatedRanks, MergeAll, MergesRightly, Effectless;
    if !RoundRight(rules, n) {
      NoRoundEnds(rules, n);
      bound := 0;
    } else if idx: nat :| idx < k && FirstSilent(rules, idx) {
      EliminatedOrdered(rules, rank, idx, k, n);
      RanksFit(rules, rank, n);
      var mid, l := EliminatedRanks(rules, rank, idx, n), k - 1;
      if !Effectless(rules[idx]) {
        mid, l := MergeAllOrdered(Eliminated(rules, idx, n), mid, l, n);
      }
      bound := EndsFrom(Tidied(rules, idx, n), mid, l, n);
      OneMoreRound(rules, idx, n, bound);
      bound := bound + 1;
    } else {
      NoneBefore(rules, k);
      bound := FreshEnds(rules, rank, k, n);
    }
  }

  lemma RanksFit(rules: Rules, rank: seq<nat>, n: nat)
    requires AllWf(rules, n) && Ordered(rules, rank, n)
    ensures |rank| == |rules|
  {
  }

  lemma {:induction false} NoneBefore(rules: Rules, k: nat)
    requires k <= |rules| && forall idx: nat :: idx < k ==> !FirstSilent(rules, idx)
    ensures forall i :: 0 <= i < k ==> !rules[i].Silent()
    decreases k
  {
    if k > 0 {
      NoneBefore(rules, k - 1);
      assert !FirstSilent(rules, k - 1);
    }
  }

  /** If no two silent rules follow each other in a circle, the rounds end, provided that they merge only what may be
      merged. A rule that may follow itself does no harm. */
  lemma NormalizationEnds(rules: Rules, rank: seq<nat>, n: nat) returns (bound: nat)
    requires AllWf(rules, n) && Ordered(rules, rank, n)
    ensures Ends(rules, n, bound)
  {
    hide Ordered, Ends;
    bound := EndsFrom(rules, rank, |rules|, n);
  }

  // ---------------------------------------------------------------- a circle that ends

  function Up(ids: seq<nat>): AbstractRule { AbstractRule([F], None, [T], ids) }

  function Down(ids: seq<nat>): AbstractRule { AbstractRule([T], None, [F], ids) }

  function Clear(ids: seq<nat>): AbstractRule { AbstractRule([X], None, [F], ids) }

  lemma UpDown(a: seq<nat>, b: seq<nat>)
    ensures Up(a).Wf(1) && Down(b).Wf(1) && AbstractRule([F], None, [F], b).Wf(1)
    ensures !Effectless(Up(a)) && MayPrecede(Up(a), Down(b)) && MayPrecede(Down(b), Up(a))
    ensures Composed(Up(a), Down(b)) == Some(AbstractRule([F], None, [F], b))
    ensures Merged(Down(b), AbstractRule([F], None, [F], b), 1) == Some(Clear(b + b))
  {
    var u, d, r := Up(a), Down(b), AbstractRule([F], None, [F], b);
    assert Sequence(u, d).guard == [F] && Sequence(u, d).assign == [F];
    assert OpposedAt(d.guard, r.guard, 0);
    assert [T][0 := X] == [X] && Specified([F], [X]) == [F];
  }

  lemma UpDownRound(a: seq<nat>, b: seq<nat>)
    ensures AllWf([Up(a), Down(b)], 1) && FirstSilent([Up(a), Down(b)], 0)
    ensures Tidied([Up(a), Down(b)], 0, 1) == [Clear(b + b)]
  {
    hide Composed, Merged, Compositions, Effectless, MayPrecede;
    UpDown(a, b);
    var u, d, r := Up(a), Down(b), AbstractRule([F], None, [F], b);
    assert Without([u, d], 0) == [d];
    OneComposed(u, d);
    assert [d] + [r] == [d, r];
    assert FirstPair([d, r], 1, 0, 1);
    MergeFirst([d, r], 1, 0, 1);
    assert Joined([d, r], 1, 0, 1) == [Clear(b + b)];
    assert !CanMerge([Clear(b + b)], 1);
  }

  lemma OneComposed(q: AbstractRule, r: AbstractRule)
    requires q.Wf(1) && r.Wf(1) && Composed(q, r).Some?
    ensures Compositions(q, [r], 1) == [Composed(q, r).value]
  {
    hide Composed;
    assert [r][..0] == [];
    assert Compositions(q, [], 1) == [];
  }

  lemma ClearRound(ids: seq<nat>)
    ensures AllWf([Clear(ids)], 1) && FirstSilent([Clear(ids)], 0) && Tidied([Clear(ids)], 0, 1) == []
  {
    assert Without([Clear(ids)], 0) == [];
    assert Compositions(Clear(ids), [], 1) == [];
    assert !CanMerge([], 1);
  }

  /** The condition is not necessary: two silent rules that follow each other in a circle, so that no ranking exists,
      and the rounds end all the same. Their composition changes nothing, and merging unites it with the rule it came
      from. */
  lemma CircleEnds(a: seq<nat>, b: seq<nat>)
    ensures AllWf([Up(a), Down(b)], 1) && (forall rank :: !Ordered([Up(a), Down(b)], rank, 1))
    ensures Ends([Up(a), Down(b)], 1, 2)
  {
    hide Tidied, Ends, Composed, Merged, MayPrecede, Up, Down, Clear;
    UpDownRound(a, b);
    ClearRound(b + b);
    NoRoundEnds([], 1);
    OneMoreRound([Clear(b + b)], 0, 1, 0);
    OneMoreRound([Up(a), Down(b)], 0, 1, 1);
    NotOrdered(a, b);
  }

  lemma NotOrdered(a: seq<nat>, b: seq<nat>)
    ensures AllWf([Up(a), Down(b)], 1) && forall rank :: !Ordered([Up(a), Down(b)], rank, 1)
  {
    UpDown(a, b);
    var rules := [Up(a), Down(b)];
    forall rank ensures !Ordered(rules, rank, 1) {
      assert MayPrecede(rules[0], rules[1]) && MayPrecede(rules[1], rules[0]);
    }
  }
}
