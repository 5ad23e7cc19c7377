/** Rule-based port automata, edited in place (graveyard6/rbpa.rs). */
module PortAutomaton {
  import opened Wrappers
  import opened StateSets
  import opened AbstractRules
  import opened RbpaElimination
  import opened RbpaMasking
  import opened RbpaMerging
  import opened RbpaNormalization

  class Rbpa {
    const n: nat
    var mask: seq<bool>
    var rules: Rules

    ghost predicate Valid()
      reads this
    {
      |mask| == n && AllWf(rules, n)
    }

    constructor (n: nat, rules: Rules)
      requires AllWf(rules, n)
      ensures Valid() && this.n == n && this.rules == rules
    {
      this.n := n;
      this.mask := seq(n, i => true);
      this.rules := rules;
    }

    method FirstSilentIdx() returns (idx: Option<nat>)
      ensures match idx
              case Some(i) => i < |rules| && rules[i].port == None && forall k :: 0 <= k < i ==> rules[k].port != None
              case None => forall r <- rules :: r.port != None
    {
      var i := 0;
      while i < |rules|
        invariant 0 <= i <= |rules| && forall k :: 0 <= k < i ==> !rules[k].Silent()
      {
        if rules[i].Silent() {
          return Some(i);
        }
        i := i + 1;
      }
      return None;
    }

    /** One round of the elimination loop: false when no silent rule is left. */
    method EliminateSilent() returns (found: bool)
      requires Valid()
      modifies this`rules
      ensures Valid()
      ensures found <==> exists r <- old(rules) :: r.Silent()
      ensures !found ==> rules == old(rules)
      ensures found ==> Round(old(rules), rules, n)
    {
      hide MergeAll, Eliminated, Effectless, CanMerge, MergesRightly;
      var idx := FirstSilentIdx();
      if idx.None? {
        return false;
      }
      var kept := Remove(idx.value);
      if kept {
        var merged := MergeRules();
      }
      assert FirstSilent(old(rules), idx.value) && rules == Tidied(old(rules), idx.value, n);
      return true;
    }

    /** The elimination loop, cut off after some rounds if it has not ended before. All visible traces are kept if the
        rounds merge only what may be merged. */
    method EliminateAll(most: nat) returns (made: nat, done: bool)
      requires Valid()
      modifies this`rules
      ensures Valid() && made <= most && Rounds(old(rules), rules, n, made)
      ensures if done then forall r <- rules :: !r.Silent() else made == most
      ensures AllRight(old(rules), n, made) ==>
                forall ps, s, t | State(s, n) :: Visible(rules, n, ps, s, t) <==> Visible(old(rules), n, ps, s, t)
    {
      hide Round, Visible, RoundRight;
      made, done := 0, false;
      while made < most && !done
        invariant Valid() && made <= most && Rounds(old(rules), rules, n, made)
        invariant done ==> forall r <- rules :: !r.Silent()
        decreases !done, most - made
      {
        ghost var mid := rules;
        var found := EliminateSilent();
        if found {
          RoundsMore(old(rules), mid, rules, n, made);
          made := made + 1;
        } else {
          done := true;
        }
      }
      if AllRight(old(rules), n, made) {
        forall ps, s, t | State(s, n) ensures Visible(rules, n, ps, s, t) <==> Visible(old(rules), n, ps, s, t) {
          NormalizationPreserves(old(rules), rules, n, made, ps, s, t);
        }
      }
    }

    /** Merges the first pair of rules that can be merged, until there is none. */
    method MergeRules() returns (changed: bool)
      requires Valid()
      modifies this`rules
      ensures Valid() && rules == MergeAll(old(rules), n) && (changed <==> CanMerge(old(rules), n))
      ensures MergesRightly(old(rules), n) ==>
                forall ps, s, t | State(s, n) :: Visible(rules, n, ps, s, t) <==> Visible(old(rules), n, ps, s, t)
    {
      hide FirstPair, MergesRightly, Visible, SameSteps, Merged, MergeAll, CanMerge;
      changed := false;
      while true
        invariant Valid() && MergeAll(rules, n) == MergeAll(old(rules), n)
        invariant if changed then CanMerge(old(rules), n) else rules == old(rules)
        decreases |rules|
      {
        var pair := FirstMerge();
        if pair.None? {
          MergeNone(rules, n);
          break;
        }
        var (i, j, m) := pair.value;
        MergeAllMeans(rules, n, i, j);
        MergeFirst(rules, n, i, j);
        rules := rules[i := m];
        rules := rules[..j] + rules[j + 1..];
        changed := true;
      }
      if MergesRightly(old(rules), n) {
        MergeAllSteps(old(rules), n);
        forall ps, s, t | State(s, n) ensures Visible(rules, n, ps, s, t) <==> Visible(old(rules), n, ps, s, t) {
          SameTraces(old(rules), rules, n, ps, s, t);
        }
      }
    }

    /** The first pair that can be merged, and what it becomes. */
    method FirstMerge() returns (pair: Option<(nat, nat, AbstractRule)>)
      requires Valid()
      ensures match pair
              case Some((i, j, m)) =>
                && i < j < |rules| && Merged(rules[i], rules[j], n) == Some(m)
                && forall k, l :: 0 <= k < l < |rules| && (k < i || (k == i && l < j)) ==>
                     Merged(rules[k], rules[l], n).None?
              case None => forall k, l :: 0 <= k < l < |rules| ==> Merged(rules[k], rules[l], n).None?
    {
      hide Merged, Mergeable, Unites;
      var i := 0;
      while i < |rules|
        invariant 0 <= i <= |rules|
        invariant forall k, l :: 0 <= k < l < |rules| && k < i ==> Merged(rules[k], rules[l], n).None?
      {
        var j := i + 1;
        while j < |rules|
          invariant i + 1 <= j <= |rules|
          invariant forall l :: i < l < j ==> Merged(rules[i], rules[l], n).None?
        {
          var m := TryMerge(rules[i], rules[j], n);
          if m.Some? {
            return Some((i, j, m.value));
          }
          j := j + 1;
        }
        i := i + 1;
      }
      return None;
    }

    /** Takes out a silent rule and adds its compositions, unless it has no effect. */
    method Remove(idx: nat) returns (kept: bool)
      requires Valid() && idx < |rules|
      modifies this`rules
      ensures Valid() && rules == Eliminated(old(rules), idx, n) && kept == !Effectless(old(rules)[idx])
      ensures var rest := old(rules)[..idx] + old(rules)[idx + 1..];
              rules == rest + if kept then Compositions(old(rules)[idx], rest, n) else []
    {
      var silent := rules[idx];
      rules := rules[..idx] + rules[idx + 1..];
      var dropped := NoEffect(silent);
      if !dropped {
        var buf := [];
        var i := 0;
        while i < |rules|
          invariant 0 <= i <= |rules| && rules == Without(old(rules), idx) && AllWf(rules, n)
          invariant buf == Compositions(silent, rules[..i], n)
        {
          var composed := Compose(silent, rules[i]);
          if composed.Some? {
            buf := buf + [composed.value];
          }
          i := i + 1;
          assert rules[..i][..i - 1] == rules[..i - 1];
        }
        assert rules[..i] == rules;
        rules := rules + buf;
      }
      kept := !dropped;
      assert rules == Eliminated(old(rules), idx, n);
    }

    /** Masks the variables that no guard reads. */
    method MaskIrrelevantVars() returns (changed: bool)
      requires Valid()
      modifies this
      ensures Valid()
      ensures rules == MaskRules(old(rules), Unread(old(rules), old(mask)))
      ensures changed <==> mask != old(mask)
      ensures forall i: nat :: i < n ==> (mask[i] <==> old(mask)[i] && exists r <- old(rules) :: r.guard[i] != X)
      ensures |rules| == |old(rules)| && forall k :: 0 <= k < |rules| ==>
                && rules[k].port == old(rules)[k].port && rules[k].ids == old(rules)[k].ids
                && forall i: nat :: i < n ==>
                     var masked := old(mask)[i] && !mask[i];
                     && rules[k].guard[i] == (if masked then X else old(rules)[k].guard[i])
                     && rules[k].assign[i] == (if masked then X else old(rules)[k].assign[i])
      ensures forall ps, s | State(s, n) :: Admits(rules, n, ps, s) <==> Admits(old(rules), n, ps, s)
    {
      changed := false;
      ghost var dead := Unread(rules, mask);
      ghost var done: set<nat> := {};
      var i := 0;
      MaskMore(rules, {}, 0);
      while i < n
        invariant 0 <= i <= n && Valid()
        invariant done == set k | k in dead && k < i
        invariant changed <==> done != {}
        invariant rules == MaskRules(old(rules), done)
        invariant forall k: nat :: k < n ==> mask[k] == (old(mask)[k] && k !in done)
      {
        assert mask[i] == old(mask)[i];
        if mask[i] {
          var irrelevant := GuardsGeneric(i);
          assert irrelevant <==> i in dead by {
            assert forall k :: 0 <= k < |rules| ==> rules[k].guard[i] == old(rules)[k].guard[i];
          }
          if irrelevant {
            mask := mask[i := false];
            changed := true;
            MakeGeneric(i);
            MaskMore(old(rules), done, i);
            done := done + {i};
          }
        }
        i := i + 1;
      }
      assert done == dead;
      UnreadMeans(old(rules), old(mask));
      forall ps, s | State(s, n) ensures Admits(rules, n, ps, s) <==> Admits(old(rules), n, ps, s) {
        MaskingExact(old(rules), old(mask), ps, s);
      }
    }

    method GuardsGeneric(i: nat) returns (b: bool)
      requires Valid() && i < n
      ensures b <==> forall k :: 0 <= k < |rules| ==> rules[k].guard[i].X?
    {
      var k := 0;
      while k < |rules|
        invariant 0 <= k <= |rules| && forall j :: 0 <= j < k ==> rules[j].guard[i].X?
      {
        if !rules[k].guard[i].X? {
          return false;
        }
        k := k + 1;
      }
      return true;
    }

    method MakeGeneric(i: nat)
      requires Valid() && i < n
      modifies this`rules
      ensures Valid() && rules == MaskRules(old(rules), {i})
    {
      var k := 0;
      while k < |rules|
        invariant 0 <= k <= |rules| == |old(rules)| && Valid()
        invariant forall j :: 0 <= j < k ==> rules[j] == MaskRule(old(rules)[j], {i})
        invariant forall j :: k <= j < |rules| ==> rules[j] == old(rules)[j]
      {
        var r := rules[k];
        rules := rules[k := r.(guard := r.guard[i := X], assign := r.assign[i := X])];
        assert rules[k] == MaskRule(r, {i});
        k := k + 1;
      }
    }

    /** Makes the rules of all other ports silent. */
    method HidePorts(keep: set<Port>)
      requires Valid()
      modifies this`rules
      ensures Valid() && rules == HideRules(old(rules), keep)
      ensures |rules| == |old(rules)| && forall k :: 0 <= k < |rules| ==>
                var r := old(rules)[k];
                rules[k] == if r.port.Some? && r.port.value !in keep then r.(port := None) else r
    {
      var k := 0;
      while k < |rules|
        invariant 0 <= k <= |rules| == |old(rules)| && Valid()
        invariant forall j :: 0 <= j < k ==> rules[j] == HideRule(old(rules)[j], keep)
        invariant forall j :: k <= j < |rules| ==> rules[j] == old(rules)[j]
      {
        if rules[k].port.Some? && rules[k].port.value !in keep {
          rules := rules[k := rules[k].(port := None)];
        }
        k := k + 1;
      }
    }
  }
}
