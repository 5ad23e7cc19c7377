/** Ternary predicates over memory variables, ordered by specificity (graveyard6/rbpa.rs). */
module StateSets {
  import opened Wrappers

  /** A specific value, or `X`: either of the two. */
  datatype Var = T | F | X

  /** A predicate on the memory variables. Its length is a constant of the automaton. */
  type StateSet = seq<Var>

  datatype Ordering = Less | Equal | Greater

  /** More generic is less; `T` and `F` are incomparable. */
  function VarCmp(a: Var, b: Var): Option<Ordering> {
    if a == b then Some(Equal) else if a.X? then Some(Less) else if b.X? then Some(Greater) else None
  }

  predicate Mismatches(a: Var, b: Var) { VarCmp(a, b).None? }

  /** A concrete state fixes every variable. */
  predicate Concrete(s: StateSet) { forall i :: 0 <= i < |s| ==> !s[i].X? }

  predicate Describes(p: StateSet, s: StateSet)
    requires |p| == |s|
  {
    forall i :: 0 <= i < |s| ==> p[i].X? || p[i] == s[i]
  }

  /** `s` is one of the concrete states that `p` stands for. */
  predicate In(s: StateSet, p: StateSet) { |s| == |p| && Concrete(s) && Describes(p, s) }

  /** Variable by variable, `p` is at most as specific as `q`. */
  predicate Leq(p: StateSet, q: StateSet)
    requires |p| == |q|
  {
    forall i :: 0 <= i < |p| ==> p[i].X? || p[i] == q[i]
  }

  ghost predicate Contains(p: StateSet, q: StateSet) { forall s :: In(s, q) ==> In(s, p) }

  /** What comparing two predicates by specificity must mean for the states they stand for. */
  ghost predicate Compares(p: StateSet, q: StateSet, o: Option<Ordering>) {
    match o
    case Some(Equal) => Contains(p, q) && Contains(q, p)
    case Some(Less) => Contains(p, q) && !Contains(q, p)
    case Some(Greater) => !Contains(p, q) && Contains(q, p)
    case None => !Contains(p, q) && !Contains(q, p)
  }

  /** A state of `p`: any choice for the generic variables. */
  function Sample(p: StateSet, v: Var): (s: StateSet)
    requires !v.X?
    ensures In(s, p)
  {
    seq(|p|, i requires 0 <= i < |p| => if p[i].X? then v else p[i])
  }

  /** Containment is decided variable by variable. */
  lemma ContainsPointwise(p: StateSet, q: StateSet)
    requires |p| == |q|
    ensures Contains(p, q) <==> Leq(p, q)
  {
    if Contains(p, q) {
      var t, f := Sample(q, T), Sample(q, F);
      assert In(t, p) && In(f, p);
      forall i | 0 <= i < |p| ensures p[i].X? || p[i] == q[i] {
        assert p[i].X? || (p[i] == t[i] && p[i] == f[i]);
      }
    }
  }

  /** One scan of the two predicates finds how their sets of states compare. */
  method PartialCmp(p: StateSet, q: StateSet) returns (o: Option<Ordering>)
    requires |p| == |q|
    ensures Compares(p, q, o)
  {
    ContainsPointwise(p, q);
    ContainsPointwise(q, p);
    var ord := Equal;
    var i := 0;
    while i < |p|
      invariant 0 <= i <= |p|
      invariant (ord.Equal? || ord.Less?) <==> forall k :: 0 <= k < i ==> p[k].X? || p[k] == q[k]
      invariant (ord.Equal? || ord.Greater?) <==> forall k :: 0 <= k < i ==> q[k].X? || p[k] == q[k]
    {
      match VarCmp(p[i], q[i]) {
        case None =>
          return None;
        case Some(Equal) =>
        case Some(x) =>
          if ord == Equal {
            ord := x;
          } else if ord != x {
            return None;
          }
      }
      i := i + 1;
    }
    return Some(ord);
  }

  /** The answer is determined: no two orderings describe the same pair. */
  lemma ComparesUnique(p: StateSet, q: StateSet, o: Option<Ordering>, o': Option<Ordering>)
    requires Compares(p, q, o) && Compares(p, q, o')
    ensures o == o'
  {
  }
}
