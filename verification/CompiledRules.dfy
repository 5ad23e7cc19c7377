/** What compiled masks mean, when the chunk loops run them faithfully, and that they are the rules the coordinator's
    model assumes. */
module CompiledRules {
  import opened Bits
  import opened BitSets
  import opened RuleRuntime
  import opened RuleCompiler
  import P = Protocol

  // ---------------------------------------------------------------- the meaning of the masks

  /** All involved locations ready, cell putters full, other cell getters empty. */
  predicate Enabled(kinds: Kinds, acts: seq<ActionDef>, ready: set<LocId>, full: set<LocId>) {
    forall k :: 0 <= k < |acts| ==> ActionEnabled(kinds, acts[k], ready, full)
  }

  predicate ActionEnabled(kinds: Kinds, a: ActionDef, ready: set<LocId>, full: set<LocId>) {
    && Touches(a) <= ready
    && (IsMem(kinds, a.putter) ==> a.putter in full)
    && forall g <- a.getters :: IsMem(kinds, g) && g != a.putter ==> g !in full
  }

  /** The guard of a compiled rule is that of its definition: all its locations are ready, the cells it takes from are
      full, and the cells it only puts to are empty. */
  lemma GuardMeans<F>(d: ProtoDef<F>, def: RuleDef<F>, r: RunRule<F>, cap: nat, ready: set<nat>, full: set<nat>)
    requires d.Typed() && Acceptable(d, def.actions) && Compiled(d, def, r, cap)
    requires forall l <- full :: IsMem(d.locKinds, l)
    ensures SetGuard(ready, full, r.masks) <==>
            forall a <- def.actions ::
              && a.putter in ready && (d.locKinds[a.putter] != PortPutter ==> a.putter in full)
              && forall g <- a.getters ::
                   g in ready && (d.locKinds[g] != PortGetter && g != a.putter ==> g !in full)
  {
    hide Elements, Fits, Enabled, SetGuard;
    var v := SetsFor(d.locKinds, def.actions);
    assert v == MaskSets(r.masks);
    EnabledMeans(d, def.actions, ready, full);
    SetGuardIs(ready, full, r.masks);
    EnabledIs(d, def.actions, ready, full);
  }

  lemma EnabledIs<F>(d: ProtoDef<F>, acts: seq<ActionDef>, ready: set<LocId>, full: set<LocId>)
    requires d.Typed() && Acceptable(d, acts)
    ensures Enabled(d.locKinds, acts, ready, full) <==>
            forall a <- acts ::
              && a.putter in ready && (d.locKinds[a.putter] != PortPutter ==> a.putter in full)
              && forall g <- a.getters ::
                   g in ready && (d.locKinds[g] != PortGetter && g != a.putter ==> g !in full)
  {
    hide ActionEnabled;
    assert forall a <- acts :: Fits(d, a);
    forall a <- acts {
      ActionEnabledIs(d, a, ready, full);
    }
    assert Enabled(d.locKinds, acts, ready, full) <==> forall a <- acts :: ActionEnabled(d.locKinds, a, ready, full);
  }

  lemma ActionEnabledIs<F>(d: ProtoDef<F>, a: ActionDef, ready: set<LocId>, full: set<LocId>)
    requires d.Typed() && Fits(d, a)
    ensures ActionEnabled(d.locKinds, a, ready, full) <==>
            && a.putter in ready && (d.locKinds[a.putter] != PortPutter ==> a.putter in full)
            && forall g <- a.getters ::
                 g in ready && (d.locKinds[g] != PortGetter && g != a.putter ==> g !in full)
  {
    assert a.putter in Touches(a) && forall g <- a.getters :: g in Touches(a);
    FitsMeans(d, a);
  }

  lemma SetGuardIs(ready: set<nat>, full: set<nat>, m: Masks)
    ensures SetGuard(ready, full, m) <==> forall l <- MaskSets(m).ready ::
      l in ready && (l in full <==> l in MaskSets(m).full)
  {
    hide Elements;
  }

  lemma EnabledMeans<F>(d: ProtoDef<F>, acts: seq<ActionDef>, ready: set<nat>, full: set<nat>)
    requires d.Typed() && Acceptable(d, acts)
    requires forall l <- full :: IsMem(d.locKinds, l)
    ensures Enabled(d.locKinds, acts, ready, full) <==>
            forall l <- Involved(acts) :: l in ready && (l in full <==> l in AllDrains(d.locKinds, acts))
  {
    hide Fits, Acceptable, AllDrains, AllFills, AllEmpties;
    var kinds := d.locKinds;
    forall k, l | 0 <= k < |acts| && l in Touches(acts[k])
      ensures l in AllDrains(kinds, acts) <==> l in Drains(kinds, acts[k])
    {
      DrainedBy(d, acts, k, l);
    }
    forall l <- Involved(acts) ensures exists k :: 0 <= k < |acts| && l in Touches(acts[k]) {
    }
    forall k | 0 <= k < |acts| ensures ActionEnabled(kinds, acts[k], ready, full) <==>
        forall l <- Touches(acts[k]) :: l in ready && (l in full <==> l in AllDrains(kinds, acts))
    {
      OneEnabled(kinds, acts[k], ready, full);
    }
    assert forall k, l :: 0 <= k < |acts| && l in Touches(acts[k]) ==> l in Involved(acts);
  }

  lemma OneEnabled(kinds: Kinds, a: ActionDef, ready: set<nat>, full: set<nat>)
    requires forall l <- full :: IsMem(kinds, l)
    ensures ActionEnabled(kinds, a, ready, full) <==> forall l <- Touches(a) ::
      l in ready && (l in full <==> l in Drains(kinds, a))
  {
    assert forall g <- a.getters :: g in Touches(a);
    assert a.putter in Touches(a);
  }

  lemma SoleAction<F>(d: ProtoDef<F>, acts: seq<ActionDef>, j: nat, k: nat, l: LocId)
    requires d.Typed() && Acceptable(d, acts) && j < |acts| && k < |acts| && l in Touches(acts[j])
    requires l in Touches(acts[k])
    ensures j == k
  {
    hide Fits, Touches;
  }

  lemma DrainedBy<F>(d: ProtoDef<F>, acts: seq<ActionDef>, k: nat, l: LocId)
    requires d.Typed() && Acceptable(d, acts) && k < |acts| && l in Touches(acts[k])
    ensures l in AllDrains(d.locKinds, acts) <==> l in Drains(d.locKinds, acts[k])
    ensures l in AllFills(d.locKinds, acts) <==> l in Fills(d.locKinds, acts[k])
    ensures l in AllEmpties(d.locKinds, acts) <==> l in Empties(d.locKinds, acts[k])
  {
    hide Fits;
    var kinds := d.locKinds;
    forall j | 0 <= j < |acts| && l in Touches(acts[j]) ensures j == k {
      SoleAction(d, acts, j, k, l);
    }
    assert forall j :: 0 <= j < |acts| ==>
      Drains(kinds, acts[j]) <= Touches(acts[j]) && Fills(kinds, acts[j]) <= Touches(acts[j]);
  }

  /** The assignment empties cell putters and fills cell getters, keeps a cell that feeds itself full, and leaves all
      other cells alone. */
  lemma AssignMeans<F>(d: ProtoDef<F>, def: RuleDef<F>, r: RunRule<F>, cap: nat, ready: set<nat>, full: set<nat>,
      l: LocId)
    requires d.Typed() && Acceptable(d, def.actions) && Compiled(d, def, r, cap) && SetGuard(ready, full, r.masks)
    ensures (forall a <- def.actions :: l != a.putter && l !in a.getters) ==>
              (l in SetAssign(full, r.masks) <==> l in full)
    ensures l in d.locKinds && d.locKinds[l] != PortPutter && d.locKinds[l] != PortGetter ==>
              forall a <- def.actions :: l == a.putter || l in a.getters ==>
                (l in SetAssign(full, r.masks) <==> l in a.getters)
  {
    hide Elements, Fits, SetGuard, SetAssign, Acceptable, Touches, Involved, AllDrains, AllFills, AllEmpties;
    var kinds, acts := d.locKinds, def.actions;
    assert SetsFor(kinds, acts) == MaskSets(r.masks);
    AssignIs(ready, full, r.masks, l);
    NotInvolved(kinds, acts, l);
    forall k | 0 <= k < |acts| && l in Touches(acts[k]) && IsMem(kinds, l)
      ensures l in SetAssign(full, r.masks) <==> l in acts[k].getters
    {
      DrainedBy(d, acts, k, l);
      ActionAssigns(kinds, acts[k], l, full);
      InvolvedHas(acts, k, l);
    }
    InvolvedMeans(acts, l);
  }

  lemma InvolvedMeans(acts: seq<ActionDef>, l: LocId)
    ensures l in Involved(acts) <==> exists a <- acts :: l == a.putter || l in a.getters
    ensures forall k :: 0 <= k < |acts| ==> (l in Touches(acts[k]) <==> l == acts[k].putter || l in acts[k].getters)
  {
    if a :| a in acts && (l == a.putter || l in a.getters) {
      var k :| 0 <= k < |acts| && acts[k] == a;
      assert l in Touches(acts[k]);
    }
  }

  lemma AssignIs(ready: set<nat>, full: set<nat>, m: Masks, l: nat)
    ensures var v := MaskSets(m); l in SetAssign(full, m) <==> (l in full && l !in v.mask) || l in v.vals
    ensures var v := MaskSets(m); SetGuard(ready, full, m) && l in v.ready ==> (l in full <==> l in v.full)
  {
    hide Elements;
  }

  lemma NotInvolved(kinds: Kinds, acts: seq<ActionDef>, l: LocId)
    ensures l !in Involved(acts) ==> l !in AllFills(kinds, acts) && l !in AllEmpties(kinds, acts)
  {
    assert forall k :: 0 <= k < |acts| ==>
      Fills(kinds, acts[k]) <= Touches(acts[k]) && Empties(kinds, acts[k]) <= Touches(acts[k]);
  }

  lemma InvolvedHas(acts: seq<ActionDef>, k: nat, l: LocId)
    requires k < |acts| && l in Touches(acts[k])
    ensures l in Involved(acts)
  {
  }

  /** One action: what it drains, empties and fills, for a cell that is full exactly if it is drained. */
  lemma ActionAssigns(kinds: Kinds, a: ActionDef, l: LocId, full: set<nat>)
    requires l in Touches(a) && IsMem(kinds, l)
    ensures (l in full <==> l in Drains(kinds, a)) ==>
              ((l in full && l !in Empties(kinds, a) + Fills(kinds, a)) || l in Fills(kinds, a) <==> l in a.getters)
  {
  }

  // ---------------------------------------------------------------- faithful chunk loops

  lemma KnownLocs<F>(d: ProtoDef<F>, acts: seq<ActionDef>)
    requires d.Typed() && Acceptable(d, acts)
    ensures Involved(acts) <= d.locKinds.Keys
    ensures AllEmpties(d.locKinds, acts) + AllFills(d.locKinds, acts) <= Involved(acts)
  {
    forall l <- Involved(acts) ensures l in d.locKinds {
      var k :| 0 <= k < |acts| && l in Touches(acts[k]);
      assert Fits(d, acts[k]);
    }
    forall l <- AllEmpties(d.locKinds, acts) + AllFills(d.locKinds, acts) ensures l in Involved(acts) {
      var k :| 0 <= k < |acts| && (l in Empties(d.locKinds, acts[k]) || l in Fills(d.locKinds, acts[k]));
      assert l in Touches(acts[k]);
    }
  }

  /** With cells uninitialized the memory bits have just the chunks they are padded to. A rule that involves the
      greatest location is then tested faithfully, whatever the contents, exactly if that location is not a multiple
      of 64. */
  lemma LastLocation<F>(d: ProtoDef<F>, def: RuleDef<F>, r: RunRule<F>, c: nat, kr: nat, km: nat)
    requires d.Typed() && Acceptable(d, def.actions) && Compiled(d, def, r, c) && MaxLoc(d, c)
    requires km == LenNeeded(c) && kr >= LenNeeded(c) && c in Involved(def.actions)
    ensures (forall ready: Chunks, memory: Chunks :: |ready| == kr && |memory| == km ==>
               (ChunkGuard(ready, memory, r.masks) <==> SetGuard(Elements(ready), Elements(memory), r.masks)))
            <==> c % Size != 0
  {
    hide Elements, Acceptable, ChunkGuard, SetGuard;
    KnownLocs(d, def.actions);
    assert MaskSets(r.masks).ready == SetsFor(d.locKinds, def.actions).ready;
    GuardExact(r.masks, kr, km);
  }

  /** Whenever the greatest location is not a multiple of 64 and readiness has enough chunks, guard and assignment of
      every compiled rule are faithful. */
  lemma RuntimeFaithful<F>(d: ProtoDef<F>, def: RuleDef<F>, r: RunRule<F>, c: nat, ready: Chunks, memory: Chunks)
    requires d.Typed() && Acceptable(d, def.actions) && Compiled(d, def, r, c) && MaxLoc(d, c)
    requires c % Size != 0 && |ready| >= LenNeeded(c) && |memory| >= LenNeeded(c)
    ensures ChunkGuard(ready, memory, r.masks) <==> SetGuard(Elements(ready), Elements(memory), r.masks)
    ensures AllBelow(Elements(r.masks.assignMask), AssignEnd(|memory|, r.masks))
    ensures Elements(r.masks.assignVals) <= Elements(r.masks.assignMask)
  {
    hide Elements, Acceptable, ChunkGuard, SetGuard;
    KnownLocs(d, def.actions);
    var v := MaskSets(r.masks);
    assert v == SetsFor(d.locKinds, def.actions);
    GuardExact(r.masks, |ready|, |memory|);
  }

  /** A protocol whose only location is 0 never tests readiness: its rules always seem ready. */
  lemma LocationZeroIsNeverTested<F>(d: ProtoDef<F>, ready: Chunks, memory: Chunks, m: Masks)
    requires d.locKinds.Keys == {0} && |memory| == LenNeeded(0)
    ensures MaxLoc(d, 0) && ChunkGuard(ready, memory, m)
  {
    assert 0 in d.locKinds.Keys;
  }

  // ---------------------------------------------------------------- the coordinator's rules

  function KindOf(k: LocKind): P.Kind {
    match k
    case PortPutter => P.PoPu
    case PortGetter => P.PoGe
    case _ => P.Memo
  }

  function Config<F>(d: ProtoDef<F>, isCopy: bool, isClone: bool): P.Config {
    P.Config(map l | l in d.locKinds :: KindOf(d.locKinds[l]), [], isCopy, isClone)
  }

  function ActionOf(kinds: Kinds, a: ActionDef): P.Action {
    var r := Run(kinds, a);
    P.Action(r.putter, r.mg, r.pg)
  }

  function ActionsOf(kinds: Kinds, acts: seq<ActionDef>): seq<P.Action> {
    seq(|acts|, k requires 0 <= k < |acts| => ActionOf(kinds, acts[k]))
  }

  /** The compiled rule as the coordinator's model reads it. */
  function RuleOf<F>(d: ProtoDef<F>, def: RuleDef<F>, r: RunRule<F>, guard: set<P.Loc> -> bool): P.Rule {
    P.Rule(Elements(r.masks.guardReady), Elements(r.masks.guardFull), Elements(r.masks.assignVals),
      Elements(r.masks.assignMask),
           guard, ActionsOf(d.locKinds, def.actions))
  }

  predicate NoSelfFeeding(acts: seq<ActionDef>) { forall k :: 0 <= k < |acts| ==> acts[k].putter !in acts[k].getters }

  lemma OnlyUnique(kinds: Kinds, xs: seq<LocId>, mem: bool)
    requires forall i, j :: 0 <= i < j < |xs| ==> xs[i] != xs[j]
    ensures forall i, j :: 0 <= i < j < |Only(kinds, xs, mem)| ==> Only(kinds, xs, mem)[i] != Only(kinds, xs, mem)[j]
  {
    if xs != [] {
      var init, last := xs[..|xs| - 1], xs[|xs| - 1];
      assert xs == init + [last];
      OnlyUnique(kinds, init, mem);
      assert last !in init;
    }
  }

  /** One action: sound, with the definition's locations. */
  lemma ActionSound<F>(d: ProtoDef<F>, a: ActionDef, isCopy: bool, isClone: bool)
    requires d.Typed() && Fits(d, a) && a.putter !in a.getters
    ensures var c, p := Config(d, isCopy, isClone), ActionOf(d.locKinds, a);
            && P.ActionOk(c, p) && P.Touched(p) == Touches(a) && p.putter == a.putter
            && P.SetOf(p.mg) + P.SetOf(p.pg) == SetOf(a.getters)
            && (forall l <- Touches(a) :: P.IsMemo(c, l) <==> IsMem(d.locKinds, l))
  {
    hide Only, Unique, Config;
    var kinds, c := d.locKinds, Config(d, isCopy, isClone);
    var mg, pg := Only(kinds, Unique(a.getters), true), Only(kinds, Unique(a.getters), false);
    OnlyUnique(kinds, Unique(a.getters), true);
    OnlyUnique(kinds, Unique(a.getters), false);
    ConfigKinds(d, isCopy, isClone);
    forall l <- a.getters ensures IsMem(kinds, l) || P.IsPoGe(c, l) {
    }
    assert forall l: P.Loc :: l in mg || l in pg <==> l in a.getters;
  }

  lemma ConfigKinds<F>(d: ProtoDef<F>, isCopy: bool, isClone: bool)
    ensures var c := Config(d, isCopy, isClone);
            forall l: LocId :: (P.IsMemo(c, l) <==> IsMem(d.locKinds, l))
                        && (P.IsPoPu(c, l) <==> l in d.locKinds && d.locKinds[l].PortPutter?)
                        && (P.IsPoGe(c, l) <==> l in d.locKinds && d.locKinds[l].PortGetter?)
  {
  }

  lemma TailActions<F>(d: ProtoDef<F>, acts: seq<ActionDef>)
    requires d.Typed() && Acceptable(d, acts) && acts != [] && NoSelfFeeding(acts)
    ensures Fits(d, acts[0]) && acts[0].putter !in acts[0].getters
    ensures Acceptable(d, acts[1..]) && NoSelfFeeding(acts[1..]) && Touches(acts[0]) !! Involved(acts[1..])
    ensures Involved(acts) == Touches(acts[0]) + Involved(acts[1..])
    ensures ActionsOf(d.locKinds, acts)[1..] == ActionsOf(d.locKinds, acts[1..])
  {
    hide Fits, Touches;
    var tail := acts[1..];
    forall j | 0 <= j < |tail|
      ensures Fits(d, tail[j]) && tail[j].putter !in tail[j].getters && Touches(acts[0]) !! Touches(tail[j])
    {
      assert tail[j] == acts[j + 1];
    }
    forall i, j | 0 <= i < j < |tail| ensures Touches(tail[i]) !! Touches(tail[j]) {
      assert tail[i] == acts[i + 1] && tail[j] == acts[j + 1];
    }
    forall l ensures l in Involved(acts) <==> l in Touches(acts[0]) + Involved(tail) {
      if l in Involved(acts) {
        var k :| 0 <= k < |acts| && l in Touches(acts[k]);
        assert k > 0 ==> l in Touches(tail[k - 1]);
      }
      if l in Involved(tail) {
        var k :| 0 <= k < |tail| && l in Touches(tail[k]);
        assert l in Touches(acts[k + 1]);
      }
    }
  }

  lemma {:induction false} ActionsSound<F>(d: ProtoDef<F>, acts: seq<ActionDef>, isCopy: bool, isClone: bool)
    requires d.Typed() && Acceptable(d, acts) && NoSelfFeeding(acts)
    ensures var c, ps := Config(d, isCopy, isClone), ActionsOf(d.locKinds, acts);
            P.ActionsOk(c, ps) && P.Locs(ps) == Involved(acts)
  {
    hide Fits, Touches, Involved, Acceptable, P.ActionOk, Config, ActionOf;
    if acts == [] {
      NoneInvolved();
    } else {
      var c, ps, tail := Config(d, isCopy, isClone), ActionsOf(d.locKinds, acts), acts[1..];
      TailActions(d, acts);
      ActionsSound(d, tail, isCopy, isClone);
      ActionSound(d, acts[0], isCopy, isClone);
    }
  }

  lemma NoneInvolved()
    ensures Involved([]) == {}
  {
  }

  lemma PuttersAre(ps: seq<P.Action>, l: P.Loc)
    ensures l in P.Putters(ps) <==> exists k :: 0 <= k < |ps| && l == ps[k].putter
    ensures l in P.Getters(ps) <==> exists k :: 0 <= k < |ps| && (l in ps[k].mg || l in ps[k].pg)
  {
    if ps != [] {
      PuttersAre(ps[1..], l);
      assert forall k :: 0 < k < |ps| ==> ps[k] == ps[1..][k - 1];
    }
  }

  lemma ActionMasks<F>(d: ProtoDef<F>, a: ActionDef, isCopy: bool, isClone: bool, l: LocId)
    requires d.Typed() && Fits(d, a) && a.putter !in a.getters
    ensures var c, p := Config(d, isCopy, isClone), ActionOf(d.locKinds, a);
            && (l == p.putter && P.IsMemo(c, l) <==> l in Drains(d.locKinds, a))
            && ((l in p.mg || l in p.pg) && P.IsMemo(c, l) <==> l in Fills(d.locKinds, a))
            && Empties(d.locKinds, a) == Drains(d.locKinds, a)
  {
    hide Fits, P.ActionOk, Config, ActionOf;
    var p := ActionOf(d.locKinds, a);
    ActionSound(d, a, isCopy, isClone);
    assert l in P.SetOf(p.mg) + P.SetOf(p.pg) <==> l in SetOf(a.getters);
  }

  lemma MaskAt<F>(d: ProtoDef<F>, acts: seq<ActionDef>, isCopy: bool, isClone: bool, l: LocId)
    requires d.Typed() && Acceptable(d, acts) && NoSelfFeeding(acts)
    ensures var c, ps := Config(d, isCopy, isClone), ActionsOf(d.locKinds, acts);
            && (l in P.Putters(ps) && P.IsMemo(c, l) <==> l in AllDrains(d.locKinds, acts))
            && (l in P.Getters(ps) && P.IsMemo(c, l) <==> l in AllFills(d.locKinds, acts))
            && AllEmpties(d.locKinds, acts) == AllDrains(d.locKinds, acts)
  {
    hide Fits, P.ActionOk, Config, ActionOf, Drains, Fills, Empties, Touches;
    var ps := ActionsOf(d.locKinds, acts);
    PuttersAre(ps, l);
    forall k | 0 <= k < |acts|
      ensures && (l == ps[k].putter && P.IsMemo(Config(d, isCopy, isClone), l) <==> l in Drains(d.locKinds, acts[k]))
              && ((l in ps[k].mg || l in ps[k].pg) && P.IsMemo(Config(d, isCopy, isClone), l) <==>
                    l in Fills(d.locKinds, acts[k]))
              && Empties(d.locKinds, acts[k]) == Drains(d.locKinds, acts[k])
    {
      ActionMasks(d, acts[k], isCopy, isClone, l);
      assert ps[k] == ActionOf(d.locKinds, acts[k]);
    }
  }

  /** An accepted rule without self-feeding cells is a rule of the coordinator's model. */
  lemma CompiledRuleOk<F>(d: ProtoDef<F>, def: RuleDef<F>, r: RunRule<F>, cap: nat, guard: set<P.Loc> -> bool,
                          isCopy: bool, isClone: bool)
    requires d.Typed() && Acceptable(d, def.actions) && Compiled(d, def, r, cap) && NoSelfFeeding(def.actions)
    ensures P.RuleOk(Config(d, isCopy, isClone), RuleOf(d, def, r, guard))
  {
    hide Elements, Fits, Acceptable, Config, AllDrains, AllFills, AllEmpties, Involved, P.ActionsOk, P.Putters,
      P.Getters, P.IsMemo;
    var c, acts, ps := Config(d, isCopy, isClone), def.actions, ActionsOf(d.locKinds, def.actions);
    assert MaskSets(r.masks) == SetsFor(d.locKinds, acts);
    ActionsSound(d, acts, isCopy, isClone);
    assert P.Putters(ps) + P.Getters(ps) == Involved(acts);
    forall l: P.Loc | l in P.Putters(ps) + P.Getters(ps) || l in AllDrains(d.locKinds, acts)
      || l in AllFills(d.locKinds, acts)
      ensures && (l in P.Putters(ps) && P.IsMemo(c, l) <==> l in AllDrains(d.locKinds, acts))
              && (l in P.Getters(ps) && P.IsMemo(c, l) <==> l in AllFills(d.locKinds, acts))
    {
      MaskAt(d, acts, isCopy, isClone, l);
    }
    MaskAt(d, acts, isCopy, isClone, 0);
    assert P.Memos(c, P.Putters(ps)) == AllDrains(d.locKinds, acts);
    assert P.Memos(c, P.Getters(ps)) == AllFills(d.locKinds, acts);
    assert P.Memos(c, P.Locs(ps)) == AllDrains(d.locKinds, acts) + AllFills(d.locKinds, acts);
  }
}
