/** The rule compiler (src/proto/definition.rs): symbolic rules become masks, or are rejected for a true reason. */
module RuleCompiler {
  import opened Wrappers
  import opened BitSets
  import opened RuleRuntime

  type LocId = nat
  type TypeId = nat

  datatype LocKind = PortPutter | PortGetter | MemInitialized | MemUninitialized {
    predicate CanPut() { !PortGetter? }

    predicate CanGet() { !PortPutter? }

    predicate IsMem() { MemInitialized? || MemUninitialized? }
  }

  datatype ActionDef = ActionDef(putter: LocId, getters: seq<LocId>)

  datatype RuleDef<F> = RuleDef(guard: F, actions: seq<ActionDef>)

  /** A protocol definition; every location of a known kind has a type. */
  datatype ProtoDef<F> = ProtoDef(rules: seq<RuleDef<F>>, locKinds: map<LocId, LocKind>, locTypes: map<LocId, TypeId>) {
    predicate Typed() { locTypes.Keys == locKinds.Keys }
  }

  datatype RunAction = RunAction(putter: LocId, mg: seq<LocId>, pg: seq<LocId>)

  datatype RunRule<F> = RunRule(masks: Masks, guardPred: F, actions: seq<RunAction>)

  datatype BuildErr =
    | UnknownType(loc: LocId)
    | SynchronousFiring(loc: LocId)
    | LocCannotGet(loc: LocId)
    | LocCannotPut(loc: LocId)
    | TypeMismatch(ruleId: nat, actionId: nat, putter: LocId, getter: LocId)

  // ---------------------------------------------------------------- what a rule involves

  type Kinds = map<LocId, LocKind>

  predicate IsMem(kinds: Kinds, l: LocId) { l in kinds && kinds[l].IsMem() }

  function SetOf(xs: seq<LocId>): set<LocId> { set x | x in xs }

  function Touches(a: ActionDef): set<LocId> { {a.putter} + SetOf(a.getters) }

  /** The cells an action fills, but for one that feeds itself. */
  function Fills(kinds: Kinds, a: ActionDef): set<LocId> { set g | g in a.getters && IsMem(kinds, g) && g != a.putter }

  /** The putter, if it is a cell. */
  function Drains(kinds: Kinds, a: ActionDef): set<LocId> { if IsMem(kinds, a.putter) then {a.putter} else {} }

  /** The putter, if it is a cell that does not feed itself. */
  function Empties(kinds: Kinds, a: ActionDef): set<LocId> { if a.putter in a.getters then {} else Drains(kinds, a) }

  function Involved(acts: seq<ActionDef>): set<LocId> { set k, l | 0 <= k < |acts| && l in Touches(acts[k]) :: l }

  function AllFills(kinds: Kinds, acts: seq<ActionDef>): set<LocId>
  {
    set k, l | 0 <= k < |acts| && l in Fills(kinds, acts[k]) :: l
  }

  function AllDrains(kinds: Kinds, acts: seq<ActionDef>): set<LocId>
  {
    set k, l | 0 <= k < |acts| && l in Drains(kinds, acts[k]) :: l
  }

  function AllEmpties(kinds: Kinds, acts: seq<ActionDef>): set<LocId>
  {
    set k, l | 0 <= k < |acts| && l in Empties(kinds, acts[k]) :: l
  }

  /** What an action demands of a getter. */
  predicate Suits<F>(d: ProtoDef<F>, a: ActionDef, g: LocId)
    requires d.Typed() && a.putter in d.locKinds
  {
    g in d.locKinds && d.locTypes[g] == d.locTypes[a.putter] && d.locKinds[g].CanGet()
  }

  /** What an action demands by itself. */
  predicate Fits<F>(d: ProtoDef<F>, a: ActionDef)
    requires d.Typed()
  {
    && a.putter in d.locKinds && d.locKinds[a.putter].CanPut()
    && forall g <- a.getters :: Suits(d, a, g)
  }

  /** A rule is acceptable: its actions fit, and no location takes part in two of them. */
  predicate Acceptable<F>(d: ProtoDef<F>, acts: seq<ActionDef>)
    requires d.Typed()
  {
    && (forall k :: 0 <= k < |acts| ==> Fits(d, acts[k]))
    && forall j, k :: 0 <= j < k < |acts| ==> Touches(acts[j]) !! Touches(acts[k])
  }

  /** An action is in order exactly if its putter is known and no getter port, and its getters are known, of the
      putter's type and no putter ports. */
  lemma FitsMeans<F>(d: ProtoDef<F>, a: ActionDef)
    requires d.Typed()
    ensures Fits(d, a) <==>
            && a.putter in d.locKinds && d.locKinds[a.putter] != PortGetter
            && forall g :: g in a.getters ==>
                 && g in d.locKinds && d.locKinds[g] != PortPutter
                 && a.putter in d.locTypes && g in d.locTypes && d.locTypes[g] == d.locTypes[a.putter]
  {
  }

  /** A rule is acceptable exactly if its actions are in order and no location takes part in two of them. */
  lemma AcceptableMeans<F>(d: ProtoDef<F>, acts: seq<ActionDef>)
    requires d.Typed()
    ensures Acceptable(d, acts) <==>
            && (forall k :: 0 <= k < |acts| ==>
                  && acts[k].putter in d.locKinds && d.locKinds[acts[k].putter] != PortGetter
                  && forall g :: g in acts[k].getters ==>
                       && g in d.locKinds && d.locKinds[g] != PortPutter
                       && acts[k].putter in d.locTypes && g in d.locTypes
                       && d.locTypes[g] == d.locTypes[acts[k].putter])
            && forall j, k, l :: 0 <= j < k < |acts| && (l == acts[j].putter || l in acts[j].getters) ==>
                 l != acts[k].putter && l !in acts[k].getters
  {
    hide Fits;
    forall k | 0 <= k < |acts| {
      FitsMeans(d, acts[k]);
    }
    assert forall k, l :: 0 <= k < |acts| ==> (l in Touches(acts[k]) <==> l == acts[k].putter || l in acts[k].getters);
  }

  /** The getters without repetitions, in order of first occurrence. */
  function Unique(xs: seq<LocId>): (ys: seq<LocId>)
    ensures (forall x :: x in ys <==> x in xs) && forall i, j :: 0 <= i < j < |ys| ==> ys[i] != ys[j]
  {
    if xs == [] then []
    else
      var init, last := xs[..|xs| - 1], xs[|xs| - 1];
      assert xs == init + [last];
      Unique(init) + if last in init then [] else [last]
  }

  /** The cells, or the ports, of a sequence. */
  function Only(kinds: Kinds, xs: seq<LocId>, mem: bool): (ys: seq<LocId>)
    ensures forall x :: x in ys <==> x in xs && IsMem(kinds, x) == mem
  {
    if xs == [] then []
    else
      var init, last := xs[..|xs| - 1], xs[|xs| - 1];
      assert xs == init + [last];
      Only(kinds, init, mem) + if IsMem(kinds, last) == mem then [last] else []
  }

  function Run(kinds: Kinds, a: ActionDef): RunAction {
    RunAction(a.putter, Only(kinds, Unique(a.getters), true), Only(kinds, Unique(a.getters), false))
  }

  lemma {:induction false} UniqueAfter(xs: seq<LocId>, i: nat, j: nat, k: nat)
    requires i < j < |Unique(xs)| && k < |xs| && xs[k] == Unique(xs)[j]
    ensures Unique(xs)[i] in xs[..k]
  {
    var init, last := xs[..|xs| - 1], xs[|xs| - 1];
    var ys := Unique(init);
    assert xs == init + [last];
    if k < |init| {
      assert init[k] in ys;
      var h :| 0 <= h < |ys| && ys[h] == init[k];
      assert Unique(xs)[h] == Unique(xs)[j];
      UniqueAfter(init, i, j, k);
      assert xs[..k] == init[..k];
    } else {
      assert Unique(xs)[i] != last && Unique(xs)[i] in xs && xs[..k] == init;
    }
  }

  lemma {:induction false} OnlyAfter(kinds: Kinds, xs: seq<LocId>, mem: bool, i: nat, j: nat, k: nat)
    requires forall g, h :: 0 <= g < h < |xs| ==> xs[g] != xs[h]
    requires i < j < |Only(kinds, xs, mem)| && k < |xs| && xs[k] == Only(kinds, xs, mem)[j]
    ensures Only(kinds, xs, mem)[i] in xs[..k]
  {
    var init, last := xs[..|xs| - 1], xs[|xs| - 1];
    var ys := Only(kinds, init, mem);
    assert xs == init + [last];
    assert forall h :: 0 <= h < |ys| ==> ys[h] in init;
    if k < |init| {
      assert last != init[k] && xs[..k] == init[..k];
      OnlyAfter(kinds, init, mem, i, j, k);
    } else {
      assert last !in init && ys[i] in init && xs[..k] == init;
    }
  }

  /** The cells, and the ports, that an action fills are its getters, each once, in the order they first occur in. */
  lemma RunMeans(kinds: Kinds, a: ActionDef)
    ensures Run(kinds, a).putter == a.putter
    ensures forall g :: g in Run(kinds, a).mg <==>
              g in a.getters && g in kinds && kinds[g] != PortPutter && kinds[g] != PortGetter
    ensures forall g :: g in Run(kinds, a).pg <==> g in a.getters && g !in Run(kinds, a).mg
    ensures forall xs <- {Run(kinds, a).mg, Run(kinds, a).pg} ::
              forall i, j, k :: 0 <= i < j < |xs| && 0 <= k < |a.getters| && a.getters[k] == xs[j] ==>
                xs[i] != xs[j] && xs[i] in a.getters[..k]
  {
    hide Only, Unique;
    var uniq := Unique(a.getters);
    forall xs: seq<LocId>, mem, i, j, k | xs == Only(kinds, uniq, mem) && 0 <= i < j < |xs| && 0 <= k < |a.getters|
        && a.getters[k] == xs[j]
      ensures xs[i] != xs[j] && xs[i] in a.getters[..k]
    {
      assert xs[j] in uniq;
      var h :| 0 <= h < |uniq| && uniq[h] == xs[j];
      OnlyAfter(kinds, uniq, mem, i, j, h);
      var g :| 0 <= g < h && uniq[g] == xs[i];
      UniqueAfter(a.getters, g, h, k);
    }
  }

  // ---------------------------------------------------------------- errors

  /** The putter can take part, given the locations used by earlier actions. */
  predicate PutterOk<F>(d: ProtoDef<F>, a: ActionDef, used: set<LocId>)
    requires d.Typed()
  {
    a.putter in d.locKinds && d.locKinds[a.putter].CanPut() && a.putter !in used
  }

  predicate GetterOk<F>(d: ProtoDef<F>, a: ActionDef, g: LocId, used: set<LocId>)
    requires d.Typed() && a.putter in d.locKinds
  {
    Suits(d, a, g) && g !in used
  }

  /** What is wrong with a putter that cannot take part. */
  function PutterError<F>(d: ProtoDef<F>, a: ActionDef): BuildErr {
    var p := a.putter;
    if p !in d.locKinds then UnknownType(p)
    else if !d.locKinds[p].CanPut() then LocCannotPut(p)
    else SynchronousFiring(p)
  }

  /** What is wrong with a getter that cannot take part. */
  function GetterError<F>(d: ProtoDef<F>, ruleId: nat, actionId: nat, a: ActionDef, g: LocId): BuildErr
    requires d.Typed() && a.putter in d.locKinds
  {
    var p := a.putter;
    if g !in d.locKinds then UnknownType(g)
    else if d.locTypes[p] != d.locTypes[g] then TypeMismatch(ruleId, actionId, p, g)
    else if !d.locKinds[g].CanGet() then LocCannotGet(g)
    else SynchronousFiring(g)
  }

  /** The error names what is wrong with the putter, or else with the first getter that cannot take part. */
  ghost predicate Blames<F>(d: ProtoDef<F>, ruleId: nat, actionId: nat, a: ActionDef, used: set<LocId>, e: BuildErr)
    requires d.Typed()
  {
    if !PutterOk(d, a, used) then e == PutterError(d, a)
    else exists i :: 0 <= i < |a.getters| && BlamesGetter(d, ruleId, actionId, a, i, used, e)
  }

  ghost predicate BlamesGetter<F>(d: ProtoDef<F>, ruleId: nat, actionId: nat, a: ActionDef, i: nat, used: set<LocId>,
      e: BuildErr)
    requires d.Typed() && PutterOk(d, a, used) && i < |a.getters|
  {
    && (forall h :: 0 <= h < i ==> GetterOk(d, a, a.getters[h], used))
    && !GetterOk(d, a, a.getters[i], used) && e == GetterError(d, ruleId, actionId, a, a.getters[i])
  }

  /** The error names what is wrong with the first action that is not in order. */
  ghost predicate BlamesRule<F>(d: ProtoDef<F>, ruleId: nat, acts: seq<ActionDef>, e: BuildErr)
    requires d.Typed()
  {
    exists k: nat :: k < |acts| && Acceptable(d, acts[..k]) && Blames(d, ruleId, k, acts[k], Involved(acts[..k]), e)
  }

  lemma BlamesMeans<F>(d: ProtoDef<F>, ruleId: nat, acts: seq<ActionDef>, e: BuildErr)
    requires d.Typed() && BlamesRule(d, ruleId, acts, e)
    ensures !Acceptable(d, acts)
  {
    hide Blames, Acceptable;
    var k: nat :| k < |acts| && Acceptable(d, acts[..k]) && Blames(d, ruleId, k, acts[k], Involved(acts[..k]), e);
    BlamesAction(d, ruleId, k, acts[k], Involved(acts[..k]), e);
    AcceptableNext(d, acts, k);
    if Acceptable(d, acts) {
      AcceptablePrefix(d, acts, k + 1);
    }
  }

  /** For what an action is blamed, the first of these that applies: its putter is unknown, a getter port, or used
      before; its first getter at fault is unknown, of another type, a putter port, or used before. */
  lemma BlamedFor<F>(d: ProtoDef<F>, ruleId: nat, actionId: nat, a: ActionDef, used: set<LocId>, e: BuildErr)
    requires d.Typed() && Blames(d, ruleId, actionId, a, used, e)
    ensures var p, kinds, types := a.putter, d.locKinds, d.locTypes;
            if p !in kinds then e == UnknownType(p)
            else if kinds[p] == PortGetter then e == LocCannotPut(p)
            else if p in used then e == SynchronousFiring(p)
            else
              exists i :: (
                && 0 <= i < |a.getters|
                && (forall g <- a.getters[..i] ::
                      g in kinds && types[g] == types[p] && kinds[g] != PortPutter && g !in used)
                && var g := a.getters[i];
                   if g !in kinds then e == UnknownType(g)
                   else if types[g] != types[p] then e == TypeMismatch(ruleId, actionId, p, g)
                   else if kinds[g] == PortPutter then e == LocCannotGet(g)
                   else g in used && e == SynchronousFiring(g))
  {
    if PutterOk(d, a, used) {
      var i :| 0 <= i < |a.getters| && BlamesGetter(d, ruleId, actionId, a, i, used, e);
      forall g <- a.getters[..i] ensures GetterOk(d, a, g, used) {
      }
    }
  }

  lemma BlamesAction<F>(d: ProtoDef<F>, ruleId: nat, actionId: nat, a: ActionDef, used: set<LocId>, e: BuildErr)
    requires d.Typed() && Blames(d, ruleId, actionId, a, used, e)
    ensures !(Fits(d, a) && Touches(a) !! used)
  {
    if PutterOk(d, a, used) {
      var i :| 0 <= i < |a.getters| && BlamesGetter(d, ruleId, actionId, a, i, used, e);
      assert a.getters[i] in a.getters && a.getters[i] in Touches(a);
    } else {
      assert a.putter in Touches(a);
    }
  }

  // ---------------------------------------------------------------- one action

  /** The four masks under construction, as sets. */
  datatype Sets = Sets(ready: set<LocId>, full: set<LocId>, vals: set<LocId>, mask: set<LocId>) {
    ghost predicate Valid() { full <= ready && vals <= ready && mask <= ready }
  }

  /** The bit sets of a rule under construction. */
  class MaskBuilder {
    const ready: BitSet
    const full: BitSet
    const vals: BitSet
    const mask: BitSet

    ghost predicate Valid()
      reads this, ready, full, vals, mask
    {
      && ready != full && ready != vals && ready != mask && full != vals && full != mask && vals != mask
      && View().Valid()
    }

    ghost function View(): Sets
      reads ready, full, vals, mask
    {
      Sets(ready.Members(), full.Members(), vals.Members(), mask.Members())
    }

    constructor ()
      ensures Valid() && View() == Sets({}, {}, {}, {})
      ensures fresh(ready) && fresh(full) && fresh(vals) && fresh(mask)
    {
      ready := new BitSet();
      full := new BitSet();
      vals := new BitSet();
      mask := new BitSet();
    }

    lemma ValidView()
      requires Valid()
      ensures View().Valid()
    {
    }

    /** The bits of the putter; false if it already takes part in the firing. */
    method AddPutter(p: LocId, memPutter: bool) returns (ok: bool)
      requires Valid()
      modifies ready, full, vals, mask
      ensures ok <==> p !in old(View()).ready
      ensures ok ==> Valid() && View() == WithPutter(old(View()), p, memPutter)
    {
      hide Elements;
      var used := ready.Test(p);
      if used {
        return false;
      }
      if memPutter {
        var _ := full.SetTo(p, true);
        var _ := vals.SetTo(p, false);
        var _ := mask.SetTo(p, true);
      }
      var was := ready.SetTo(p, true);
      return !was;
    }

    /** The bits of one getter of `p`; false if it already takes part in the firing. A cell may be its own getter: it
        must then be full, and stays full. */
    method AddGetter(p: LocId, memPutter: bool, g: LocId, memGetter: bool) returns (ok: bool)
      requires Valid()
      modifies ready, full, vals, mask
      ensures ok <==> g !in old(View()).ready || (g == p && memPutter)
      ensures ok ==> Valid() && View() == WithGetter(old(View()), g, memGetter)
    {
      hide Elements;
      if memGetter {
        var _ := full.SetTo(g, false);
        var _ := vals.SetTo(g, true);
        var _ := mask.SetTo(g, true);
      }
      var wasSet := ready.SetTo(g, true);
      if wasSet {
        if g == p && memPutter {
          var _ := full.SetTo(g, true);
          var _ := mask.SetTo(g, false);
          var _ := vals.SetTo(g, false);
        } else {
          return false;
        }
      }
      return true;
    }

    /** One getter: known, of the putter's type, able to get, and free; returns whether it is a cell. */
    method CheckGetter<F>(d: ProtoDef<F>, ruleId: nat, actionId: nat, a: ActionDef, g: LocId)
        returns (r: Result<bool, BuildErr>)
      requires Valid() && d.Typed() && a.putter in d.locKinds && d.locKinds[a.putter].CanPut()
      modifies ready, full, vals, mask
      ensures r.Ok? <==> Suits(d, a, g) && (g in old(View()).ready ==> g == a.putter)
      ensures r.Err? ==> r.error == GetterError(d, ruleId, actionId, a, g)
      ensures r.Ok? ==> r.value == IsMem(d.locKinds, g) && Valid() && View() == WithGetter(old(View()), g, r.value)
    {
      hide Elements, WithGetter, View, Valid;
      var p := a.putter;
      if g !in d.locKinds {
        return Err(UnknownType(g));
      }
      if d.locTypes[p] != d.locTypes[g] {
        return Err(TypeMismatch(ruleId, actionId, p, g));
      }
      if !d.locKinds[g].CanGet() {
        return Err(LocCannotGet(g));
      }
      var memGetter := d.locKinds[g].IsMem();
      var got := AddGetter(p, d.locKinds[p].IsMem(), g, memGetter);
      if !got {
        return Err(SynchronousFiring(g));
      }
      return Ok(memGetter);
    }

    /** All getters of an action, in order. */
    method AddGetters<F>(d: ProtoDef<F>, ruleId: nat, actionId: nat, a: ActionDef)
        returns (r: Result<RunAction, BuildErr>)
      requires Valid() && d.Typed() && a.putter in d.locKinds && d.locKinds[a.putter].CanPut()
      requires a.putter in View().ready
      requires IsMem(d.locKinds, a.putter) ==>
        a.putter in View().full && a.putter in View().mask && a.putter !in View().vals
      modifies ready, full, vals, mask
      ensures r.Ok? <==> Fits(d, a) && forall g <- a.getters :: g in old(View()).ready ==> g == a.putter
      ensures r.Err? ==> exists i :: 0 <= i < |a.getters|
                                     && BlamesGetter(d, ruleId, actionId, a, i, old(View()).ready - {a.putter}, r.error)
      ensures r.Ok? ==>
        r.value == Run(d.locKinds, a) && Valid()
          && View() == WithGetters(old(View()), d.locKinds, a.putter, SetOf(a.getters))
    {
      hide Elements, Only, WithGetter, WithGetters, View, Valid, BlamesGetter, Fits, Suits, Unique, IsMem,
        GetterError;
      var p := a.putter;
      var uniq := Unique(a.getters);
      var mg, pg := [], [];
      var j := 0;
      ghost var done: set<LocId> := {};
      OnlyNext(d.locKinds, uniq, 0);
      NoGetters(View(), d.locKinds, p);
      ValidView();
      FitsIs(d, a);
      while j < |uniq|
        invariant 0 <= j <= |uniq| && done == SetOf(uniq[..j]) && Valid()
        invariant mg == Only(d.locKinds, uniq[..j], true) && pg == Only(d.locKinds, uniq[..j], false)
        invariant forall g <- done :: Suits(d, a, g) && (g in old(View()).ready ==> g == p)
        invariant View() == WithGetters(old(View()), d.locKinds, p, done)
      {
        var g := uniq[j];
        OnlyNext(d.locKinds, uniq, j);
        SuitsCan(d, a, g);
        ReadyGetters(old(View()), d.locKinds, p, done);
        var memGetter := CheckGetter(d, ruleId, actionId, a, g);
        if memGetter.Err? {
          FirstBlamed(d, ruleId, actionId, a, j, old(View()).ready - {p}, memGetter.error);
          return Err(memGetter.error);
        }
        if memGetter.value {
          mg := mg + [g];
        } else {
          pg := pg + [g];
        }
        MoreGetters(old(View()), d.locKinds, p, done, g);
        done := done + {g};
        j := j + 1;
      }
      assert uniq[..j] == uniq && done == SetOf(a.getters);
      return Ok(RunAction(p, mg, pg));
    }

    method AddAction<F>(d: ProtoDef<F>, ruleId: nat, actionId: nat, a: ActionDef)
        returns (r: Result<RunAction, BuildErr>)
      requires Valid() && d.Typed()
      modifies ready, full, vals, mask
      ensures r.Ok? <==> Fits(d, a) && Touches(a) !! old(View()).ready
      ensures r.Err? ==> Blames(d, ruleId, actionId, a, old(View()).ready, r.error)
      ensures r.Ok? ==> r.value == Run(d.locKinds, a) && Valid() && View() == WithAction(old(View()), d.locKinds, a)
    {
      hide Elements, Fits, View, Valid, BlamesGetter;
      var p := a.putter;
      UnfitPutter(d, a);
      ValidView();
      WithGettersIs(View(), d.locKinds, a);
      if p !in d.locKinds {
        return Err(UnknownType(p));
      }
      if !d.locKinds[p].CanPut() {
        return Err(LocCannotPut(p));
      }
      var memPutter := d.locKinds[p].IsMem();
      var put := AddPutter(p, memPutter);
      if !put {
        return Err(SynchronousFiring(p));
      }
      r := AddGetters(d, ruleId, actionId, a);
    }
  }

  function WithPutter(v: Sets, p: LocId, memPutter: bool): Sets {
    if memPutter then Sets(v.ready + {p}, v.full + {p}, v.vals - {p}, v.mask + {p}) else v.(ready := v.ready + {p})
  }

  function WithGetter(v: Sets, g: LocId, memGetter: bool): Sets {
    if g in v.ready then Sets(v.ready, v.full + {g}, v.vals - {g}, v.mask - {g})
    else if memGetter then Sets(v.ready + {g}, v.full - {g}, v.vals + {g}, v.mask + {g})
    else v.(ready := v.ready + {g})
  }

  function Filled(kinds: Kinds, p: LocId, gs: set<LocId>): set<LocId> { set g | g in gs && IsMem(kinds, g) && g != p }

  function WithGetters(v: Sets, kinds: Kinds, p: LocId, gs: set<LocId>): Sets {
    Sets(v.ready + gs, v.full, v.vals + Filled(kinds, p, gs), (if p in gs then v.mask - {p}
      else v.mask) + Filled(kinds, p, gs))
  }

  function WithAction(v: Sets, kinds: Kinds, a: ActionDef): Sets {
    Sets(v.ready + Touches(a), v.full + Drains(kinds, a), v.vals + Fills(kinds, a),
      v.mask + Empties(kinds, a) + Fills(kinds, a))
  }

  lemma UnfitPutter<F>(d: ProtoDef<F>, a: ActionDef)
    requires d.Typed()
    ensures Fits(d, a) ==> a.putter in d.locKinds && d.locKinds[a.putter].CanPut()
  {
  }

  lemma WithGettersIs(v: Sets, kinds: Kinds, a: ActionDef)
    requires v.Valid()
    ensures a.putter !in v.ready ==>
      WithGetters(WithPutter(v, a.putter, IsMem(kinds, a.putter)), kinds, a.putter, SetOf(a.getters))
        == WithAction(v, kinds, a)
    ensures Touches(a) !! v.ready <==> a.putter !in v.ready && forall g <- a.getters :: g in v.ready + {a.putter} ==>
      g == a.putter
  {
    assert a.putter in Touches(a) && forall g <- a.getters :: g in Touches(a);
    assert Fills(kinds, a) == Filled(kinds, a.putter, SetOf(a.getters));
    var w, w' := WithGetters(WithPutter(v, a.putter, IsMem(kinds, a.putter)), kinds, a.putter, SetOf(a.getters)),
      WithAction(v, kinds, a);
    if a.putter !in v.ready {
      assert w.ready == w'.ready && w.full == w'.full && w.vals == w'.vals && w.mask == w'.mask;
    }
  }

  lemma FitsIs<F>(d: ProtoDef<F>, a: ActionDef)
    requires d.Typed() && a.putter in d.locKinds && d.locKinds[a.putter].CanPut()
    ensures Fits(d, a) <==> forall g <- a.getters :: Suits(d, a, g)
  {
  }

  lemma SuitsCan<F>(d: ProtoDef<F>, a: ActionDef, g: LocId)
    requires d.Typed() && a.putter in d.locKinds && d.locKinds[a.putter].CanPut()
    ensures Suits(d, a, g) ==> g in d.locKinds && (g == a.putter ==> IsMem(d.locKinds, g))
  {
  }

  /** The first unsuitable getter among the distinct ones is the first among all. */
  lemma FirstBlamed<F>(d: ProtoDef<F>, ruleId: nat, actionId: nat, a: ActionDef, j: nat, used: set<LocId>, e: BuildErr)
    requires d.Typed() && PutterOk(d, a, used) && j < |Unique(a.getters)|
    requires forall g <- Unique(a.getters)[..j] :: GetterOk(d, a, g, used)
    requires !GetterOk(d, a, Unique(a.getters)[j], used)
    requires e == GetterError(d, ruleId, actionId, a, Unique(a.getters)[j])
    ensures exists i :: 0 <= i < |a.getters| && BlamesGetter(d, ruleId, actionId, a, i, used, e)
  {
    hide GetterOk, GetterError, Unique;
    var i := FirstOccurrence(a.getters, j);
    forall h | 0 <= h < i ensures GetterOk(d, a, a.getters[h], used) {
      assert a.getters[..i][h] in SetOf(a.getters[..i]);
    }
    assert BlamesGetter(d, ruleId, actionId, a, i, used, e);
  }

  /** The distinct getters are in order of first occurrence. */
  lemma {:induction false} FirstOccurrence(xs: seq<LocId>, j: nat) returns (i: nat)
    requires j < |Unique(xs)|
    ensures i < |xs| && xs[i] == Unique(xs)[j] && SetOf(xs[..i]) == SetOf(Unique(xs)[..j])
  {
    var init, last := xs[..|xs| - 1], xs[|xs| - 1];
    var ys := Unique(init);
    assert xs == init + [last];
    if j < |ys| {
      i := FirstOccurrence(init, j);
      assert xs[..i] == init[..i] && Unique(xs)[..j] == ys[..j];
    } else {
      i := |init|;
      assert xs[..i] == init && Unique(xs)[..j] == ys;
    }
  }

  lemma NoGetters(v: Sets, kinds: Kinds, p: LocId)
    ensures WithGetters(v, kinds, p, {}) == v
  {
  }

  lemma ReadyGetters(v: Sets, kinds: Kinds, p: LocId, gs: set<LocId>)
    ensures WithGetters(v, kinds, p, gs).ready == v.ready + gs
  {
  }

  lemma MoreGetters(v: Sets, kinds: Kinds, p: LocId, gs: set<LocId>, g: LocId)
    requires v.Valid() && p in v.ready && g !in gs && (g in v.ready ==> g == p)
    requires g == p ==> IsMem(kinds, p) && p in v.full && p in v.mask && p !in v.vals
    ensures WithGetter(WithGetters(v, kinds, p, gs), g, IsMem(kinds, g)) == WithGetters(v, kinds, p, gs + {g})
  {
    assert Filled(kinds, p, gs + {g}) == Filled(kinds, p, gs) + if IsMem(kinds, g) && g != p then {g} else {};
    var w, w' := WithGetter(WithGetters(v, kinds, p, gs), g, IsMem(kinds, g)), WithGetters(v, kinds, p, gs + {g});
    assert w.ready == w'.ready && w.full == w'.full && w.vals == w'.vals && w.mask == w'.mask;
  }

  lemma OnlyNext(kinds: Kinds, xs: seq<LocId>, j: nat)
    requires forall i, k :: 0 <= i < k < |xs| ==> xs[i] != xs[k]
    ensures Only(kinds, xs[..0], true) == Only(kinds, xs[..0], false) == []
    ensures j < |xs| ==>
              && xs[j] in xs && xs[j] !in SetOf(xs[..j]) && SetOf(xs[..j + 1]) == SetOf(xs[..j]) + {xs[j]}
              && forall mem ::
                    Only(kinds, xs[..j + 1], mem) == Only(kinds, xs[..j], mem) + if IsMem(kinds, xs[j]) == mem then
                      [xs[j]] else []
  {
    if j < |xs| {
      assert xs[..j + 1] == xs[..j] + [xs[j]] && xs[..j + 1][..j] == xs[..j];
      assert forall i :: 0 <= i < j ==> xs[..j][i] != xs[j];
    }
  }

  // ---------------------------------------------------------------- rules

  /** What the masks of a rule must say. */
  function SetsFor(kinds: Kinds, acts: seq<ActionDef>): Sets {
    Sets(Involved(acts), AllDrains(kinds, acts), AllFills(kinds, acts), AllEmpties(kinds, acts) + AllFills(kinds, acts))
  }

  function MaskSets(m: Masks): Sets {
    Sets(Elements(m.guardReady), Elements(m.guardFull), Elements(m.assignVals), Elements(m.assignMask))
  }

  /** A compiled rule: its masks are those of its definition and long enough for `cap` bits, its actions those of the
      definition with the getters sorted into cells and ports. */
  ghost predicate Compiled<F>(d: ProtoDef<F>, def: RuleDef<F>, r: RunRule<F>, cap: nat) {
    && MaskSets(r.masks) == SetsFor(d.locKinds, def.actions)
    && |r.masks.guardReady| >= LenNeeded(cap) && |r.masks.guardFull| >= LenNeeded(cap)
    && |r.masks.assignVals| >= LenNeeded(cap) && |r.masks.assignMask| >= LenNeeded(cap)
    && r.guardPred == def.guard
    && |r.actions| == |def.actions| && forall k :: 0 <= k < |r.actions| ==>
          r.actions[k] == Run(d.locKinds, def.actions[k])
  }

  lemma InvolvedNext(acts: seq<ActionDef>, k: nat)
    requires k < |acts|
    ensures Involved(acts[..k + 1]) == Involved(acts[..k]) + Touches(acts[k])
  {
    var init, next := acts[..k], acts[..k + 1];
    assert next == init + [acts[k]];
    forall l ensures l in Involved(next) <==> l in Involved(init) + Touches(acts[k]) {
      assert l in Touches(acts[k]) ==> l in Touches(next[k]);
      if l in Involved(init) {
        var j :| 0 <= j < |init| && l in Touches(init[j]);
        assert l in Touches(next[j]);
      }
    }
  }

  lemma FillsNext(kinds: Kinds, acts: seq<ActionDef>, k: nat)
    requires k < |acts|
    ensures AllFills(kinds, acts[..k + 1]) == AllFills(kinds, acts[..k]) + Fills(kinds, acts[k])
  {
    var init, next := acts[..k], acts[..k + 1];
    assert next == init + [acts[k]];
    forall l ensures l in AllFills(kinds, next) <==> l in AllFills(kinds, init) + Fills(kinds, acts[k]) {
      assert l in Fills(kinds, acts[k]) ==> l in Fills(kinds, next[k]);
      if l in AllFills(kinds, init) {
        var j :| 0 <= j < |init| && l in Fills(kinds, init[j]);
        assert l in Fills(kinds, next[j]);
      }
    }
  }

  lemma DrainsNext(kinds: Kinds, acts: seq<ActionDef>, k: nat)
    requires k < |acts|
    ensures AllDrains(kinds, acts[..k + 1]) == AllDrains(kinds, acts[..k]) + Drains(kinds, acts[k])
    ensures AllEmpties(kinds, acts[..k + 1]) == AllEmpties(kinds, acts[..k]) + Empties(kinds, acts[k])
  {
    var init, next := acts[..k], acts[..k + 1];
    assert next == init + [acts[k]];
    forall l ensures l in AllDrains(kinds, next) <==> l in AllDrains(kinds, init) + Drains(kinds, acts[k])
             ensures l in AllEmpties(kinds, next) <==> l in AllEmpties(kinds, init) + Empties(kinds, acts[k])
    {
      assert l in Drains(kinds, acts[k]) ==> l in Drains(kinds, next[k]);
      assert l in Empties(kinds, acts[k]) ==> l in Empties(kinds, next[k]);
      if l in AllDrains(kinds, init) {
        var j :| 0 <= j < |init| && l in Drains(kinds, init[j]);
        assert l in Drains(kinds, next[j]);
      }
      if l in AllEmpties(kinds, init) {
        var j :| 0 <= j < |init| && l in Empties(kinds, init[j]);
        assert l in Empties(kinds, next[j]);
      }
    }
  }

  lemma SetsNext(kinds: Kinds, acts: seq<ActionDef>, k: nat)
    requires k < |acts|
    ensures SetsFor(kinds, acts[..k + 1]) == WithAction(SetsFor(kinds, acts[..k]), kinds, acts[k])
  {
    hide Involved, AllFills, AllDrains, AllEmpties;
    InvolvedNext(acts, k);
    FillsNext(kinds, acts, k);
    DrainsNext(kinds, acts, k);
  }

  lemma AcceptableNext<F>(d: ProtoDef<F>, acts: seq<ActionDef>, k: nat)
    requires d.Typed() && k < |acts|
    ensures Acceptable(d, acts[..k + 1]) <==>
      Acceptable(d, acts[..k]) && Fits(d, acts[k]) && Touches(acts[k]) !! Involved(acts[..k])
  {
    hide Fits, Touches;
    var init, next := acts[..k], acts[..k + 1];
    assert next == init + [acts[k]];
    if Acceptable(d, next) {
      assert Fits(d, next[k]);
      forall j | 0 <= j < k ensures Fits(d, init[j]) && Touches(init[j]) !! Touches(acts[k]) {
        assert Fits(d, next[j]) && Touches(next[j]) !! Touches(next[k]);
      }
    }
    if Touches(acts[k]) !! Involved(init) {
      forall j | 0 <= j < k ensures Touches(init[j]) !! Touches(acts[k]) {
        assert forall l <- Touches(init[j]) :: l in Involved(init);
      }
    }
  }

  /** An acceptable beginning is needed for the whole. */
  lemma AcceptablePrefix<F>(d: ProtoDef<F>, acts: seq<ActionDef>, k: nat)
    requires d.Typed() && k <= |acts| && Acceptable(d, acts)
    ensures Acceptable(d, acts[..k])
  {
    hide Fits, Touches;
    forall j | 0 <= j < k ensures Fits(d, acts[..k][j]) {
      assert acts[..k][j] == acts[j];
    }
    forall i, j | 0 <= i < j < k ensures Touches(acts[..k][i]) !! Touches(acts[..k][j]) {
      assert acts[..k][i] == acts[i] && acts[..k][j] == acts[j];
    }
  }

  method BuildRule<F>(d: ProtoDef<F>, ruleId: nat, def: RuleDef<F>, cap: nat) returns (r: Result<RunRule<F>, BuildErr>)
    requires d.Typed()
    ensures r.Ok? <==> Acceptable(d, def.actions)
    ensures r.Ok? ==> Compiled(d, def, r.value, cap)
    ensures r.Err? ==> BlamesRule(d, ruleId, def.actions, r.error)
  {
    hide Elements, SetsFor, Acceptable, Blames, WithAction, Fits, Run;
    var acts := def.actions;
    var b := new MaskBuilder();
    var actions := [];
    var k := 0;
    NoActions(d, acts);
    while k < |acts|
      invariant 0 <= k <= |acts| && b.Valid() && fresh(b.ready) && fresh(b.full) && fresh(b.vals) && fresh(b.mask)
      invariant Acceptable(d, acts[..k]) && b.View() == SetsFor(d.locKinds, acts[..k])
      invariant |actions| == k && forall j :: 0 <= j < k ==> actions[j] == Run(d.locKinds, acts[j])
    {
      var action := b.AddAction(d, ruleId, k, acts[k]);
      SetsNext(d.locKinds, acts, k);
      SetsReady(d.locKinds, acts[..k]);
      AcceptableNext(d, acts, k);
      if action.Err? {
        if Acceptable(d, acts) {
          AcceptablePrefix(d, acts, k + 1);
        }
        return Err(action.error);
      }
      actions := actions + [action.value];
      k := k + 1;
    }
    assert acts[..k] == acts;
    b.ready.PadTrailingZeroes(LenNeeded(cap));
    b.full.PadTrailingZeroes(LenNeeded(cap));
    b.vals.PadTrailingZeroes(LenNeeded(cap));
    b.mask.PadTrailingZeroes(LenNeeded(cap));
    var masks := Masks(b.ready.data, b.full.data, b.vals.data, b.mask.data);
    assert MaskSets(masks) == b.View();
    return Ok(RunRule(masks, def.guard, actions));
  }

  lemma SetsReady(kinds: Kinds, acts: seq<ActionDef>)
    ensures SetsFor(kinds, acts).ready == Involved(acts)
  {
  }

  lemma NoActions<F>(d: ProtoDef<F>, acts: seq<ActionDef>)
    requires d.Typed()
    ensures Acceptable(d, acts[..0]) && SetsFor(d.locKinds, acts[..0]) == Sets({}, {}, {}, {})
  {
  }

  ghost predicate MaxLoc<F>(d: ProtoDef<F>, c: nat) {
    (forall l <- d.locKinds :: l <= c) && (c in d.locKinds || (d.locKinds == map[] && c == 0))
  }

  /** The greatest location of a known kind, or 0. */
  method MaxLocId<F>(d: ProtoDef<F>) returns (c: nat)
    ensures MaxLoc(d, c)
    ensures (forall l <- d.locKinds :: l <= c) && if d.locKinds == map[] then c == 0 else c in d.locKinds
  {
    c := 0;
    var todo := d.locKinds.Keys;
    while todo != {}
      invariant todo <= d.locKinds.Keys
      invariant forall l <- d.locKinds.Keys :: l in todo || l <= c
      invariant c in d.locKinds || c == 0
      invariant todo != d.locKinds.Keys && c == 0 ==> 0 in d.locKinds
    {
      var l :| l in todo;
      todo := todo - {l};
      if l > c {
        c := l;
      }
    }
  }

  /** Compiles all rules or reports what is wrong with the first unacceptable one. */
  method BuildRules<F>(d: ProtoDef<F>) returns (r: Result<seq<RunRule<F>>, BuildErr>)
    requires d.Typed()
    ensures r.Ok? <==> forall i :: 0 <= i < |d.rules| ==> Acceptable(d, d.rules[i].actions)
    ensures r.Ok? ==> |r.value| == |d.rules|
    ensures r.Ok? ==> forall i, cap :: 0 <= i < |d.rules| && MaxLoc(d, cap) ==> Compiled(d, d.rules[i], r.value[i], cap)
    ensures r.Err? ==> exists i: nat :: i < |d.rules| && (forall j :: 0 <= j < i ==> Acceptable(d, d.rules[j].actions))
                                        && BlamesRule(d, i, d.rules[i].actions, r.error)
  {
    hide Acceptable, BlamesRule, Compiled;
    var c := MaxLocId(d);
    var rules := [];
    var i := 0;
    while i < |d.rules|
      invariant 0 <= i <= |d.rules| && |rules| == i
      invariant forall j :: 0 <= j < i ==> Acceptable(d, d.rules[j].actions) && Compiled(d, d.rules[j], rules[j], c)
    {
      var rule := BuildRule(d, i, d.rules[i], c);
      if rule.Err? {
        return Err(rule.error);
      }
      rules := rules + [rule.value];
      i := i + 1;
    }
    assert forall cap :: MaxLoc(d, cap) ==> cap == c;
    return Ok(rules);
  }
}
