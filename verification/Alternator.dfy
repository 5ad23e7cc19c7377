/** The alternator protocol over all schedules: values got at port 2 come strictly in turn from port 0 and port 1,
    each in the order they were put. */
module Alternator {
  import opened Wrappers
  import opened Protocol
  import opened StaticScope
  import opened RuleAutomaton
  import opened RefinementFiring
  import B = BitSets
  import R = RuleCompiler
  import CompiledRules

  /** Rules `0=>2; 1=>3` and `3=>2`, as the rule compiler masks them. */
  function SyncRule(): Rule {
    Rule({0, 1, 2, 3}, {}, {3}, {3}, (bits: set<Loc>) => true, [Action(0, [], [2]), Action(1, [3], [])])
  }

  function DrainRule(): Rule {
    Rule({2, 3}, {3}, {}, {3}, (bits: set<Loc>) => true, [Action(3, [], [2])])
  }

  function Alt(copy: bool, clone: bool): Config {
    Config(map[0 := PoPu, 1 := PoPu, 2 := PoGe, 3 := Memo], [SyncRule(), DrainRule()], copy, clone)
  }

  datatype Formula = True

  /** The protocol's definition; all its locations are of one type. */
  function Definition(): R.ProtoDef<Formula> {
    R.ProtoDef(
      [R.RuleDef(True, [R.ActionDef(0, [2]), R.ActionDef(1, [3])]), R.RuleDef(True, [R.ActionDef(3, [2])])],
      map[0 := R.PortPutter, 1 := R.PortPutter, 2 := R.PortGetter, 3 := R.MemUninitialized],
      map[0 := 0, 1 := 0, 2 := 0, 3 := 0])
  }

  /** The definition is accepted, and the two rules are what its rules are compiled to; their guards hold always. */
  lemma AltCompiled(copy: bool, clone: bool, r: seq<R.RunRule<Formula>>, cap: nat)
    ensures Definition().Typed() && R.MaxLoc(Definition(), 3)
    ensures forall i :: 0 <= i < 2 ==> R.Acceptable(Definition(), Definition().rules[i].actions)
    ensures |r| == 2 && (forall i :: 0 <= i < 2 ==> R.Compiled(Definition(), Definition().rules[i], r[i], cap)) ==>
              Alt(copy, clone) == CompiledRules.Config(Definition(), copy, clone).(rules :=
                seq(2, i requires 0 <= i < 2 =>
                  CompiledRules.RuleOf(Definition(), Definition().rules[i], r[i], Alt(copy, clone).rules[i].guard)))
    ensures forall i, bits :: 0 <= i < 2 ==> Alt(copy, clone).rules[i].guard(bits)
  {
    hide B.Elements, R.Acceptable, R.Compiled, CompiledRules.RuleOf;
    AltAccepted();
    if |r| == 2 && forall i :: 0 <= i < 2 ==> R.Compiled(Definition(), Definition().rules[i], r[i], cap) {
      SyncCompiled(r[0], cap);
      DrainCompiled(r[1], cap);
    }
  }

  lemma AltAccepted()
    ensures Definition().Typed()
    ensures forall i :: 0 <= i < 2 ==> R.Acceptable(Definition(), Definition().rules[i].actions)
  {
    var sync, drain := Definition().rules[0].actions, Definition().rules[1].actions;
    assert R.Acceptable(Definition(), sync) && R.Acceptable(Definition(), drain);
  }

  lemma SyncCompiled(r: R.RunRule<Formula>, cap: nat)
    requires R.Compiled(Definition(), Definition().rules[0], r, cap)
    ensures CompiledRules.RuleOf(Definition(), Definition().rules[0], r, SyncRule().guard) == SyncRule()
  {
    hide B.Elements, R.SetsFor, R.Run, R.Only, R.Unique, Definition;
    var d := Definition();
    SyncDefinition();
    SyncSets();
    RunOne(d.locKinds, d.rules[0].actions[0], 2);
    RunOne(d.locKinds, d.rules[0].actions[1], 3);
    MasksAre(d, d.rules[0], r, cap, SyncRule().guard);
  }

  lemma MasksAre(d: R.ProtoDef<Formula>, def: R.RuleDef<Formula>, r: R.RunRule<Formula>, cap: nat,
      guard: set<Loc> -> bool)
    requires R.Compiled(d, def, r, cap)
    ensures var v, r' := R.SetsFor(d.locKinds, def.actions), CompiledRules.RuleOf(d, def, r, guard);
            && r'.guardReady == v.ready && r'.guardFull == v.full && r'.assignVals == v.vals && r'.assignMask == v.mask
            && r'.guard == guard && r'.actions == CompiledRules.ActionsOf(d.locKinds, def.actions)
  {
    hide B.Elements, R.SetsFor, CompiledRules.ActionsOf;
  }

  lemma SyncDefinition()
    ensures |Definition().rules| == 2 && Definition().rules[0].actions == [R.ActionDef(0, [2]), R.ActionDef(1, [3])]
    ensures R.IsMem(Definition().locKinds, 3) && !R.IsMem(Definition().locKinds, 2)
  {
  }

  lemma SyncSets()
    ensures R.SetsFor(Definition().locKinds, Definition().rules[0].actions) == R.Sets({0, 1, 2, 3}, {}, {3}, {3})
  {
    var kinds, acts := Definition().locKinds, Definition().rules[0].actions;
    assert R.Touches(acts[0]) == {0, 2} && R.Touches(acts[1]) == {1, 3};
    assert R.Involved(acts) == {0, 1, 2, 3};
    assert R.Fills(kinds, acts[0]) == {} && R.Fills(kinds, acts[1]) == {3};
    assert R.AllFills(kinds, acts) == {3};
  }

  lemma DrainCompiled(r: R.RunRule<Formula>, cap: nat)
    requires R.Compiled(Definition(), Definition().rules[1], r, cap)
    ensures CompiledRules.RuleOf(Definition(), Definition().rules[1], r, DrainRule().guard) == DrainRule()
  {
    hide B.Elements, R.SetsFor, R.Run, R.Only, R.Unique, Definition;
    var d := Definition();
    DrainDefinition();
    DrainSets();
    RunOne(d.locKinds, d.rules[1].actions[0], 2);
    MasksAre(d, d.rules[1], r, cap, DrainRule().guard);
  }

  lemma DrainDefinition()
    ensures |Definition().rules| == 2 && Definition().rules[1].actions == [R.ActionDef(3, [2])]
    ensures !R.IsMem(Definition().locKinds, 2)
  {
  }

  lemma DrainSets()
    ensures R.SetsFor(Definition().locKinds, Definition().rules[1].actions) == R.Sets({2, 3}, {3}, {}, {3})
  {
    var kinds, acts := Definition().locKinds, Definition().rules[1].actions;
    assert R.Touches(acts[0]) == {2, 3} && R.Drains(kinds, acts[0]) == {3} && R.Fills(kinds, acts[0]) == {};
    assert R.Empties(kinds, acts[0]) == {3};
    assert R.Involved(acts) == {2, 3} && R.AllDrains(kinds, acts) == {3} && R.AllFills(kinds, acts) == {};
    assert R.AllEmpties(kinds, acts) == {3};
  }

  lemma RunOne(kinds: R.Kinds, a: R.ActionDef, g: R.LocId)
    requires a.getters == [g]
    ensures R.Run(kinds, a)
      == if R.IsMem(kinds, g) then R.RunAction(a.putter, [g], []) else R.RunAction(a.putter, [], [g])
  {
    assert R.Unique([]) == [] && forall mem :: R.Only(kinds, [], mem) == [];
    assert [g][..0] == [] && R.Unique([g]) == [g];
    forall mem ensures R.Only(kinds, [g], mem) == if R.IsMem(kinds, g) == mem then [g] else [] {
    }
  }

  lemma AltOk(copy: bool, clone: bool)
    requires copy ==> clone
    ensures ConfigOk(Alt(copy, clone))
  {
    hide RuleOk;
    SyncOk(copy, clone);
    DrainOk(copy, clone);
  }

  lemma SyncOk(copy: bool, clone: bool)
    ensures RuleOk(Alt(copy, clone), SyncRule())
  {
    var c, tail := Alt(copy, clone), SyncRule().actions[1..];
    SyncLocs();
    assert tail == [Action(1, [3], [])] && tail[1..] == [];
    assert ActionsOk(c, tail);
  }

  lemma DrainOk(copy: bool, clone: bool)
    ensures RuleOk(Alt(copy, clone), DrainRule())
  {
    DrainLocs();
    assert DrainRule().actions[1..] == [];
  }

  lemma SyncLocs()
    ensures SyncRule().actions[1..] == [Action(1, [3], [])]
    ensures Putters(SyncRule().actions) == {0, 1} && Getters(SyncRule().actions) == {2, 3}
    ensures Locs(SyncRule().actions[1..]) == {1, 3}
  {
    var tail := SyncRule().actions[1..];
    assert tail == [Action(1, [3], [])] && tail[1..] == [];
    assert Putters(tail) == {1} && Getters(tail) == {3};
  }

  lemma DrainLocs()
    ensures Putters(DrainRule().actions) == {3} && Getters(DrainRule().actions) == {2}
  {
    assert DrainRule().actions[1..] == [];
  }

  /** One getter per action: every run is in scope. */
  lemma AltTame(copy: bool, clone: bool)
    ensures TameRules(Alt(copy, clone), {})
  {
    forall i, k | 0 <= i < 2 && 0 <= k < |Alt(copy, clone).rules[i].actions|
      ensures ActionTame(Alt(copy, clone), {}, Alt(copy, clone).rules[i].actions[k])
    {
      assert i == 0 ==>
        Alt(copy, clone).rules[i].actions[k] == Action(0, [], [2])
          || Alt(copy, clone).rules[i].actions[k] == Action(1, [3], []);
      assert i == 1 ==> Alt(copy, clone).rules[i].actions[k] == Action(3, [], [2]);
    }
  }

  // ---------------------------------------------------------------- what an observer sees

  /** What an observer of the events remembers: the values now offered, the values of the puts fired so far, what
      the current get asked for, and what every returned get asked for and got. */
  datatype Seen = Seen(offer0: Val, offer1: Val, puts0: seq<Val>, puts1: seq<Val>, asked: bool, wants: seq<bool>,
    got: seq<Option<Val>>)

  function See(h: Seen, ev: Event): Seen {
    match ev
    case DidPut(p, v) => if p == 0 then h.(offer0 := v) else h.(offer1 := v)
    case DidGet(g, wants) => h.(asked := wants)
    case Fired(i) => if i == 0 then h.(puts0 := h.puts0 + [h.offer0], puts1 := h.puts1 + [h.offer1]) else h
    case GetReturned(g, out) => h.(wants := h.wants + [h.asked], got := h.got + [out])
    case _ => h
  }

  function SeeAll(h: Seen, evs: seq<Event>): Seen
    decreases |evs|
  {
    if evs == [] then h else SeeAll(See(h, evs[0]), evs[1..])
  }

  function Nothing(): Seen { Seen(0, 0, [], [], false, [], []) }

  /** The value due at the `k`th get. */
  function Due(h: Seen, k: nat): Option<Val> {
    if k % 2 == 0 then (if k / 2 < |h.puts0| then Some(h.puts0[k / 2]) else None)
    else if k / 2 < |h.puts1| then Some(h.puts1[k / 2]) else None
  }

  ghost predicate InTurn(h: Seen) {
    && |h.wants| == |h.got|
    && forall k :: 0 <= k < |h.got| ==> Due(h, k).Some? && h.got[k] == if h.wants[k] then Due(h, k) else None
  }

  // ---------------------------------------------------------------- the invariant

  function Fired2(a: AState, h: Seen): int { 2 * |h.puts0| - (if 3 in a.cell then 1 else 0) }

  /** Firings so far, gets returned and the get being served fit together. */
  ghost predicate Tracks(a: AState, h: Seen) {
    && InTurn(h) && |h.puts0| == |h.puts1| && Fired2(a, h) >= 0
    && (forall l <- a.port :: 0 <= l <= 2)
    && (0 in a.port && a.port[0].Offer? ==> a.port[0].v == h.offer0)
    && (1 in a.port && a.port[1].Offer? ==> a.port[1].v == h.offer1)
    && (2 in a.port && a.port[2].Want? ==> a.port[2].wants == h.asked)
    && (0 in a.port ==> a.port[0].Offer? || a.port[0].Released?)
    && (1 in a.port ==> a.port[1].Offer? || a.port[1].Released?)
    && (2 in a.port ==> a.port[2].Want? || a.port[2].Given?)
    && a.cell.Keys <= {3} && (3 in a.cell ==> |h.puts1| > 0 && a.cell[3] == h.puts1[|h.puts1| - 1])
    && |h.got| == Fired2(a, h) - (if 2 in a.port && a.port[2].Given? then 1 else 0)
    && (2 in a.port && a.port[2].Given? ==>
          Due(h, |h.got|).Some? && a.port[2].out == if h.asked then Due(h, |h.got|) else None)
  }

  lemma SyncFire(copy: bool, clone: bool, a: AState)
    requires AEnabled(Alt(copy, clone), a, SyncRule())
    ensures var a' := AFire(Alt(copy, clone), a, SyncRule());
            && 0 in a.port && a.port[0].Offer? && 1 in a.port && a.port[1].Offer? && 2 in a.port && a.port[2].Want?
            && 3 !in a.cell
            && a'.port.Keys == a.port.Keys && a'.port[0].Released? && a'.port[1].Released?
            && a'.port[2] == Given(if a.port[2].wants then Some(a.port[0].v) else None)
            && a'.cell.Keys == a.cell.Keys + {3} && a'.cell[3] == a.port[1].v
  {
    var c, acts := Alt(copy, clone), SyncRule().actions;
    SyncLocs();
    assert 0 in Putters(acts) && 1 in Putters(acts) && 2 in Getters(acts) && 3 in Getters(acts);
    assert Feeder(acts, 0) == Some(acts[0]) && Feeder(acts, 2) == Some(acts[0]);
    assert Feeder(acts[1..], 1) == Some(acts[1]) && Feeder(acts[1..], 3) == Some(acts[1]);
    assert 1 !in Touched(acts[0]) && 3 !in Touched(acts[0]);
    assert Feeder(acts, 1) == Some(acts[1]) && Feeder(acts, 3) == Some(acts[1]);
    assert Memos(c, Putters(acts)) == {} && Memos(c, Getters(acts)) == {3};
  }

  lemma DrainFire(copy: bool, clone: bool, a: AState)
    requires AEnabled(Alt(copy, clone), a, DrainRule()) && (forall l <- a.port :: 0 <= l <= 2)
    ensures var a' := AFire(Alt(copy, clone), a, DrainRule());
            && 2 in a.port && a.port[2].Want? && 3 in a.cell
            && a'.port == a.port[2 := Given(if a.port[2].wants then Some(a.cell[3]) else None)]
            && a'.cell.Keys == a.cell.Keys - {3}
  {
    var c, acts := Alt(copy, clone), DrainRule().actions;
    DrainLocs();
    assert 3 in Putters(acts) && 2 in Getters(acts);
    assert Feeder(acts, 2) == Some(acts[0]);
    assert forall l :: l != 2 && l != 3 ==> Feeder(acts[1..], l) == None && l !in Touched(acts[0]);
    assert forall l :: l != 2 && l != 3 ==> Feeder(acts, l) == None;
    assert Memos(c, Putters(acts)) == {3} && Memos(c, Getters(acts)) == {};
  }

  lemma TracksSync(copy: bool, clone: bool, a: AState, h: Seen)
    requires Tracks(a, h) && ACan(Alt(copy, clone), a, Fired(0))
    ensures Tracks(ADo(Alt(copy, clone), a, Fired(0)), See(h, Fired(0)))
  {
    hide AEnabled, AFire;
    SyncFire(copy, clone, a);
  }

  lemma TracksDrain(copy: bool, clone: bool, a: AState, h: Seen)
    requires Tracks(a, h) && ACan(Alt(copy, clone), a, Fired(1))
    ensures Tracks(ADo(Alt(copy, clone), a, Fired(1)), See(h, Fired(1)))
  {
    hide AEnabled, AFire;
    DrainFire(copy, clone, a);
  }

  lemma TracksGot(copy: bool, clone: bool, a: AState, h: Seen, ev: Event)
    requires Tracks(a, h) && ACan(Alt(copy, clone), a, ev) && ev.GetReturned?
    ensures Tracks(ADo(Alt(copy, clone), a, ev), See(h, ev))
  {
    hide AEnabled, AFire;
  }

  lemma TracksQuiet(copy: bool, clone: bool, a: AState, h: Seen, ev: Event)
    requires Tracks(a, h) && ACan(Alt(copy, clone), a, ev) && !ev.GetReturned? && !ev.Fired?
    ensures Tracks(ADo(Alt(copy, clone), a, ev), See(h, ev))
  {
    hide AEnabled, AFire, InTurn, Due;
    assert InTurn(See(h, ev)) by {
      SameTurn(h, See(h, ev));
    }
    assert forall k :: Due(See(h, ev), k) == Due(h, k) by {
      SameDue(h, See(h, ev));
    }
  }

  lemma SameDue(h: Seen, h': Seen)
    requires h'.puts0 == h.puts0 && h'.puts1 == h.puts1
    ensures forall k :: Due(h', k) == Due(h, k)
  {
  }

  lemma SameTurn(h: Seen, h': Seen)
    requires InTurn(h) && h'.puts0 == h.puts0 && h'.puts1 == h.puts1 && h'.wants == h.wants && h'.got == h.got
    ensures InTurn(h')
  {
    hide Due;
    SameDue(h, h');
    forall k | 0 <= k < |h.got|
      ensures Due(h', k).Some? && h'.got[k] == if h'.wants[k] then Due(h', k) else None
    {
      assert Due(h', k) == Due(h, k);
    }
  }

  lemma TracksEvent(copy: bool, clone: bool, a: AState, h: Seen, ev: Event)
    requires Tracks(a, h) && ACan(Alt(copy, clone), a, ev)
    ensures Tracks(ADo(Alt(copy, clone), a, ev), See(h, ev))
  {
    hide AEnabled, AFire, Tracks, See, ADo;
    if ev == Fired(0) {
      TracksSync(copy, clone, a, h);
    } else if ev == Fired(1) {
      TracksDrain(copy, clone, a, h);
    } else if ev.GetReturned? {
      TracksGot(copy, clone, a, h, ev);
    } else {
      TracksQuiet(copy, clone, a, h, ev);
    }
  }

  lemma {:induction false} TracksAll(copy: bool, clone: bool, a: AState, h: Seen, evs: seq<Event>)
    requires Tracks(a, h) && Accepts(Alt(copy, clone), a, evs)
    ensures InTurn(SeeAll(h, evs))
    decreases |evs|
  {
    hide AEnabled, AFire, ADo, ACan, See;
    if evs != [] {
      TracksEvent(copy, clone, a, h, evs[0]);
      TracksAll(copy, clone, ADo(Alt(copy, clone), a, evs[0]), See(h, evs[0]), evs[1..]);
    }
  }

  /** In every run of the alternator's threads, the `k`th get to return got, if it asked for data, the `k/2`th value
      put through port 0 when `k` is even and through port 1 when it is odd. */
  lemma Alternates(copy: bool, clone: bool, steps: seq<Step>)
    requires copy ==> clone
    requires ValidRun(Alt(copy, clone), Init(Alt(copy, clone)), steps)
    ensures InTurn(SeeAll(Nothing(), Trace(Alt(copy, clone), Init(Alt(copy, clone)), steps)))
  {
    hide ValidRun, ScopedRun, Trace, Accepts, ConfigOk, Tame, TameRules;
    AltOk(copy, clone);
    AltTame(copy, clone);
    InitTame(Alt(copy, clone), {});
    TameRunsScoped(Alt(copy, clone), {}, Init(Alt(copy, clone)), steps);
    EveryRunRefines(Alt(copy, clone), steps);
    assert Tracks(AInit(), Nothing());
    TracksAll(copy, clone, AInit(), Nothing(), Trace(Alt(copy, clone), Init(Alt(copy, clone)), steps));
  }
}
