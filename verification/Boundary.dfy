/** Concrete runs beyond the scope of the guarantees, and rules for which the lock holder never ends. */
module Boundary {
  import opened Wrappers
  import opened Protocol
  import opened ProtocolInvariant
  import opened ProtocolSafety
  import opened Runs
  import opened Outcomes
  import opened OutOfScope

  /** A state that some run reaches, with the invariant still intact. */
  ghost predicate Reached(c: Config, s: State) { Leads(c, Init(c), s) && Inv(c, s) }

  lemma Start(c: Config)
    ensures Reached(c, Init(c))
  {
    hide Inv, Init;
    Stays(c, Init(c));
    InitInv(c);
  }

  lemma Next(c: Config, s: State, step: Step, s': State)
    requires ConfigOk(c) && Reached(c, s) && Enabled(c, s, step) && Do(c, s, step) == s' && Scoped(c, s, step)
    ensures Reached(c, s')
  {
    hide Inv, Enabled, Do, ConfigOk, Leads, Init, Scoped;
    StepInv(c, s, step);
    LeadsStep(c, s, step);
    LeadsOn(c, Init(c), s, s');
  }

  // ---------------------------------------------------------------- two port getters of one port putter

  /** The rule `0=>1,2`. */
  function Two(isCopy: bool): Config { Config(map[0 := PoPu, 1 := PoGe, 2 := PoGe], [Both()], isCopy, true) }

  function Both(): Rule { Rule({0, 1, 2}, {}, {}, {}, (bits: set<Loc>) => true, [Act()]) }

  function Act(): Action { Action(0, [], [1, 2]) }

  /** A put of 7 on port 0 and gets on ports 1 and 2. */
  function Asked(lock: Lock, ready: set<Loc>, calls: map<Loc, Call>): State {
    State(lock, ready, {}, map[], map[], map[0 := Stack], map[], map[], map[], map[], calls, false)
  }

  function One(ph: Phase): map<Loc, Call> { map[0 := Put(7, false, ph)] }

  function Taker(): Call { Call.Get(true, false, None, Waiting) }

  /** The rule is sound in every respect, */
  lemma OnlyOutOfScope(isCopy: bool)
    ensures ConfigOk(Two(isCopy)) && RuleOk(Two(isCopy), Both()) && PortRules(Two(isCopy))
  {
    var acts := [Act()];
    assert acts[1..] == [];
    assert Locs(acts) == {0, 1, 2} && Putters(acts) == {0} && Getters(acts) == {1, 2};
    assert forall l :: !IsMemo(Two(isCopy), l);
    assert Memos(Two(isCopy), {0}) == {} && Memos(Two(isCopy), {1, 2}) == {} && Memos(Two(isCopy), {0, 1, 2}) == {};
    assert RuleOk(Two(isCopy), Both());
    assert 0 in Both().guardReady && !IsMemo(Two(isCopy), 0);
  }

  lemma PutBegun(isCopy: bool)
    ensures Reached(Two(isCopy), Asked(Free, {}, One(Starting)))
  {
    hide Reached, ConfigOk, DoWork, DoRecv, DoFinalize, DoRevoke, FillGetters, Dispatch, Working, RuleEnabled, Send,
      DoSelect;
    OnlyOutOfScope(isCopy);
    Start(Two(isCopy));
    Next(Two(isCopy), Init(Two(isCopy)), BeginPut(0, 7, false), Asked(Free, {}, One(Starting)));
  }

  lemma PutWaits(isCopy: bool)
    ensures Reached(Two(isCopy), Asked(Held(0, 0, [], []), {0}, One(Waiting)))
  {
    hide Reached, ConfigOk, DoWork, DoRecv, DoFinalize, DoRevoke, FillGetters, Dispatch, Working, RuleEnabled, Send,
      DoSelect;
    OnlyOutOfScope(isCopy);
    PutBegun(isCopy);
    Next(Two(isCopy), Asked(Free, {}, One(Starting)), EnterPut(0), Asked(Held(0, 0, [], []), {0}, One(Waiting)));
  }

  /** A ready port is missing, so the lock is released. */
  lemma Released(isCopy: bool, l: Loc, ready: set<Loc>, calls: map<Loc, Call>)
    requires Reached(Two(isCopy), Asked(Held(l, 0, [], []), ready, calls)) && 2 !in ready
    ensures Reached(Two(isCopy), Asked(Free, ready, calls))
  {
    hide Reached, ConfigOk, DoWork, DoRecv, DoFinalize, DoRevoke, FillGetters, Dispatch, Working, Send, DoSelect;
    OnlyOutOfScope(isCopy);
    assert 2 in Both().guardReady;
    Next(Two(isCopy), Asked(Held(l, 0, [], []), ready, calls), Release, Asked(Free, ready, calls));
  }

  lemma GetEnters(isCopy: bool, g: Loc, ready: set<Loc>, calls: map<Loc, Call>)
    requires Reached(Two(isCopy), Asked(Free, ready, calls)) && (g == 1 || g == 2) && g !in calls
    ensures Reached(Two(isCopy), Asked(Held(g, 0, [], []), ready + {g}, calls[g := Taker()]))
  {
    hide Reached, ConfigOk, DoWork, DoRecv, DoFinalize, DoRevoke, FillGetters, Dispatch, Working, RuleEnabled, Send,
      DoSelect;
    OnlyOutOfScope(isCopy);
    Next(Two(isCopy), Asked(Free, ready, calls), EnterGet(g, true, false),
      Asked(Held(g, 0, [], []), ready + {g}, calls[g := Taker()]));
  }

  lemma BothWait(isCopy: bool)
    ensures Reached(Two(isCopy), Asked(Held(2, 0, [], []), {0, 1, 2}, One(Waiting)[1 := Taker()][2 := Taker()]))
  {
    hide Reached, Two, Asked, Taker;
    var calls := One(Waiting)[1 := Taker()];
    PutWaits(isCopy);
    Released(isCopy, 0, {0}, One(Waiting));
    GetEnters(isCopy, 1, {0}, One(Waiting));
    assert {0} + {1} == {0, 1} && {0, 1} + {2} == {0, 1, 2};
    Released(isCopy, 1, {0, 1}, calls);
    GetEnters(isCopy, 2, {0, 1}, calls);
  }

  function Selected(): State { Asked(Held(2, 0, [], [Act()]), {}, One(Waiting)[1 := Taker()][2 := Taker()]) }

  lemma SelectedReached(isCopy: bool)
    ensures Reached(Two(isCopy), Selected())
  {
    hide Reached, ConfigOk, DoWork, DoRecv, DoFinalize, DoRevoke, FillGetters, Dispatch, Working, Send;
    OnlyOutOfScope(isCopy);
    BothWait(isCopy);
    Next(Two(isCopy), Asked(Held(2, 0, [], []), {0, 1, 2}, One(Waiting)[1 := Taker()][2 := Taker()]), Select(0),
      Selected());
  }

  /** but two ordinary gets and a put bring it out of scope. */
  lemma SelectedOut(isCopy: bool)
    ensures !InScope(Two(isCopy), Selected(), Act()) && Wants(Selected(), 1) && Wants(Selected(), 2)
  {
    assert 1 in Act().pg && 2 in Act().pg;
  }

  lemma BothSelected(isCopy: bool)
    ensures Reached(Two(isCopy), Selected()) && CanRelease(Two(isCopy), Selected())
  {
    hide Reached, ConfigOk, PortRules, CanRelease, Inv;
    OnlyOutOfScope(isCopy);
    SelectedReached(isCopy);
    ReachedInv(Two(isCopy), Selected());
    LockActions(Two(isCopy), Selected());
    PortRulesRelease(Two(isCopy), Selected());
  }

  lemma ReachedInv(c: Config, s: State)
    requires Reached(c, s)
    ensures Leads(c, Init(c), s) && Inv(c, s)
  {
  }

  /** If the data is `Copy`, a run dereferences null. */
  lemma TwoTakersFault()
    ensures CanFault(Two(true), Init(Two(true)))
  {
    hide Leads, Inv, ConfigOk, CanRelease, CanFault;
    OnlyOutOfScope(true);
    BothSelected(true);
    SelectedOut(true);
    ReachedInv(Two(true), Selected());
    TwoTakersCanFault(Two(true), Selected(), 1, 2);
    LeadsFault(Two(true), Init(Two(true)), Selected());
  }

  /** If it is not, a run leaves the first getter without its datum, parked for ever. */
  lemma GetterParkedForever()
    ensures exists s :: Leads(Two(false), Init(Two(false)), s) && EmptyHanded(s, 1)
                        && forall steps | ValidRun(Two(false), s, steps) :: ParkedAt(Run(Two(false), s, steps), 1, 0)
  {
    hide Leads, Inv, ConfigOk, CanRelease, EmptyHanded, Unreleased, ValidRun, Run, Reached;
    var c := Two(false);
    OnlyOutOfScope(false);
    BothSelected(false);
    SelectedOut(false);
    ReachedInv(c, Selected());
    TakerIsStuck(c, Selected(), 1);
    var s :| Leads(c, Selected(), s) && EmptyHanded(s, 1) && ParkedAt(s, 1, 0) && Unreleased(c, s, 0);
    LeadsOn(c, Init(c), Selected(), s);
    forall steps | ValidRun(c, s, steps) ensures ParkedAt(Run(c, s, steps), 1, 0) {
      ParkedForever(c, s, steps, 1, 0);
    }
  }

  // ---------------------------------------------------------------- one getter of a shared slot

  /** The rules `0=>1,2` and `1=>3` for a put port 0, cells 1 and 2 and a get port 3; the data is not `Copy`. */
  function Cells(): Config
  {
    Config(map[0 := PoPu, 1 := Memo, 2 := Memo, 3 := PoGe], [FillBoth(), TakeOne()], false, true)
  }

  function FillBoth(): Rule { Rule({0, 1, 2}, {}, {1, 2}, {1, 2}, (bits: set<Loc>) => true, [ToCells()]) }

  function TakeOne(): Rule { Rule({1, 3}, {1}, {}, {1}, (bits: set<Loc>) => true, [ToPort()]) }

  function ToCells(): Action { Action(0, [1, 2], []) }

  function ToPort(): Action { Action(1, [], [3]) }

  lemma FillBothOk()
    ensures RuleOk(Cells(), FillBoth())
  {
    var c := Cells();
    assert [ToCells()][1..] == [];
    assert Locs([ToCells()]) == {0, 1, 2} && Putters([ToCells()]) == {0} && Getters([ToCells()]) == {1, 2};
    assert Memos(c, {0}) == {} && Memos(c, {1, 2}) == {1, 2} && Memos(c, {0, 1, 2}) == {1, 2};
  }

  lemma TakeOneOk()
    ensures RuleOk(Cells(), TakeOne())
  {
    var c := Cells();
    assert [ToPort()][1..] == [];
    assert Locs([ToPort()]) == {1, 3} && Putters([ToPort()]) == {1} && Getters([ToPort()]) == {3};
    assert Memos(c, {1}) == {1} && Memos(c, {3}) == {} && Memos(c, {1, 3}) == {1};
  }

  lemma CellsOk()
    ensures ConfigOk(Cells()) && PortRules(Cells())
  {
    hide RuleOk;
    FillBothOk();
    TakeOneOk();
    assert 0 in FillBoth().guardReady && 3 in TakeOne().guardReady && !IsMemo(Cells(), 0) && !IsMemo(Cells(), 3);
  }

  /** Before the put's rule has been performed. */
  function Putting(lock: Lock, ready: set<Loc>, mem: set<Loc>, ph: Phase): State {
    State(lock, ready, mem, map[], map[], map[0 := Stack], map[], map[], map[], map[], One(ph), false)
  }

  /** The put's rule has filled both cells; its message is in the dropbox. */
  function Holding(lock: Lock, ready: set<Loc>, mem: set<Loc>, calls: map<Loc, Call>): State {
    State(lock, ready, mem, map[9 := 2], map[9 := 7], map[0 := Stack, 1 := Slot(9), 2 := Slot(9)], map[], map[], map[],
          map[0 := 1], calls, false)
  }

  lemma CellsPut()
    ensures Reached(Cells(), Putting(Free, {1, 2}, {}, Starting))
  {
    hide Reached, ConfigOk, DoWork, DoRecv, DoFinalize, DoRevoke, FillGetters, Dispatch, Working, RuleEnabled, Send,
      DoSelect;
    CellsOk();
    Start(Cells());
    assert Init(Cells()).ready == {1, 2};
    Next(Cells(), Init(Cells()), BeginPut(0, 7, false), Putting(Free, {1, 2}, {}, Starting));
  }

  lemma CellsEntered()
    ensures Reached(Cells(), Putting(Held(0, 0, [], []), {0, 1, 2}, {}, Waiting))
  {
    hide Reached, ConfigOk, DoWork, DoRecv, DoFinalize, DoRevoke, FillGetters, Dispatch, Working, RuleEnabled, Send,
      DoSelect;
    CellsOk();
    CellsPut();
    Next(Cells(), Putting(Free, {1, 2}, {}, Starting), EnterPut(0),
      Putting(Held(0, 0, [], []), {0, 1, 2}, {}, Waiting));
  }

  lemma CellsSelected()
    ensures Reached(Cells(), Putting(Held(0, 0, [], [ToCells()]), {}, {1, 2}, Waiting))
  {
    hide Reached, ConfigOk, DoWork, DoRecv, DoFinalize, DoRevoke, FillGetters, Dispatch, Working, Send;
    CellsOk();
    CellsEntered();
    Next(Cells(), Putting(Held(0, 0, [], []), {0, 1, 2}, {}, Waiting), Select(0),
      Putting(Held(0, 0, [], [ToCells()]), {}, {1, 2}, Waiting));
  }

  lemma BothFilled(s: State)
    requires s == Putting(Held(0, 0, [], [ToCells()]), {}, {1, 2}, Waiting)
    ensures var s1 := FillGetters(Cells(), s, ToCells(), 9);
            s1 == s.(refs := map[9 := 2], store := map[9 := 7], ptr := map[0 := Stack, 1 := Slot(9), 2 := Slot(9)],
              ready := {1, 2})
  {
    assert SetOf(ToCells().mg) == {1, 2};
    var s1 := FillGetters(Cells(), s, ToCells(), 9);
    assert s1.ptr == map[0 := Stack, 1 := Slot(9), 2 := Slot(9)];
  }

  lemma CellsFilled()
    ensures Reached(Cells(), Holding(Held(0, 0, [], []), {1, 2}, {1, 2}, One(Waiting)))
  {
    hide Reached, ConfigOk, DoWork, DoRecv, DoFinalize, DoRevoke, FillGetters, Working, RuleEnabled, DoSelect;
    var s := Putting(Held(0, 0, [], [ToCells()]), {}, {1, 2}, Waiting);
    CellsOk();
    CellsSelected();
    BothFilled(s);
    assert [ToCells()][1..] == [];
    Next(Cells(), s, Perform(9), Holding(Held(0, 0, [], []), {1, 2}, {1, 2}, One(Waiting)));
  }

  lemma CellsFree()
    ensures Reached(Cells(), Holding(Free, {1, 2}, {1, 2}, One(Waiting)))
  {
    hide Reached, ConfigOk, DoWork, DoRecv, DoFinalize, DoRevoke, FillGetters, Dispatch, Working, Send, DoSelect;
    CellsOk();
    CellsFilled();
    assert 0 in FillBoth().guardReady && 3 in TakeOne().guardReady;
    Next(Cells(), Holding(Held(0, 0, [], []), {1, 2}, {1, 2}, One(Waiting)), Release,
      Holding(Free, {1, 2}, {1, 2}, One(Waiting)));
  }

  function Both13(): map<Loc, Call> { One(Waiting)[3 := Taker()] }

  lemma PortEntered()
    ensures Reached(Cells(), Holding(Held(3, 0, [], []), {1, 2, 3}, {1, 2}, Both13()))
  {
    hide Reached, ConfigOk, DoWork, DoRecv, DoFinalize, DoRevoke, FillGetters, Dispatch, Working, RuleEnabled, Send,
      DoSelect;
    CellsOk();
    CellsFree();
    Next(Cells(), Holding(Free, {1, 2}, {1, 2}, One(Waiting)), EnterGet(3, true, false),
      Holding(Held(3, 0, [], []), {1, 2, 3}, {1, 2}, Both13()));
  }

  function Taking(): State { Holding(Held(3, 0, [], [ToPort()]), {2}, {2}, Both13()) }

  lemma PortSelected()
    ensures Reached(Cells(), Taking())
  {
    hide Reached, ConfigOk, DoWork, DoRecv, DoFinalize, DoRevoke, FillGetters, Dispatch, Working, Send;
    CellsOk();
    PortEntered();
    assert 0 in FillBoth().guardReady;
    Next(Cells(), Holding(Held(3, 0, [], []), {1, 2, 3}, {1, 2}, Both13()), Select(1), Taking());
  }

  /** The get has been fired, its message still to be sent or in its dropbox. */
  function Given(lock: Lock, box: map<Loc, int>): State {
    Taking().(lock := lock, count := map[1 := 1], flags := map[1 := Flags(false, false)], box := box)
  }

  lemma TakingPerforms()
    ensures Enabled(Cells(), Taking(), Perform(10))
    ensures Do(Cells(), Taking(), Perform(10)) == Given(Held(3, 1, [3], []), map[0 := 1])
  {
    hide FillGetters, MakeEmpty;
    var s := Taking();
    NothingToFill(s);
    assert [ToPort()][1..] == [];
  }

  lemma NothingToFill(s: State)
    requires s == Taking()
    ensures FillGetters(Cells(), s, ToPort(), 10) == s
  {
    hide Fill, Deref;
    FillNone(s, 9);
    assert s.refs[9 := s.refs[9] + 0] == s.refs;
  }

  lemma FillNone(s: State, x: Ptr)
    ensures Fill(s, [], x) == s
  {
    assert s.ptr + (map k | k in [] :: Slot(x)) == s.ptr;
  }

  lemma GivenSends()
    ensures var s := Given(Held(3, 1, [3], []), map[0 := 1]);
            Enabled(Cells(), s, SendNext) && Do(Cells(), s, SendNext) == Given(Held(3, 1, [], []), map[0 := 1, 3 := 1])
  {
    assert [3][1..] == [];
  }

  lemma GivenReleases()
    ensures var s := Given(Held(3, 1, [], []), map[0 := 1, 3 := 1]);
            Enabled(Cells(), s, Release) && Do(Cells(), s, Release) == Given(Free, map[0 := 1, 3 := 1])
  {
    assert 0 in FillBoth().guardReady && 3 in TakeOne().guardReady;
  }

  lemma TakingReleases()
    ensures Releases(Cells(), Taking(), [Perform(10), SendNext], Given(Held(3, 1, [], []), map[0 := 1, 3 := 1]))
  {
    hide Enabled, Do, Cells, Reaches;
    TakingPerforms();
    GivenSends();
    GivenReleases();
    var s1 := Given(Held(3, 1, [3], []), map[0 := 1]);
    FiringStep(Cells(), Taking(), Perform(10));
    FiringStep(Cells(), s1, SendNext);
    ReachesOn(Cells(), Taking(), [Perform(10)], s1, [SendNext], Given(Held(3, 1, [], []), map[0 := 1, 3 := 1]));
    assert [Perform(10)] + [SendNext] == [Perform(10), SendNext];
  }

  lemma TakingOut()
    ensures !MovesAllowed(Cells(), Taking(), ToPort()) && !InScope(Cells(), Taking(), ToPort())
  {
  }

  lemma LedSane(c: Config, s: State)
    requires ConfigOk(c) && Leads(c, Init(c), s)
    ensures Sane(c, s)
  {
    hide Sane, ConfigOk, ValidRun, Run, Init;
    var steps :| ValidRun(c, Init(c), steps) && Run(c, Init(c), steps) == s;
    InitSane(c);
    RunSane(c, Init(c), steps);
  }

  lemma CellsClone()
    ensures Cells().isClone && !Cells().isCopy
  {
  }

  /** Some run of these rules leaves cell 1 unready for ever, though it has returned its datum: no rule fills or drains
      it again. */
  lemma CellLostForever()
    ensures exists s :: Leads(Cells(), Init(Cells()), s)
                        && forall steps | ValidRun(Cells(), s, steps) :: 1 !in Run(Cells(), s, steps).ready
  {
    hide Leads, Inv, ConfigOk, Cells, Releases, ValidRun, Run, Reached, Sane, Abandoned, Settled, Init, MovesAllowed;
    var c, t := Cells(), Given(Free, map[0 := 1, 3 := 1]);
    CellsClone();
    CellsOk();
    PortSelected();
    ReachedInv(c, Taking());
    TakingReleases();
    GivenReleases();
    SettlesBy(c, Taking(), [Perform(10), SendNext], Given(Held(3, 1, [], []), map[0 := 1, 3 := 1]));
    TakingOut();
    CellIsForsaken(c, Taking(), t);
    SettledLeads(c, Taking(), t);
    var s :| Leads(c, t, s) && Abandoned(c, s, 1);
    LeadsOn(c, Init(c), Taking(), t);
    LeadsOn(c, Init(c), t, s);
    LedSane(c, s);
    forall steps | ValidRun(c, s, steps) ensures 1 !in Run(c, s, steps).ready {
      AbandonedForever(c, s, steps, 1);
    }
  }

  // ---------------------------------------------------------------- a datum that cannot be cloned

  /** The rule `0=>1,2` for a put port 0, a cell 1 and a get port 2; the data is neither `Copy` nor `Clone`. */
  function Mixed(): Config { Config(map[0 := PoPu, 1 := Memo, 2 := PoGe], [Both1()], false, false) }

  function Both1(): Rule { Rule({0, 1, 2}, {}, {1}, {1}, (bits: set<Loc>) => true, [ToBoth()]) }

  function ToBoth(): Action { Action(0, [1], [2]) }

  /** The rule is sound in every respect. */
  lemma MixedOk()
    ensures ConfigOk(Mixed()) && RuleOk(Mixed(), Both1()) && PortRules(Mixed())
  {
    assert [ToBoth()][1..] == [];
    assert Locs([ToBoth()]) == {0, 1, 2} && Putters([ToBoth()]) == {0} && Getters([ToBoth()]) == {1, 2};
    assert Memos(Mixed(), {0}) == {} && Memos(Mixed(), {1, 2}) == {1} && Memos(Mixed(), {0, 1, 2}) == {1};
    assert RuleOk(Mixed(), Both1());
    assert 0 in Both1().guardReady && !IsMemo(Mixed(), 0);
  }

  function Fresh(lock: Lock, ready: set<Loc>, mem: set<Loc>, calls: map<Loc, Call>): State {
    Asked(lock, ready, calls).(mem := mem)
  }

  lemma MixedBegun()
    ensures Reached(Mixed(), Fresh(Free, {1}, {}, One(Starting)))
  {
    hide Reached, ConfigOk, DoWork, DoRecv, DoFinalize, DoRevoke, FillGetters, Dispatch, Working, RuleEnabled, Send,
      DoSelect;
    MixedOk();
    Start(Mixed());
    assert Init(Mixed()).ready == {1};
    Next(Mixed(), Init(Mixed()), BeginPut(0, 7, false), Fresh(Free, {1}, {}, One(Starting)));
  }

  lemma MixedEntered()
    ensures Reached(Mixed(), Fresh(Held(0, 0, [], []), {0, 1}, {}, One(Waiting)))
  {
    hide Reached, ConfigOk, DoWork, DoRecv, DoFinalize, DoRevoke, FillGetters, Dispatch, Working, RuleEnabled, Send,
      DoSelect;
    MixedOk();
    MixedBegun();
    Next(Mixed(), Fresh(Free, {1}, {}, One(Starting)), EnterPut(0),
      Fresh(Held(0, 0, [], []), {0, 1}, {}, One(Waiting)));
  }

  lemma MixedReleased()
    ensures Reached(Mixed(), Fresh(Free, {0, 1}, {}, One(Waiting)))
  {
    hide Reached, ConfigOk, DoWork, DoRecv, DoFinalize, DoRevoke, FillGetters, Dispatch, Working, Send, DoSelect;
    MixedOk();
    MixedEntered();
    assert 2 in Both1().guardReady;
    Next(Mixed(), Fresh(Held(0, 0, [], []), {0, 1}, {}, One(Waiting)), Release,
      Fresh(Free, {0, 1}, {}, One(Waiting)));
  }

  lemma MixedAsked()
    ensures Reached(Mixed(), Fresh(Held(2, 0, [], []), {0, 1, 2}, {}, One(Waiting)[2 := Taker()]))
  {
    hide Reached, ConfigOk, DoWork, DoRecv, DoFinalize, DoRevoke, FillGetters, Dispatch, Working, RuleEnabled, Send,
      DoSelect;
    MixedOk();
    MixedReleased();
    Next(Mixed(), Fresh(Free, {0, 1}, {}, One(Waiting)), EnterGet(2, true, false),
      Fresh(Held(2, 0, [], []), {0, 1, 2}, {}, One(Waiting)[2 := Taker()]));
  }

  function MixedSelected(): State { Fresh(Held(2, 0, [], [ToBoth()]), {}, {1}, One(Waiting)[2 := Taker()]) }

  lemma MixedFires()
    ensures Reached(Mixed(), MixedSelected())
  {
    hide Reached, ConfigOk, DoWork, DoRecv, DoFinalize, DoRevoke, FillGetters, Dispatch, Working, Send;
    MixedOk();
    MixedAsked();
    Next(Mixed(), Fresh(Held(2, 0, [], []), {0, 1, 2}, {}, One(Waiting)[2 := Taker()]), Select(0), MixedSelected());
  }

  /** One put and one get make the protocol clone what cannot be cloned, inside the critical section. */
  lemma UnclonableFault()
    ensures CanFault(Mixed(), Init(Mixed()))
  {
    hide Leads, Inv, ConfigOk, CanFault, GoesWrong, Reached;
    MixedFires();
    ReachedInv(Mixed(), MixedSelected());
    UnclonableWrong(Mixed(), MixedSelected());
    LeadsFault(Mixed(), Init(Mixed()), MixedSelected());
  }

  // ---------------------------------------------------------------- rules between cells alone

  /** Rules `0=>1`, `1=>2` and `2=>1` for a port 0 and two cells. */
  function Loop(): Config {
    Config(map[0 := PoPu, 1 := Memo, 2 := Memo],
           [Rule({0, 1}, {}, {1}, {1}, (bits: set<Loc>) => true, [Action(0, [1], [])]), Shift(1, 2), Shift(2, 1)],
             true, true)
  }

  function Shift(m: Loc, n: Loc): Rule
  {
    Rule({m, n}, {m}, {n}, {m, n}, (bits: set<Loc>) => true, [Action(m, [n], [])])
  }

  /** The value put is in cell `m`, the putter has its message, and the lock is still held. */
  function Full(m: Loc, src: Loc, rest: seq<Action>): State {
    State(Held(0, src, [], rest), if rest == [] then {1, 2} else {}, if rest == [] then {m}
      else {3 - m}, map[0 := 1], map[0 := 7],
          map[0 := Stack, m := Slot(0)], map[], map[], map[], map[0 := 1], map[0 := Put(7, false, Waiting)], false)
  }

  lemma ShiftSelect(m: Loc, src: Loc)
    requires m == 1 || m == 2
    ensures var s, act := Full(m, src, []), Action(m, [3 - m], []);
            Enabled(Loop(), s, Select(m)) && Do(Loop(), s, Select(m)) == Full(m, src, [act])
  {
  }

  /** The other cell shares the slot, */
  lemma ShiftFills(m: Loc, s: State)
    requires (m == 1 || m == 2) && s.ptr == map[0 := Stack, m := Slot(0)] && s.refs == map[0 := 1] && s.ready == {}
    ensures FillGetters(Loop(), s, Action(m, [3 - m], []), 1)
            == s.(ptr := map[0 := Stack, m := Slot(0), 3 - m := Slot(0)], refs := map[0 := 2], ready := {3 - m})
  {
    hide Fill, Deref;
    FillOne(s, 3 - m, 0);
  }

  lemma FillOne(s: State, m: Loc, x: Ptr)
    requires m !in s.ptr
    ensures Fill(s, [m], x) == s.(ptr := s.ptr[m := Slot(x)], ready := s.ready + {m})
  {
    assert SetOf([m]) == {m};
    assert s.ptr + (map k | k in [m] :: Slot(x)) == s.ptr[m := Slot(x)];
  }

  /** and then holds it alone. */
  lemma ShiftEmpties(m: Loc, s: State)
    requires (m == 1 || m == 2) && s.ptr == map[0 := Stack, m := Slot(0), 3 - m := Slot(0)] && s.refs == map[0 := 2]
    requires s.ready == {3 - m}
    ensures MakeEmpty(s, m) == s.(ptr := map[0 := Stack, 3 - m := Slot(0)], refs := map[0 := 1], ready := {1, 2})
  {
    assert MakeEmpty(s, m).ptr == map[0 := Stack, 3 - m := Slot(0)];
  }

  lemma ShiftPerform(m: Loc, src: Loc)
    requires m == 1 || m == 2
    ensures var s := Full(m, src, [Action(m, [3 - m], [])]);
            Enabled(Loop(), s, Perform(1)) && Do(Loop(), s, Perform(1)) == Full(3 - m, m, [])
  {
    hide FillGetters, MakeEmpty, DoWork, DoRecv, DoFinalize, DoRevoke, Working, RuleEnabled, DoSelect, Send;
    var act := Action(m, [3 - m], []);
    var s := Full(m, src, [act]);
    ShiftFills(m, s);
    ShiftEmpties(m, FillGetters(Loop(), s, act, 1));
    assert [act][1..] == [];
  }

  /** Such rules fire for ever: the holder of the lock can go on for any number of firings. */
  lemma {:induction false} CellsFireForever(n: nat, m: Loc, src: Loc) returns (steps: seq<Step>)
    requires m == 1 || m == 2
    ensures ValidRun(Loop(), Full(m, src, []), steps) && AllFiring(steps) && Selections(steps) == n
    decreases n
  {
    hide Enabled, Do, Loop;
    if n == 0 {
      steps := [];
    } else {
      ShiftSelect(m, src);
      ShiftPerform(m, src);
      var more := CellsFireForever(n - 1, 3 - m, m);
      var tail := [Perform(1)] + more;
      assert tail[0] == Perform(1) && tail[1..] == more;
      steps := [Select(m)] + tail;
      assert steps[0] == Select(m) && steps[1..] == tail;
    }
  }

  function Put7(lock: Lock, ready: set<Loc>, mem: set<Loc>, ph: Phase): State {
    State(lock, ready, mem, map[], map[], map[0 := Stack], map[], map[], map[], map[], map[0 := Put(7, false, ph)],
      false)
  }

  lemma PutBegins()
    ensures var s := Init(Loop());
            Enabled(Loop(), s, BeginPut(0, 7, false))
              && Do(Loop(), s, BeginPut(0, 7, false)) == Put7(Free, {1, 2}, {}, Starting)
  {
    assert Init(Loop()).ready == {1, 2};
  }

  lemma PutEnters()
    ensures var s := Put7(Free, {1, 2}, {}, Starting);
            Enabled(Loop(), s, EnterPut(0))
              && Do(Loop(), s, EnterPut(0)) == Put7(Held(0, 0, [], []), {0, 1, 2}, {}, Waiting)
  {
  }

  lemma PutSelected()
    ensures var s := Put7(Held(0, 0, [], []), {0, 1, 2}, {}, Waiting);
            Enabled(Loop(), s, Select(0))
              && Do(Loop(), s, Select(0)) == Put7(Held(0, 0, [], [Action(0, [1], [])]), {2}, {1}, Waiting)
  {
  }

  lemma PutPerformed()
    ensures var s := Put7(Held(0, 0, [], [Action(0, [1], [])]), {2}, {1}, Waiting);
            Enabled(Loop(), s, Perform(0)) && Do(Loop(), s, Perform(0)) == Full(1, 0, [])
  {
    var act := Action(0, [1], []);
    var s := Put7(Held(0, 0, [], [act]), {2}, {1}, Waiting);
    assert SetOf(act.mg) == {1} && [act][1..] == [];
    var s1 := FillGetters(Loop(), s, act, 0);
    assert s1.ptr == map[0 := Stack, 1 := Slot(0)] && s1.refs == map[0 := 1] && s1.store == map[0 := 7]
      && s1.ready == {1, 2};
  }

  /** One put gets there. */
  lemma PutFillsCell()
    ensures Leads(Loop(), Init(Loop()), Full(1, 0, []))
  {
    hide Enabled, Do, Loop, Init, Leads;
    PutBegins();
    PutEnters();
    PutSelected();
    PutPerformed();
    var c, s1, s2 := Loop(), Put7(Free, {1, 2}, {}, Starting), Put7(Held(0, 0, [], []), {0, 1, 2}, {}, Waiting);
    var s3 := Put7(Held(0, 0, [], [Action(0, [1], [])]), {2}, {1}, Waiting);
    LeadsStep(c, Init(c), BeginPut(0, 7, false));
    LeadsStep(c, s1, EnterPut(0));
    LeadsStep(c, s2, Select(0));
    LeadsStep(c, s3, Perform(0));
    LeadsOn(c, Init(c), s1, s2);
    LeadsOn(c, Init(c), s2, s3);
    LeadsOn(c, Init(c), s3, Full(1, 0, []));
  }
}
