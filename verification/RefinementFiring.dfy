/** Firings refine the rule automaton: it moves when the lock holder selects a rule, and the data transfers,
    messages and finalizers that follow carry out what it has decided. */
module RefinementFiring {
  import opened Wrappers
  import opened Protocol
  import opened ProtocolInvariant
  import opened ProtocolFiring
  import opened ProtocolSafety
  import opened StepEffects
  import opened RuleAutomaton
  import opened Refinement

  lemma PortsAmong(s: State, s': State, a: AState, a': AState, ls: set<Loc>)
    requires PortsMatch(s, a)
    requires forall k :: k !in ls ==> (k in s'.ready <==> k in s.ready) && Lookup(s'.box, k) == Lookup(s.box, k)
                                      && Lookup(s'.call, k) == Lookup(s.call, k)
                                      && Lookup(a'.port, k) == Lookup(a.port, k)
    requires forall k <- ls :: PortMatch(k in s'.ready, Lookup(s'.box, k), Lookup(s'.call, k), Lookup(a'.port, k))
    ensures PortsMatch(s', a')
  {
    hide PortMatch, Lookup;
  }

  // ---------------------------------------------------------------- finalizing

  /** The finalizer reports what the automaton has decided. */
  lemma FinalMessage(c: Config, s: State, a: AState, g: Loc)
    requires Inv(c, s) && Sim(c, s, a) && Getting(s, g) && s.call[g].phase.Finalizing? && IsPoPu(c, s.call[g].phase.src)
    ensures var src := s.call[g].phase.src;
            && Engaged(s, g) == Some(src) && src in a.port && a.port[src] == Released(s.call[g].phase.someoneMoved)
  {
    hide Inv, PortsMatch, CellsMatch, PendingMatch, DataMatch;
    FinalizingEngaged(s, g);
    assert MovedMatch(c, s, a, g, Engaged(s, g).value);
  }

  lemma FinalizePortSim(c: Config, s: State, a: AState, g: Loc)
    requires Inv(c, s) && Sim(c, s, a) && Getting(s, g) && s.call[g].phase.Finalizing? && IsPoPu(c, s.call[g].phase.src)
    ensures Sim(c, DoFinalize(c, s, g), a)
  {
    hide Inv, PortsMatch, CellsMatch, PendingMatch, DataMatch, MovesMatch, Deref, Engaged, Locs;
    var src, s' := s.call[g].phase.src, DoFinalize(c, s, g);
    FinalMessage(c, s, a, g);
    FinalizedPorts(c, s, a, g, s');
    FinalizedEngaged(c, s, g, s');
    forall p ensures Deref(s', p) == Deref(s, p) {
      SameDeref(s, s', g, p);
    }
    CellsFrame(c, s, s', a, a);
    PendingFrame(c, s, s', a, a);
    DataFrame(s, s', a, a);
    MovesFrame(c, s, s', a, a);
  }

  lemma SameDeref(s: State, s': State, g: Loc, p: Loc)
    requires Getting(s, g) && s'.call == s.call[g := WithPhase(s.call[g], Served)]
    requires s'.store == s.store && s'.ptr == s.ptr
    ensures Deref(s', p) == Deref(s, p)
  {
  }

  lemma FinalizedShape(c: Config, s: State, g: Loc)
    requires Inv(c, s) && Getting(s, g) && s.call[g].phase.Finalizing? && IsPoPu(c, s.call[g].phase.src)
    ensures var src := s.call[g].phase.src;
            && src in s.call && s.call[src].Put? && BeforeMessage(s.call[src].phase) && src !in s.ready
            && DoFinalize(c, s, g) == s.(box := s.box[src := if s.call[g].phase.someoneMoved then 1 else 0],
                                         call := s.call[g := WithPhase(s.call[g], Served)])
  {
    hide Locations, Counts, Slots, Takers, LockOk, Busy, Deref;
    FinalizingBusy(c, s, g);
    GoodAt(c, s, s.call[g].phase.src);
  }

  lemma FinalizedPorts(c: Config, s: State, a: AState, g: Loc, s': State)
    requires Inv(c, s) && Sim(c, s, a) && Getting(s, g) && s.call[g].phase.Finalizing? && IsPoPu(c, s.call[g].phase.src)
    requires s.call[g].phase.src in a.port && a.port[s.call[g].phase.src] == Released(s.call[g].phase.someoneMoved)
    requires s' == DoFinalize(c, s, g)
    ensures PortsMatch(s', a) && s'.mem == s.mem && s'.lock == s.lock && s'.store == s.store && s'.ptr == s.ptr
    ensures s'.flags == s.flags
    ensures s'.call == s.call[g := WithPhase(s.call[g], Served)]
  {
    hide Inv, Sim, PortsMatch, DoFinalize;
    var src := s.call[g].phase.src;
    FinalizedShape(c, s, g);
    PortMatchAt(c, s, a, g);
    PortMatchAt(c, s, a, src);
    PortsAmong(s, s', a, a, {g, src});
  }

  lemma PortMatchAt(c: Config, s: State, a: AState, l: Loc)
    requires Inv(c, s) && Sim(c, s, a)
    ensures PortMatch(l in s.ready, Lookup(s.box, l), Lookup(s.call, l), Lookup(a.port, l)) && PortsMatch(s, a)
    ensures l in s.ready ==> l !in s.call || BeforeMessage(s.call[l].phase)
  {
    hide Counts, Slots, Takers, LockOk, CellsMatch, PendingMatch, DataMatch, MovesMatch, Busy;
    GoodAt(c, s, l);
  }

  lemma FinalizingBusy(c: Config, s: State, g: Loc)
    requires Inv(c, s) && Getting(s, g) && s.call[g].phase.Finalizing?
    ensures Busy(s, s.call[g].phase.src)
  {
    assert g in Closers(s, s.call[g].phase.src);
  }

  lemma FinalizedEngaged(c: Config, s: State, g: Loc, s': State)
    requires Inv(c, s) && Getting(s, g) && s.call[g].phase.Finalizing?
    requires s'.call == s.call[g := WithPhase(s.call[g], Served)]
    requires s'.lock == s.lock || (Sends(s.lock) == [] && Sends(s'.lock) == [])
    requires forall k :: k != s.call[g].phase.src ==> Lookup(s'.box, k) == Lookup(s.box, k)
    ensures forall k :: k != g ==> Engaged(s', k) == Engaged(s, k)
    ensures Engaged(s', g) == None && !Unmarked(s, g)
    ensures forall k ::
      Wants(s', k) == Wants(s, k) && Hungry(s', k) == Hungry(s, k) && Unmarked(s', k) == Unmarked(s, k)
    ensures forall k :: k in s'.call && s'.call[k].phase.Finalizing? ==>
      k in s.call && s'.call[k].phase == s.call[k].phase
    ensures Busy(s, s.call[g].phase.src) && s.call[g].phase.src !in Putters(Rest(s.lock))
  {
    hide Counts, Slots, Takers, LockOk, Locations, Busy, Out, Closers, Putters, Getters;
    var src := s.call[g].phase.src;
    FinalizingBusy(c, s, g);
    GoodAt(c, s, src);
    MessagePutter(c, s, g);
    PendingPutters(c, s);
    forall k ensures k != g ==> Engaged(s', k) == Engaged(s, k) {
      assert k != src ==> Lookup(s'.box, k) == Lookup(s.box, k);
    }
  }

  lemma FinalizeMemoSim(c: Config, s: State, a: AState, g: Loc)
    requires Inv(c, s) && Sim(c, s, a) && Getting(s, g) && s.call[g].phase.Finalizing? && IsMemo(c, s.call[g].phase.src)
    requires s.lock.Free?
    ensures Sim(c, DoFinalize(c, s, g), a)
  {
    hide Inv, PortsMatch, CellsMatch, PendingMatch, DataMatch, MovesMatch, Deref, Engaged, Putters, Getters;
    var src, s' := s.call[g].phase.src, DoFinalize(c, s, g);
    FinalizedCell(c, s, g, s');
    SimPort(c, s, a, g);
    SimPort(c, s, a, src);
    PortsAmong(s, s', a, a, {g, src});
    FinalizedEngaged(c, s, g, s');
    assert Closing(s, g) == Some(src);
    FinalizingEngaged(s, g);
    LastEngaged(c, s, g, src);
    CellsFrame(c, s, s', a, a);
    PendingFrame(c, s, s', a, a);
    DataFrame(s, s', a, a);
    MovesFrame(c, s, s', a, a);
  }

  lemma FinalizingEngaged(s: State, g: Loc)
    requires Getting(s, g) && s.call[g].phase.Finalizing?
    ensures Engaged(s, g) == Some(s.call[g].phase.src)
  {
  }

  lemma FinalizedCell(c: Config, s: State, g: Loc, s': State)
    requires Inv(c, s) && Getting(s, g) && s.call[g].phase.Finalizing? && IsMemo(c, s.call[g].phase.src) && s.lock.Free?
    requires s' == DoFinalize(c, s, g)
    ensures var src := s.call[g].phase.src;
            && s'.call == s.call[g := WithPhase(s.call[g], Served)] && s'.mem == s.mem && s'.box == s.box
            && s'.flags == s.flags
            && s'.ready == s.ready + {src} && s'.lock == Held(g, 0, [], []) && s'.count == s.count
            && src !in s.mem
            && forall p :: p != src ==> Deref(s', p) == Deref(s, p)
  {
    hide Locations, Counts, Takers, LockOk, MakeEmpty, Busy, Holders;
    var src := s.call[g].phase.src;
    var s1 := SetPhase(s, g, Served);
    FinalizingBusy(c, s, g);
    BusyCell(c, s, src);
    SlotsKept(s, s1);
    MakeEmptySlots(s1, src);
    forall p | p != src ensures Deref(s', p) == Deref(s, p) {
      assert SlotAt(s1, p) == SlotAt(s, p);
    }
  }

  // ---------------------------------------------------------------- selecting a rule

  lemma FeederOf(c: Config, acts: seq<Action>, l: Loc)
    requires ActionsOk(c, acts)
    ensures Feeder(acts, l).Some? <==> l in Locs(acts)
    ensures Feeder(acts, l).Some? ==> Feeder(acts, l).value in acts && l in Touched(Feeder(acts, l).value)
    ensures forall act <- acts :: l in Touched(act) ==> Feeder(acts, l) == Some(act)
    ensures forall act <- acts :: ActionOk(c, act)
  {
    if acts != [] {
      FeederOf(c, acts[1..], l);
      ActionLocs(acts[1..]);
      forall act <- acts ensures l in Touched(act) ==> Feeder(acts, l) == Some(act) {
        assert act == acts[0] || act in acts[1..];
        assert act in acts[1..] && l in Touched(act) ==> l in Locs(acts[1..]);
      }
    }
  }

  ghost predicate Selecting(c: Config, s: State, a: AState, r: Rule) {
    && Inv(c, s) && Sim(c, s, a) && RuleOk(c, r) && RuleEnabled(s, r)
    && s.lock.Held? && s.lock.sends == [] && s.lock.rest == []
  }

  /** Every location of an enabled rule is where the automaton wants it. */
  lemma SelectedWaits(c: Config, s: State, a: AState, r: Rule, l: Loc)
    requires Selecting(c, s, a, r) && l in Locs(r.actions)
    ensures l in s.ready && !Busy(s, l)
    ensures (if l in Putters(r.actions) then IsPutter(c, l) else IsMemo(c, l) || IsPoGe(c, l))
    ensures IsMemo(c, l) ==> (l in a.cell <==> l in Putters(r.actions)) && (l in s.mem <==> l in a.cell) && l !in s.call
    ensures IsMemo(c, l) && l in s.mem ==> Deref(s, l) == Some(a.cell[l])
    ensures !IsMemo(c, l) ==> l in s.call && BeforeMessage(s.call[l].phase) && l !in s.box && AWaiting(c, a, l)
    ensures IsPoPu(c, l) ==>
      s.call[l].Put? && a.port[l] == Offer(s.call[l].datum) && Deref(s, l) == Some(s.call[l].datum)
    ensures IsPoGe(c, l) ==> s.call[l].Get? && a.port[l] == Want(s.call[l].wants) && s.call[l].out.None?
  {
    hide Counts, Takers, LockOk, PendingMatch, DataMatch, MovesMatch, Busy, ActionsOk, Putters, Getters;
    ActionKinds(c, r.actions);
    PortMatchAt(c, s, a, l);
    GoodAt(c, s, l);
  }

  lemma SelectEnabled(c: Config, s: State, a: AState, r: Rule)
    requires Selecting(c, s, a, r)
    ensures AEnabled(c, a, r)
  {
    forall l <- Locs(r.actions)
      ensures if IsMemo(c, l) then l in a.cell <==> l in Putters(r.actions) else AWaiting(c, a, l)
    {
      SelectedWaits(c, s, a, r, l);
    }
    hide Inv, PortsMatch, PendingMatch, DataMatch, MovesMatch, ActionsOk, Putters, Getters, AWaiting;
    ActionKinds(c, r.actions);
  }

  lemma SelectPort(c: Config, s: State, a: AState, r: Rule, l: Loc)
    requires Selecting(c, s, a, r) && l in Locs(r.actions)
    ensures var s' := DoSelect(s, r); var a' := AFire(c, a, r);
            PortMatch(l in s'.ready, Lookup(s'.box, l), Lookup(s'.call, l), Lookup(a'.port, l))
  {
    hide Inv, Sim, ActionsOk, Putters, Getters, AFire, Busy, RuleEnabled;
    SelectedWaits(c, s, a, r, l);
    FeederOf(c, r.actions, l);
    FirePort(c, a, r, l);
    if l !in Putters(r.actions) {
      NotPutter(c, r.actions, l);
    } else {
      PutterIs(c, r.actions, l);
    }
    PortMatchAt(c, s, a, l);
  }

  lemma FirePort(c: Config, a: AState, r: Rule, l: Loc)
    ensures Lookup(AFire(c, a, r).port, l) == if l in a.port then Some(FiredPort(c, a, r.actions, l)) else None
  {
  }

  lemma NotPutter(c: Config, acts: seq<Action>, l: Loc)
    requires l !in Putters(acts)
    ensures forall act <- acts :: act.putter != l
  {
    ActionLocs(acts);
  }

  lemma PutterIs(c: Config, acts: seq<Action>, l: Loc)
    requires ActionsOk(c, acts) && l in Putters(acts)
    ensures Feeder(acts, l).Some? && Feeder(acts, l).value.putter == l
  {
    if l != acts[0].putter {
      PutterIs(c, acts[1..], l);
    }
  }

  lemma SelectPorts(c: Config, s: State, a: AState, r: Rule)
    requires Selecting(c, s, a, r)
    ensures PortsMatch(DoSelect(s, r), AFire(c, a, r))
    ensures forall l :: l !in Locs(r.actions) ==> Lookup(AFire(c, a, r).port, l) == Lookup(a.port, l)
  {
    var s', a' := DoSelect(s, r), AFire(c, a, r);
    forall l ensures l !in Locs(r.actions) ==> Lookup(a'.port, l) == Lookup(a.port, l) {
      FirePort(c, a, r, l);
      FeederOf(c, r.actions, l);
    }
    forall l <- Locs(r.actions)
      ensures PortMatch(l in s'.ready, Lookup(s'.box, l), Lookup(s'.call, l), Lookup(a'.port, l))
    {
      SelectPort(c, s, a, r, l);
    }
    hide Inv, CellsMatch, PendingMatch, DataMatch, MovesMatch, ActionsOk, Putters, Getters, AFire, PortMatch,
      RuleEnabled, PortsMatch;
    PortsAmong(s, s', a, a', Locs(r.actions));
  }

  lemma SelectCells(c: Config, s: State, a: AState, r: Rule)
    requires Selecting(c, s, a, r)
    ensures CellsMatch(c, DoSelect(s, r), AFire(c, a, r))
  {
    hide Inv, PortsMatch, PendingMatch, DataMatch, MovesMatch, ActionsOk, Putters, Getters, RuleEnabled, Deref,
      FiredCell, FiredPort;
    var s', a' := DoSelect(s, r), AFire(c, a, r);
    ActionKinds(c, r.actions);
    assert a'.cell.Keys == s'.mem;
    forall m | m in s'.mem && Deref(s', m).Some? && IsMemo(c, m) ensures a'.cell[m] == Deref(s', m).value {
      SelectedDeref(s, r, m);
      if m in Getters(r.actions) {
        EmptyGetter(c, s, a, r, m);
      } else {
        UnfiredCell(c, a, r, m);
      }
    }
  }

  lemma SelectedDeref(s: State, r: Rule, p: Loc)
    requires s.lock.Held?
    ensures Deref(DoSelect(s, r), p) == Deref(s, p)
  {
  }

  lemma EmptyGetter(c: Config, s: State, a: AState, r: Rule, m: Loc)
    requires Selecting(c, s, a, r) && m in Getters(r.actions) && IsMemo(c, m)
    ensures Deref(s, m) == None
  {
    hide Counts, Takers, LockOk, Sim, Busy, Putters, Getters, ActionsOk;
    ActionKinds(c, r.actions);
    GoodAt(c, s, m);
  }

  lemma UnfiredCell(c: Config, a: AState, r: Rule, m: Loc)
    requires ActionsOk(c, r.actions) && m !in Getters(r.actions) && m in a.cell
    ensures FiredCell(c, a, r.actions, m) == a.cell[m]
  {
  }

  lemma SelectPend(c: Config, s: State, a: AState, r: Rule, act: Action)
    requires Selecting(c, s, a, r) && act in r.actions
    ensures PendMatch(c, DoSelect(s, r), AFire(c, a, r), act)
  {
    hide Inv, Sim, Putters, Getters, AFire, Busy, RuleEnabled, Deref, ActionsOk, PortMatch;
    var s', a' := DoSelect(s, r), AFire(c, a, r);
    ActionLocs(r.actions);
    FeederOf(c, r.actions, act.putter);
    SelectedDeref(s, r, act.putter);
    SelectedWaits(c, s, a, r, act.putter);
    ActionKinds(c, r.actions);
    assert Deref(s', act.putter) == Some(SourceValue(c, a, act.putter));
    forall g <- act.pg
      ensures Wants(s', g) == Taking(a, g) && g in a'.port
      ensures a'.port[g] == Given(if Wants(s', g) then Deref(s', act.putter) else None)
    {
      SelectPendGetter(c, s, a, r, act, g);
    }
    forall m <- act.mg ensures m in a'.cell && a'.cell[m] == SourceValue(c, a, act.putter) {
      SelectPendCell(c, a, r, act, m);
    }
    FirePort(c, a, r, act.putter);
    assert WillMove(s', act) == MovedBy(a, act);
  }

  lemma SelectPendGetter(c: Config, s: State, a: AState, r: Rule, act: Action, g: Loc)
    requires Selecting(c, s, a, r) && act in r.actions && g in act.pg
    ensures var a' := AFire(c, a, r);
            && Wants(DoSelect(s, r), g) == Taking(a, g)
            && g in a'.port && a'.port[g] == Given(if Taking(a, g) then Some(SourceValue(c, a, act.putter)) else None)
  {
    hide Inv, Sim, Putters, Getters, AFire, Busy, RuleEnabled, Deref, ActionsOk, PortMatch;
    ActionLocs(r.actions);
    ActionKinds(c, r.actions);
    FeederOf(c, r.actions, g);
    assert g in Touched(act);
    SelectedWaits(c, s, a, r, g);
    FirePort(c, a, r, g);
  }

  lemma SelectPendCell(c: Config, a: AState, r: Rule, act: Action, m: Loc)
    requires ActionsOk(c, r.actions) && act in r.actions && m in act.mg
    ensures m in AFire(c, a, r).cell && AFire(c, a, r).cell[m] == SourceValue(c, a, act.putter)
  {
    hide ActionsOk, SourceValue, FiredPort;
    ActionLocs(r.actions);
    FeederOf(c, r.actions, m);
    assert m in Touched(act);
  }

  lemma SelectSim(c: Config, s: State, a: AState, r: Rule)
    requires Selecting(c, s, a, r)
    ensures AEnabled(c, a, r) && Sim(c, DoSelect(s, r), AFire(c, a, r))
  {
    hide Inv, PortsMatch, CellsMatch, DataMatch, MovesMatch, PendMatch, AFire, AEnabled, RuleEnabled, Busy, Putters,
      Getters, Deref, Locs, Engaged, RuleOk;
    var s', a' := DoSelect(s, r), AFire(c, a, r);
    SelectEnabled(c, s, a, r);
    SelectPorts(c, s, a, r);
    SelectCells(c, s, a, r);
    forall act <- r.actions ensures PendMatch(c, s', a', act) {
      SelectPend(c, s, a, r, act);
    }
    SelectEngaged(c, s, a, r);
    SelectSame(s, r);
    DataFrame(s, s', a, a');
    MovesFrame(c, s, s', a, a');
  }

  /** Whoever is engaged, and his putter, take no part in the firing. */
  lemma SelectEngaged(c: Config, s: State, a: AState, r: Rule)
    requires Selecting(c, s, a, r)
    ensures forall g :: Engaged(s, g).Some? ==> g !in Locs(r.actions) && Engaged(s, g).value !in Locs(r.actions)
  {
    hide Inv, Sim, AFire, RuleEnabled, Busy, Putters, Getters, Locs, PortMatch, Engaged;
    EngagedBusy(s);
    forall g | Engaged(s, g).Some? ensures g !in Locs(r.actions) && Engaged(s, g).value !in Locs(r.actions) {
      if g in Locs(r.actions) {
        SelectedIdle(c, s, a, r, g);
      }
      if Engaged(s, g).value in Locs(r.actions) {
        SelectedWaits(c, s, a, r, Engaged(s, g).value);
      }
    }
  }

  lemma SelectedIdle(c: Config, s: State, a: AState, r: Rule, g: Loc)
    requires Selecting(c, s, a, r) && g in Locs(r.actions)
    ensures Engaged(s, g) == None
  {
    hide Inv, Sim, AFire, RuleEnabled, Busy, Putters, Getters, Locs, PortMatch;
    SelectedWaits(c, s, a, r, g);
  }

  /** Selecting a rule moves nobody and nothing. */
  lemma SelectSame(s: State, r: Rule)
    requires s.lock.Held? && s.lock.sends == []
    ensures var s' := DoSelect(s, r); forall g :: Engaged(s', g) == Engaged(s, g) && Unmarked(s', g) == Unmarked(s, g)
    ensures var s' := DoSelect(s, r); forall g :: Wants(s', g) == Wants(s, g) && Hungry(s', g) == Hungry(s, g)
    ensures var s' := DoSelect(s, r); forall p :: Deref(s', p) == Deref(s, p) && FlagsMoved(s', p) == FlagsMoved(s, p)
  {
    hide Deref, FlagsMoved, Engaged, Unmarked, Wants, Hungry, DoSelect;
    SelectFields(s, r);
    var s' := DoSelect(s, r);
    forall l ensures Engaged(s', l) == Engaged(s, l) && Unmarked(s', l) == Unmarked(s, l)
             ensures Wants(s', l) == Wants(s, l) && Hungry(s', l) == Hungry(s, l)
    {
      SameCallers(s, s', l);
    }
    forall l ensures Deref(s', l) == Deref(s, l) && FlagsMoved(s', l) == FlagsMoved(s, l) {
      SameData(s, s', l);
    }
  }

  lemma SelectFields(s: State, r: Rule)
    requires s.lock.Held? && s.lock.sends == []
    ensures var s' := DoSelect(s, r);
            && s'.call == s.call && s'.box == s.box && s'.ptr == s.ptr && s'.store == s.store && s'.flags == s.flags
            && Sends(s'.lock) == [] && Sends(s.lock) == []
  {
  }

  lemma SameCallers(s: State, s': State, l: Loc)
    requires s'.call == s.call && s'.box == s.box && Sends(s'.lock) == [] && Sends(s.lock) == []
    ensures Engaged(s', l) == Engaged(s, l) && Unmarked(s', l) == Unmarked(s, l) && Wants(s', l) == Wants(s, l)
    ensures Hungry(s', l) == Hungry(s, l)
  {
  }

  lemma SameData(s: State, s': State, l: Loc)
    requires s'.call == s.call && s'.ptr == s.ptr && s'.store == s.store && s'.flags == s.flags
    ensures Deref(s', l) == Deref(s, l) && FlagsMoved(s', l) == FlagsMoved(s, l)
  {
  }

  // ---------------------------------------------------------------- performing an action

  ghost predicate AboutToPerform(c: Config, s: State, slot: Ptr) {
    Inv(c, s) && Performing(c, s) && slot !in s.store && Clonable(c, s.lock.rest[0])
  }

  /** What the transfers leave alone. */
  lemma FillEffect(c: Config, s: State, slot: Ptr)
    requires AboutToPerform(c, s, slot)
    ensures var act := s.lock.rest[0]; var s1 := FillGetters(c, s, act, slot);
            && s1 == s.(ptr := s1.ptr, ready := s1.ready, refs := s1.refs, store := s1.store)
            && (forall k :: k in s1.ready <==> k in s.ready || k in act.mg)
            && (forall k :: Deref(s1, k) == if k in act.mg then Deref(s, act.putter) else Deref(s, k))
            && Slots(s1)
            && (IsMemo(c, act.putter) ==>
                  SlotAt(s1, act.putter).Some? && act.putter !in s1.ready && act.putter !in act.mg)
  {
    hide Locations, Counts, Takers, LockOk, ActionsOk, FillGetters, Holders, Busy, Out, Closers;
    var act := s.lock.rest[0];
    FillShape(c, s, slot);
    PerformGood(c, s);
    FillSlotsInv(c, s, slot);
    if IsMemo(c, act.putter) {
      PutterUnready(c, s, slot);
    }
    forall k
      ensures Deref(FillGetters(c, s, act, slot), k) == if k in act.mg then Deref(s, act.putter) else Deref(s, k)
    {
      FillDeref(c, s, slot, k);
    }
  }

  lemma FillDeref(c: Config, s: State, slot: Ptr, k: Loc)
    requires AboutToPerform(c, s, slot)
    ensures var act := s.lock.rest[0];
            Deref(FillGetters(c, s, act, slot), k) == if k in act.mg then Deref(s, act.putter) else Deref(s, k)
  {
    hide Locations, Counts, Takers, LockOk, ActionsOk, FillGetters, Holders, Busy, Out, Closers, PointAll;
    var act := s.lock.rest[0];
    FillShape(c, s, slot);
    PerformGood(c, s);
    PointedAt(s.ptr, act.mg, Target(c, s, act, slot), k);
    SlotsAt(s, k);
    SlotsAt(s, act.putter);
  }

  lemma SlotsAt(s: State, k: Loc)
    requires Slots(s)
    ensures SlotAt(s, k).Some? ==> SlotAt(s, k).value in s.store
  {
  }

  /** The cell of a memory putter without port getters is gone; nothing else changes its value. */
  ghost predicate Effect(c: Config, s: State, act: Action, s': State)
    requires s.lock.Held? && s.lock.rest != []
  {
    && s'.mem == s.mem && s'.call == s.call
    && s'.lock == s.lock.(src := act.putter, sends := act.pg, rest := s.lock.rest[1..])
    && (act.pg != [] ==>
          act.putter in s'.flags && s'.flags == s.flags[act.putter := s'.flags[act.putter]]
            && !s'.flags[act.putter].moved)
    && (act.pg == [] ==> s'.flags == s.flags)
    && (act.pg == [] && IsPoPu(c, act.putter) ==> s'.box == s.box[act.putter := if act.mg == [] then 0 else 1])
    && (act.pg != [] || IsMemo(c, act.putter) ==> s'.box == s.box)
    && (forall k :: (k in s'.ready <==> k in s.ready) || k in act.mg || (k == act.putter && IsMemo(c, k)))
    && (forall k :: !(k == act.putter && act.pg == [] && IsMemo(c, k)) ==>
          Deref(s', k) == if k in act.mg then Deref(s, act.putter) else Deref(s, k))
  }

  lemma PerformEffect(c: Config, s: State, slot: Ptr)
    requires AboutToPerform(c, s, slot)
    ensures Effect(c, s, s.lock.rest[0], Performed(c, s, slot))
  {
    hide Inv, FillGetters, MakeEmpty, Effect, Performed;
    var act := s.lock.rest[0];
    PutterKind(c, s);
    if act.pg != [] {
      PerformArms(c, s, slot);
    } else if IsMemo(c, act.putter) {
      PerformEmpties(c, s, slot);
    } else {
      PerformReports(c, s, slot);
    }
  }

  lemma PerformArms(c: Config, s: State, slot: Ptr)
    requires AboutToPerform(c, s, slot) && s.lock.rest[0].pg != []
    ensures Effect(c, s, s.lock.rest[0], Performed(c, s, slot))
  {
    hide Inv, FillGetters, Dispatch, Deref, Dispatched;
    FillEffect(c, s, slot);
    ArmEffect(c, FillGetters(c, s, s.lock.rest[0], slot), s.lock.rest[0], s.lock);
  }

  lemma PerformEmpties(c: Config, s: State, slot: Ptr)
    requires AboutToPerform(c, s, slot) && s.lock.rest[0].pg == [] && IsMemo(c, s.lock.rest[0].putter)
    ensures Effect(c, s, s.lock.rest[0], Performed(c, s, slot))
  {
    hide Inv, FillGetters, MakeEmpty, Deref, Dispatched;
    FillEffect(c, s, slot);
    EmptyEffect(FillGetters(c, s, s.lock.rest[0], slot), s.lock.rest[0], s.lock);
  }

  lemma PerformReports(c: Config, s: State, slot: Ptr)
    requires AboutToPerform(c, s, slot) && s.lock.rest[0].pg == [] && !IsMemo(c, s.lock.rest[0].putter)
    ensures Effect(c, s, s.lock.rest[0], Performed(c, s, slot))
  {
    hide Inv, FillGetters, Dispatch, Deref, Dispatched;
    FillEffect(c, s, slot);
    SendEffect(c, s, FillGetters(c, s, s.lock.rest[0], slot), s.lock.rest[0], slot);
  }

  lemma ArmEffect(c: Config, s1: State, act: Action, k: Lock)
    requires k.Held? && k.rest != [] && act.pg != []
    ensures var s' := Dispatched(Dispatch(c, s1, act), act, k);
            && s' == s1.(count := s'.count, flags := s1.flags[act.putter := s'.flags[act.putter]], lock := s'.lock)
            && act.putter in s'.flags && !s'.flags[act.putter].moved
            && s'.lock == k.(src := act.putter, sends := act.pg, rest := k.rest[1..])
            && forall m :: Deref(s', m) == Deref(s1, m)
  {
  }

  lemma EmptyEffect(s1: State, act: Action, k: Lock)
    requires k.Held? && k.rest != [] && Slots(s1) && SlotAt(s1, act.putter).Some? && act.putter !in s1.ready
    ensures var s' := Dispatched(MakeEmpty(s1, act.putter), act, k);
            && s' == s1.(ptr := s1.ptr - {act.putter}, ready := s1.ready + {act.putter}, refs := s'.refs,
                  store := s'.store, lock := s'.lock)
            && s'.lock == k.(src := act.putter, sends := act.pg, rest := k.rest[1..])
            && forall m :: m != act.putter ==> Deref(s', m) == Deref(s1, m)
  {
    hide MakeEmpty, Holders;
    MakeEmptySlots(s1, act.putter);
    var s' := Dispatched(MakeEmpty(s1, act.putter), act, k);
    forall m | m != act.putter ensures Deref(s', m) == Deref(s1, m) {
      SlotsAt(s1, m);
      assert SlotAt(s1, m).Some? ==>
        SlotAt(s1, m).value in s'.store && s'.store[SlotAt(s1, m).value] == s1.store[SlotAt(s1, m).value];
    }
  }

  lemma SendEffect(c: Config, s: State, s1: State, act: Action, slot: Ptr)
    requires AboutToPerform(c, s, slot) && act == s.lock.rest[0] && s1.box == s.box && act.pg == []
    requires !IsMemo(c, act.putter)
    ensures var s' := Dispatched(Dispatch(c, s1, act), act, s.lock);
            && s' == s1.(box := s.box[act.putter := if act.mg == [] then 0 else 1], lock := s'.lock)
            && s'.lock == s.lock.(src := act.putter, sends := act.pg, rest := s.lock.rest[1..])
            && forall m :: Deref(s', m) == Deref(s1, m)
  {
    hide Locations, Counts, Slots, Takers, LockOk, Busy;
    PutterKind(c, s);
    PerformGood(c, s);
  }

  lemma PerformEngaged(c: Config, s: State, slot: Ptr)
    requires Inv(c, s) && Performing(c, s)
    ensures var act := s.lock.rest[0]; var s' := Performed(c, s, slot);
            && (forall k :: Engaged(s', k) == if k in act.pg then Some(act.putter) else Engaged(s, k))
            && (forall k ::
                  Wants(s', k) == Wants(s, k) && Hungry(s', k) == Hungry(s, k) && Unmarked(s', k) == Unmarked(s, k))
            && (forall k <- act.pg :: k in s.call && BeforeMessage(s.call[k].phase) && Engaged(s, k) == None)
            && (forall k :: Engaged(s, k).Some? ==> Engaged(s, k).value != act.putter && Engaged(s, k).value !in act.mg)
  {
    hide Locations, Counts, Slots, Takers, LockOk, ActionsOk, Busy, Performed, Deref, Transfers,
      DisableMove;
    PerformTransfers(c, s, slot);
    PerformKeepsCalls(c, s, slot);
    PerformGood(c, s);
    EngagedBusy(s);
    PerformPutterCall(c, s);
  }

  lemma PerformKeepsCalls(c: Config, s: State, slot: Ptr)
    requires s.lock.Held? && s.lock.rest != []
    ensures Performed(c, s, slot).call == s.call
  {
    hide Performed, DisableMove;
    PerformTransfers(c, s, slot);
  }

  lemma PerformPutterCall(c: Config, s: State)
    requires Inv(c, s) && Performing(c, s)
    ensures s.lock.rest[0].putter in s.call ==> s.call[s.lock.rest[0].putter].Put?
  {
    hide Counts, Slots, Takers, Busy, LockOk, Locations;
    PutterKind(c, s);
    GoodAt(c, s, s.lock.rest[0].putter);
  }

  lemma PerformPorts(c: Config, s: State, a: AState, slot: Ptr)
    requires AboutToPerform(c, s, slot) && Sim(c, s, a)
    ensures PortsMatch(Performed(c, s, slot), a)
  {
    hide Inv, Performed, CellsMatch, DataMatch, MovesMatch, Deref, PortsMatch;
    var act, s' := s.lock.rest[0], Performed(c, s, slot);
    PerformEffect(c, s, slot);
    PutterKind(c, s);
    assert PendMatch(c, s, a, act);
    forall k <- {act.putter} + SetOf(act.mg)
      ensures PortMatch(k in s'.ready, Lookup(s'.box, k), Lookup(s'.call, k), Lookup(a.port, k))
    {
      PortMatchAt(c, s, a, k);
      if k == act.putter && IsPoPu(c, k) {
        PerformPutterWaits(c, s);
      } else {
        PerformCell(c, s, k);
      }
    }
    PortsAmong(s, s', a, a, {act.putter} + SetOf(act.mg));
  }

  lemma PerformPutterWaits(c: Config, s: State)
    requires Inv(c, s) && Performing(c, s) && IsPoPu(c, s.lock.rest[0].putter)
    ensures var p := s.lock.rest[0].putter;
      p in s.call && s.call[p].Put? && BeforeMessage(s.call[p].phase) && p !in s.ready && p !in s.lock.rest[0].mg
  {
    hide Counts, Slots, Takers, Busy, LockOk, Locations;
    PerformGood(c, s);
    PerformPutterCall(c, s);
  }

  lemma PerformCell(c: Config, s: State, k: Loc)
    requires Inv(c, s) && Performing(c, s)
    requires k in s.lock.rest[0].mg || (k == s.lock.rest[0].putter && IsMemo(c, k))
    ensures k !in s.call && k !in s.box && IsMemo(c, k)
  {
    hide Counts, Slots, Takers, Busy, LockOk, Locations;
    PerformGood(c, s);
    GoodAt(c, s, k);
  }

  lemma PerformCells(c: Config, s: State, a: AState, slot: Ptr)
    requires AboutToPerform(c, s, slot) && Sim(c, s, a)
    ensures CellsMatch(c, Performed(c, s, slot), a)
  {
    hide Inv, Performed, PortsMatch, DataMatch, MovesMatch, Deref;
    PerformEffect(c, s, slot);
    PerformGood(c, s);
    assert PendMatch(c, s, a, s.lock.rest[0]);
  }

  lemma PerformPending(c: Config, s: State, a: AState, slot: Ptr)
    requires AboutToPerform(c, s, slot) && Sim(c, s, a)
    ensures PendingMatch(c, Performed(c, s, slot), a)
  {
    hide Locations, Counts, Slots, Takers, Performed, PortsMatch, CellsMatch, DataMatch, MovesMatch, PendMatch, Deref,
      ActionOk;
    var s' := Performed(c, s, slot);
    PerformEffect(c, s, slot);
    RumpApart(c, s.lock.rest);
    ActionLocs(s.lock.rest[1..]);
    assert forall k :: Wants(s', k) == Wants(s, k);
    forall act <- s.lock.rest[1..] ensures PendMatch(c, s', a, act) {
      assert PendMatch(c, s, a, act);
      PendFrame(c, s, s', a, a, act);
    }
  }

  lemma PerformData(c: Config, s: State, a: AState, slot: Ptr)
    requires AboutToPerform(c, s, slot) && Sim(c, s, a)
    ensures DataMatch(Performed(c, s, slot), a)
  {
    hide Inv, Performed, PortsMatch, CellsMatch, MovesMatch, Deref, Engaged;
    var act, s' := s.lock.rest[0], Performed(c, s, slot);
    PerformEffect(c, s, slot);
    PerformEngaged(c, s, slot);
    PerformGood(c, s);
    assert PendMatch(c, s, a, act);
    assert act.pg != [] ==> Deref(s', act.putter) == Deref(s, act.putter);
  }

  lemma PerformMoves(c: Config, s: State, a: AState, slot: Ptr)
    requires AboutToPerform(c, s, slot) && Sim(c, s, a) && TakersOk(c, s, s.lock.rest[0])
    ensures MovesMatch(c, Performed(c, s, slot), a)
  {
    hide Inv, Performed, PortsMatch, CellsMatch, DataMatch, Deref, Engaged, MovedMatch;
    var act, s' := s.lock.rest[0], Performed(c, s, slot);
    PerformEngaged(c, s, slot);
    forall k | Engaged(s', k).Some? && IsPoPu(c, Engaged(s', k).value)
      ensures MovedMatch(c, s', a, k, Engaged(s', k).value)
    {
      if k in act.pg {
        PerformMovedNew(c, s, a, slot, k);
      } else {
        PerformMovedOld(c, s, a, slot, k);
      }
    }
  }

  lemma PerformMovedNew(c: Config, s: State, a: AState, slot: Ptr, k: Loc)
    requires AboutToPerform(c, s, slot) && Sim(c, s, a) && k in s.lock.rest[0].pg && IsPoPu(c, s.lock.rest[0].putter)
    requires TakersOk(c, s, s.lock.rest[0])
    ensures MovedMatch(c, Performed(c, s, slot), a, k, s.lock.rest[0].putter)
  {
    hide Inv, Performed, PortsMatch, CellsMatch, DataMatch, MovesMatch, Deref, Engaged;
    var act, s' := s.lock.rest[0], Performed(c, s, slot);
    PerformEffect(c, s, slot);
    PerformEngaged(c, s, slot);
    PerformGood(c, s);
    assert PendMatch(c, s, a, act);
    if WillMove(s, act) {
      var h :| h in act.pg && Wants(s, h);
      assert Engaged(s', h) == Some(act.putter) && Unmarked(s', h);
    }
  }

  lemma PerformMovedOld(c: Config, s: State, a: AState, slot: Ptr, k: Loc)
    requires AboutToPerform(c, s, slot) && Sim(c, s, a) && k !in s.lock.rest[0].pg
    requires Engaged(s, k).Some? && IsPoPu(c, Engaged(s, k).value)
    ensures MovedMatch(c, Performed(c, s, slot), a, k, Engaged(s, k).value)
  {
    hide Inv, Performed, PortsMatch, CellsMatch, DataMatch, PendingMatch, Deref, Engaged;
    var s', p := Performed(c, s, slot), Engaged(s, k).value;
    PerformEffect(c, s, slot);
    PerformEngaged(c, s, slot);
    assert MovedMatch(c, s, a, k, p);
    if c.isCopy && a.port[p].moved && !FlagsMoved(s, p) {
      var h :| Engaged(s, h) == Some(p) && Unmarked(s, h);
      assert Engaged(s', h) == Some(p) && Unmarked(s', h);
    }
  }

  lemma PerformSim(c: Config, s: State, a: AState, slot: Ptr)
    requires AboutToPerform(c, s, slot) && Sim(c, s, a) && TakersOk(c, s, s.lock.rest[0])
    ensures Sim(c, Performed(c, s, slot), a)
  {
    hide Inv, Performed, PortsMatch, CellsMatch, PendingMatch, DataMatch, MovesMatch;
    PerformPorts(c, s, a, slot);
    PerformCells(c, s, a, slot);
    PerformPending(c, s, a, slot);
    PerformData(c, s, a, slot);
    PerformMoves(c, s, a, slot);
  }

  // ---------------------------------------------------------------- every step, every run

  /** The automaton takes the event of a step, if it has one. */
  predicate ACanLabel(c: Config, a: AState, ev: Option<Event>) { ev.Some? ==> ACan(c, a, ev.value) }

  function ADoLabel(c: Config, a: AState, ev: Option<Event>): AState
    requires ACanLabel(c, a, ev)
  {
    if ev.Some? then ADo(c, a, ev.value) else a
  }

  ghost predicate Refines(c: Config, s: State, a: AState, step: Step)
    requires Enabled(c, s, step)
  {
    ACanLabel(c, a, Label(s, step)) && Sim(c, Do(c, s, step), ADoLabel(c, a, Label(s, step)))
  }

  lemma EnterPutCall(c: Config, s: State, p: Loc)
    requires Inv(c, s) && p in s.call && s.call[p].phase.Starting?
    ensures s.call[p].Put? && IsPoPu(c, p)
  {
    hide Counts, Slots, Takers, Busy, LockOk, Locations;
    GoodAt(c, s, p);
  }

  lemma CallPort(c: Config, s: State, a: AState, l: Loc)
    requires Inv(c, s) && Sim(c, s, a)
    ensures PortMatch(l in s.ready, Lookup(s.box, l), Lookup(s.call, l), Lookup(a.port, l))
    ensures l in s.call ==> if s.call[l].Put? then IsPoPu(c, l) else IsPoGe(c, l) && GetOk(c, s.call[l])
    ensures l in s.ready && l in s.call ==> BeforeMessage(s.call[l].phase)
    ensures l in s.call && (s.call[l].phase.Sent? || s.call[l].phase.Served?) ==>
      l !in s.ready && (s.call[l].Put? <==> s.call[l].phase.Sent?)
  {
    hide Counts, Slots, Takers, Busy, LockOk, Locations, CellsMatch, PendingMatch, DataMatch, MovesMatch;
    GoodAt(c, s, l);
  }

  lemma ReturnRefines(c: Config, s: State, a: AState, l: Loc)
    requires Inv(c, s) && Sim(c, s, a) && Enabled(c, s, Return(l))
    ensures Refines(c, s, a, Return(l))
  {
    hide Inv, Sim;
    CallPort(c, s, a, l);
    ReturnSim(c, s, a, l);
  }

  lemma EnterRefines(c: Config, s: State, a: AState, step: Step)
    requires Inv(c, s) && Sim(c, s, a) && Enabled(c, s, step) && (step.EnterPut? || step.EnterGet?)
    ensures Refines(c, s, a, step)
  {
    hide Inv, Sim;
    match step
    case EnterPut(p) =>
      EnterPutCall(c, s, p);
      CallPort(c, s, a, p);
      EnterPutSim(c, s, a, p);
    case EnterGet(g, wants, timed) =>
      CallPort(c, s, a, g);
      EnterGetSim(c, s, a, g, wants, timed);
  }

  lemma RevokeRefines(c: Config, s: State, a: AState, l: Loc)
    requires Inv(c, s) && Sim(c, s, a) && Enabled(c, s, Revoke(l))
    ensures Refines(c, s, a, Revoke(l))
  {
    hide Inv, Sim, DoRevoke;
    CallPort(c, s, a, l);
    if l in s.ready {
      RevokeInTimeSim(c, s, a, l);
    } else {
      RevokeTooLateSim(c, s, a, l);
    }
  }

  lemma SelectRefines(c: Config, s: State, a: AState, i: nat)
    requires ConfigOk(c) && Inv(c, s) && Sim(c, s, a) && Enabled(c, s, Select(i))
    ensures Refines(c, s, a, Select(i))
  {
    hide Inv, Sim, RuleOk, RuleEnabled, DoSelect, AFire, AEnabled;
    SelectSim(c, s, a, c.rules[i]);
  }

  lemma SilentRefines(c: Config, s: State, a: AState, step: Step)
    requires Inv(c, s) && Sim(c, s, a) && Enabled(c, s, step) && Scoped(c, s, step)
    requires !step.EnterPut? && !step.EnterGet? && !step.Revoke? && !step.Return? && !step.Select?
    ensures Refines(c, s, a, step)
  {
    hide Inv, Sim, DoWork, DoRecv, DoFinalize, DoRevoke, FillGetters, Dispatch, Dispatched, Working, RuleEnabled;
    match step
    case BeginPut(p, v, timed) => BeginPutSim(c, s, a, p, v, timed);
    case Perform(slot) => PerformSim(c, s, a, slot);
    case SendNext => SendNextSim(c, s, a);
    case Release => ReleaseSim(c, s, a);
    case TimeOut(l) => TimeOutSim(c, s, a, l);
    case Recv(l) =>
      if s.call[l].Put? {
        RecvPutSim(c, s, a, l);
      } else {
        RecvGetSim(c, s, a, l);
      }
    case Work(g) => WorkSim(c, s, a, g);
    case Finalize(g) =>
      FinalizeSource(c, s, g);
      if IsMemo(c, s.call[g].phase.src) {
        FinalizeMemoSim(c, s, a, g);
      } else {
        FinalizePortSim(c, s, a, g);
      }
  }

  /** One step of the threads is one step of the automaton, or none. */
  lemma StepRefines(c: Config, s: State, a: AState, step: Step)
    requires ConfigOk(c) && Inv(c, s) && Sim(c, s, a) && Enabled(c, s, step) && Scoped(c, s, step)
    ensures Refines(c, s, a, step)
  {
    hide Inv, Sim, Refines, ConfigOk;
    match step
    case EnterPut(_) => EnterRefines(c, s, a, step);
    case EnterGet(_, _, _) => EnterRefines(c, s, a, step);
    case Select(i) => SelectRefines(c, s, a, i);
    case Revoke(l) => RevokeRefines(c, s, a, l);
    case Return(l) => ReturnRefines(c, s, a, l);
    case _ => SilentRefines(c, s, a, step);
  }

  /** The events of a run: calls, firings, timeouts and returned values, in order. */
  function Trace(c: Config, s: State, steps: seq<Step>): seq<Event>
    requires ValidRun(c, s, steps)
    decreases |steps|
  {
    if steps == [] then []
    else (if Label(s, steps[0]).Some? then [Label(s, steps[0]).value]
      else []) + Trace(c, Do(c, s, steps[0]), steps[1..])
  }

  /** Every interleaving of the threads, seen from outside, is a run of the atomic rule automaton. */
  lemma {:induction false} RunRefines(c: Config, s: State, a: AState, steps: seq<Step>)
    requires ConfigOk(c) && Inv(c, s) && Sim(c, s, a) && ValidRun(c, s, steps) && ScopedRun(c, s, steps)
    ensures Accepts(c, a, Trace(c, s, steps))
    ensures Sim(c, Run(c, s, steps), ARun(c, a, Trace(c, s, steps)))
    decreases |steps|
  {
    hide Inv, Sim, Enabled, Do, ACan, ADo, ConfigOk;
    if steps != [] {
      StepInv(c, s, steps[0]);
      StepRefines(c, s, a, steps[0]);
      var s', a' := Do(c, s, steps[0]), ADoLabel(c, a, Label(s, steps[0]));
      RunRefines(c, s', a', steps[1..]);
      var tail := Trace(c, s', steps[1..]);
      if Label(s, steps[0]).Some? {
        var tr := [Label(s, steps[0]).value] + tail;
        assert tr == Trace(c, s, steps) && tr[0] == Label(s, steps[0]).value && tr[1..] == tail;
      } else {
        assert Trace(c, s, steps) == tail;
      }
    }
  }

  lemma InitSim(c: Config)
    ensures Sim(c, Init(c), AInit())
  {
    assert forall g :: Engaged(Init(c), g) == None;
  }

  /** From the start: whatever the threads do, the automaton can do. */
  lemma EveryRunRefines(c: Config, steps: seq<Step>)
    requires ConfigOk(c) && ValidRun(c, Init(c), steps) && ScopedRun(c, Init(c), steps)
    ensures Accepts(c, AInit(), Trace(c, Init(c), steps))
  {
    InitInv(c);
    InitSim(c);
    hide Inv, Sim;
    RunRefines(c, Init(c), AInit(), steps);
  }

  // ---------------------------------------------------------------- what the automaton's firing means

  /** What a firing does with an action. The putter's value, a cell's content or a port's offer, goes to the cells and
      to the port getters that asked for data. A cell putter is emptied; a port putter learns whether its datum has
      left. */
  predicate ActionFires(c: Config, a: AState, a': AState, act: Action) {
    var p := act.putter;
    && (if IsMemo(c, p) then p in a.cell && p !in a'.cell
        else
          && p in a.port && a.port[p].Offer?
          && Lookup(a'.port, p) == Some(Released(
               if act.pg == [] then act.mg != [] else exists g <- act.pg :: Lookup(a.port, g) == Some(Want(true)))))
    && var v := if IsMemo(c, p) then a.cell[p] else a.port[p].v;
       && (forall m <- act.mg :: m !in a.cell && Lookup(a'.cell, m) == Some(v))
       && (forall g <- act.pg :: g in a.port && a.port[g].Want?
                                 && Lookup(a'.port, g) == Some(Given(if a.port[g].wants then Some(v) else None)))
  }

  lemma FedBy(c: Config, acts: seq<Action>, act: Action, l: Loc)
    requires ActionsOk(c, acts) && act in acts && l in Touched(act)
    ensures ActionOk(c, act) && Feeder(acts, l) == Some(act)
    ensures l in Getters(acts) <==> l in act.mg || l in act.pg
    ensures l in Putters(acts) <==> l == act.putter
  {
    hide ActionOk;
    if act == acts[0] {
      FirstFed(c, acts, l);
    } else {
      assert act in acts[1..];
      ActionLocs(acts[1..]);
      FedBy(c, acts[1..], act, l);
      assert l in Locs(acts[1..]) && l !in Touched(acts[0]);
    }
  }

  lemma FirstFed(c: Config, acts: seq<Action>, l: Loc)
    requires acts != [] && ActionsOk(c, acts) && l in Touched(acts[0])
    ensures ActionOk(c, acts[0]) && Feeder(acts, l) == Some(acts[0])
    ensures l in Getters(acts) <==> l in acts[0].mg || l in acts[0].pg
    ensures l in Putters(acts) <==> l == acts[0].putter
  {
    assert l !in Locs(acts[1..]);
  }

  lemma OneFires(c: Config, a: AState, r: Rule, act: Action)
    requires ActionsOk(c, r.actions) && AEnabled(c, a, r) && act in r.actions
    ensures ActionFires(c, a, AFire(c, a, r), act)
  {
    hide ActionsOk, Feeder, Putters, Getters;
    var a', p := AFire(c, a, r), act.putter;
    FedBy(c, r.actions, act, p);
    forall m <- act.mg ensures m in Touched(act) && m !in a.cell && Lookup(a'.cell, m) == Some(SourceValue(c, a, p)) {
      FedBy(c, r.actions, act, m);
    }
    forall g <- act.pg ensures g in Touched(act) && g in a.port && a.port[g].Want?
      && Lookup(a'.port, g) == Some(Given(if a.port[g].wants then Some(SourceValue(c, a, p)) else None))
    {
      FedBy(c, r.actions, act, g);
    }
  }

  /** A firing serves all its actions at once and leaves the other locations as they are. */
  lemma FireMeans(c: Config, a: AState, r: Rule)
    requires ActionsOk(c, r.actions) && AEnabled(c, a, r)
    ensures var a' := AFire(c, a, r);
            && (forall act <- r.actions :: ActionFires(c, a, a', act))
            && (forall l :: l !in Locs(r.actions) ==>
                  Lookup(a'.port, l) == Lookup(a.port, l) && Lookup(a'.cell, l) == Lookup(a.cell, l))
            && a'.port.Keys == a.port.Keys
  {
    hide ActionsOk, Feeder, Putters, Getters, ActionFires;
    var a' := AFire(c, a, r);
    forall act <- r.actions ensures ActionFires(c, a, a', act) {
      OneFires(c, a, r, act);
    }
    forall l | l !in Locs(r.actions)
      ensures Lookup(a'.port, l) == Lookup(a.port, l) && Lookup(a'.cell, l) == Lookup(a.cell, l)
    {
      FeederOf(c, r.actions, l);
    }
  }
}
