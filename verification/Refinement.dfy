/** Every run of the threaded protocol is a run of the atomic rule automaton. */
module Refinement {
  import opened Wrappers
  import opened Protocol
  import opened ProtocolInvariant
  import opened ProtocolSafety
  import opened RuleAutomaton

  /** What a step looks like from outside, if it shows. A rule counts as fired when the lock holder selects it. */
  function Label(s: State, step: Step): Option<Event> {
    match step
    case EnterPut(p) => if p in s.call && s.call[p].Put? then Some(DidPut(p, s.call[p].datum)) else None
    case EnterGet(g, wants, _) => Some(DidGet(g, wants))
    case Select(i) => Some(Fired(i))
    case Revoke(l) => if l in s.ready then Some(TimedOut(l)) else None
    case Return(l) =>
      if l !in s.call then None
      else if s.call[l].Put? then Some(PutReturned(l, s.call[l].phase.Sent? && s.call[l].phase.moved))
      else Some(GetReturned(l, s.call[l].out))
    case _ => None
  }

  // ---------------------------------------------------------------- the simulation relation

  predicate PortMatch(ready: bool, box: Option<int>, call: Option<Call>, ap: Option<APort>) {
    if call.None? || call.value.phase.Starting? then ap.None?
    else if call.value.Put? then
      if ready then ap == Some(Offer(call.value.datum))
      else
        && ap.Some? && ap.value.Released?
        && (box.Some? ==> (ap.value.moved <==> box.value == 1))
        && (call.value.phase.Sent? ==> ap.value.moved == call.value.phase.moved)
    else
      if ready then ap == Some(Want(call.value.wants))
      else
        && ap.Some? && ap.value.Given?
        && (ap.value.out.Some? <==> call.value.wants)
        && (call.value.out.Some? ==> ap.value.out == call.value.out)
  }

  ghost predicate PortsMatch(s: State, a: AState) {
    forall l :: PortMatch(l in s.ready, Lookup(s.box, l), Lookup(s.call, l), Lookup(a.port, l))
  }

  ghost predicate CellsMatch(c: Config, s: State, a: AState) {
    && a.cell.Keys == s.mem
    && forall m :: m in s.mem && Deref(s, m).Some? && IsMemo(c, m) ==> m in a.cell && a.cell[m] == Deref(s, m).value
  }

  /** The datum would leave the putter of a pending action. */
  predicate WillMove(s: State, act: Action) {
    if act.pg == [] then act.mg != [] else exists g <- act.pg :: Wants(s, g)
  }

  predicate PendMatch(c: Config, s: State, a: AState, act: Action) {
    && Deref(s, act.putter).Some?
    && (forall g <- act.pg :: g in a.port && a.port[g] == Given(if Wants(s, g) then Deref(s, act.putter) else None))
    && (forall m <- act.mg :: m in a.cell && a.cell[m] == Deref(s, act.putter).value)
    && (IsPoPu(c, act.putter) ==> act.putter in a.port && a.port[act.putter] == Released(WillMove(s, act)))
  }

  predicate PendingMatch(c: Config, s: State, a: AState) {
    forall act <- Rest(s.lock) :: PendMatch(c, s, a, act)
  }

  /** A getter that still has to copy will copy what the automaton gave it. */
  ghost predicate DataMatch(s: State, a: AState) {
    forall g :: Engaged(s, g).Some? && Hungry(s, g) ==> g in a.port && a.port[g] == Given(Deref(s, Engaged(s, g).value))
  }

  predicate FlagsMoved(s: State, p: Loc) { p in s.flags && s.flags[p].moved && !s.flags[p].disabled }

  predicate Unmarked(s: State, g: Loc) { Wants(s, g) && (BeforeMessage(s.call[g].phase) || s.call[g].phase.Mark?) }

  ghost predicate MovedMatch(c: Config, s: State, a: AState, g: Loc, p: Loc) {
    && p in a.port && a.port[p].Released?
    && var m := a.port[p].moved;
       && (Wants(s, g) ==> m)
       && (g in s.call && s.call[g].phase.Finalizing? ==> s.call[g].phase.someoneMoved == m)
       && (!c.isCopy ==> m == Wants(s, g))
       && (c.isCopy && FlagsMoved(s, p) ==> m)
       && (c.isCopy && m ==> FlagsMoved(s, p) || exists h :: Engaged(s, h) == Some(p) && Unmarked(s, h))
  }

  /** The message a port putter will get is the automaton's. */
  ghost predicate MovesMatch(c: Config, s: State, a: AState) {
    forall g :: Engaged(s, g).Some? && IsPoPu(c, Engaged(s, g).value) ==> MovedMatch(c, s, a, g, Engaged(s, g).value)
  }

  ghost predicate Sim(c: Config, s: State, a: AState) {
    PortsMatch(s, a) && CellsMatch(c, s, a) && PendingMatch(c, s, a) && DataMatch(s, a) && MovesMatch(c, s, a)
  }

  // ---------------------------------------------------------------- frames

  lemma PortsFrame(s: State, s': State, a: AState, a': AState, l: Loc)
    requires PortsMatch(s, a)
    requires forall k :: k != l ==> (k in s'.ready <==> k in s.ready) && Lookup(s'.box, k) == Lookup(s.box, k)
                                    && Lookup(s'.call, k) == Lookup(s.call, k)
                                    && Lookup(a'.port, k) == Lookup(a.port, k)
    requires PortMatch(l in s'.ready, Lookup(s'.box, l), Lookup(s'.call, l), Lookup(a'.port, l))
    ensures PortsMatch(s', a')
  {
    hide PortMatch, Lookup;
  }

  lemma CellsFrame(c: Config, s: State, s': State, a: AState, a': AState)
    requires CellsMatch(c, s, a) && s'.mem == s.mem && a'.cell == a.cell
    requires forall m :: IsMemo(c, m) && m in s.mem && Deref(s', m).Some? ==> Deref(s', m) == Deref(s, m)
    ensures CellsMatch(c, s', a')
  {
    hide Deref;
  }

  lemma ActionLocs(acts: seq<Action>)
    ensures forall act <- acts ::
      act.putter in Putters(acts) && SetOf(act.mg) <= Getters(acts) && SetOf(act.pg) <= Getters(acts)
  {
    if acts != [] {
      ActionLocs(acts[1..]);
      forall act <- acts
        ensures act.putter in Putters(acts) && SetOf(act.mg) <= Getters(acts) && SetOf(act.pg) <= Getters(acts)
      {
        assert act == acts[0] || act in acts[1..];
      }
    }
  }

  lemma PendingFrame(c: Config, s: State, s': State, a: AState, a': AState)
    requires PendingMatch(c, s, a) && a'.cell == a.cell
    requires Rest(s'.lock) == Rest(s.lock)
    requires forall k <- Locs(Rest(s.lock)) :: Wants(s', k) == Wants(s, k) && Lookup(a'.port, k) == Lookup(a.port, k)
    requires forall p <- Putters(Rest(s.lock)) :: Deref(s', p) == Deref(s, p)
    ensures PendingMatch(c, s', a')
  {
    hide PendMatch;
    ActionLocs(Rest(s.lock));
    forall act <- Rest(s.lock) ensures PendMatch(c, s', a', act) {
      assert PendMatch(c, s, a, act);
      PendFrame(c, s, s', a, a', act);
    }
  }

  lemma PendFrame(c: Config, s: State, s': State, a: AState, a': AState, act: Action)
    requires PendMatch(c, s, a, act)
    requires forall k <- Touched(act) :: Wants(s', k) == Wants(s, k) && Lookup(a'.port, k) == Lookup(a.port, k)
    requires forall m <- act.mg :: m in a.cell ==> m in a'.cell && a'.cell[m] == a.cell[m]
    requires Deref(s', act.putter) == Deref(s, act.putter)
    ensures PendMatch(c, s', a', act)
  {
    hide Deref, Wants;
    assert act.putter in Touched(act);
    assert forall g <- act.pg :: g in Touched(act);
    assert WillMove(s', act) == WillMove(s, act);
  }

  lemma DataFrame(s: State, s': State, a: AState, a': AState)
    requires DataMatch(s, a)
    requires forall g :: Engaged(s', g).Some? && Hungry(s', g) ==>
               && Engaged(s', g) == Engaged(s, g) && Hungry(s, g) && Lookup(a'.port, g) == Lookup(a.port, g)
               && Deref(s', Engaged(s, g).value) == Deref(s, Engaged(s, g).value)
    ensures DataMatch(s', a')
  {
    hide Deref, Engaged, Hungry;
  }

  lemma MovesFrame(c: Config, s: State, s': State, a: AState, a': AState)
    requires MovesMatch(c, s, a)
    requires forall g :: Engaged(s', g) == Engaged(s, g) || (Engaged(s', g).None? && !Unmarked(s, g))
    requires forall g :: Engaged(s', g).Some? ==>
               && Wants(s', g) == Wants(s, g) && (c.isCopy ==> Unmarked(s', g) == Unmarked(s, g))
               && (g in s'.call && s'.call[g].phase.Finalizing? ==> g in s.call && s'.call[g].phase == s.call[g].phase)
               && Lookup(a'.port, Engaged(s, g).value) == Lookup(a.port, Engaged(s, g).value)
               && (c.isCopy ==> FlagsMoved(s', Engaged(s, g).value) == FlagsMoved(s, Engaged(s, g).value))
    ensures MovesMatch(c, s', a')
  {
    hide Engaged, Wants, Unmarked, FlagsMoved;
    forall g | Engaged(s', g).Some? && IsPoPu(c, Engaged(s', g).value)
      ensures MovedMatch(c, s', a', g, Engaged(s', g).value)
    {
      var p := Engaged(s, g).value;
      assert MovedMatch(c, s, a, g, p);
      if c.isCopy && a.port[p].moved && !FlagsMoved(s, p) {
        var h :| Engaged(s, h) == Some(p) && Unmarked(s, h);
        assert Engaged(s', h) == Some(p) && Unmarked(s', h);
      }
    }
  }

  /** A step that touches one location and neither flags, firing nor stored data. */
  lemma LocalSim(c: Config, s: State, s': State, a: AState, a': AState, l: Loc)
    requires Inv(c, s) && Sim(c, s, a)
    requires s'.mem == s.mem && a'.cell == a.cell && Rest(s'.lock) == Rest(s.lock) && s'.flags == s.flags
    requires forall k :: k != l ==> (k in s'.ready <==> k in s.ready) && Lookup(s'.box, k) == Lookup(s.box, k)
                                    && Lookup(s'.call, k) == Lookup(s.call, k)
                                    && Lookup(a'.port, k) == Lookup(a.port, k)
    requires PortMatch(l in s'.ready, Lookup(s'.box, l), Lookup(s'.call, l), Lookup(a'.port, l))
    requires forall p :: p != l ==> Deref(s', p) == Deref(s, p)
    requires Deref(s', l) == Deref(s, l) || (!Busy(s, l) && RoleOf(s.lock, l) != ToPut && !IsMemo(c, l))
    requires l in Locs(Rest(s.lock)) || Busy(s, l) || Engaged(s, l).Some? ==> Lookup(a'.port, l) == Lookup(a.port, l)
    requires l in Locs(Rest(s.lock)) || Engaged(s, l).Some? ==>
               && Wants(s', l) == Wants(s, l) && Hungry(s', l) == Hungry(s, l)
               && (c.isCopy ==> Unmarked(s', l) == Unmarked(s, l))
               && (l in s'.call && s'.call[l].phase.Finalizing? ==> l in s.call && s'.call[l].phase == s.call[l].phase)
    requires forall g :: Engaged(s', g) == Engaged(s, g)
    ensures Sim(c, s', a')
  {
    hide Inv, PortsMatch, CellsMatch, PendingMatch, DataMatch, MovesMatch, PortMatch, Deref, Engaged, Locs;
    PortsFrame(s, s', a, a', l);
    CellsFrame(c, s, s', a, a');
    forall k | k != l
      ensures Wants(s', k) == Wants(s, k) && Hungry(s', k) == Hungry(s, k) && Unmarked(s', k) == Unmarked(s, k)
    {
      assert Lookup(s'.call, k) == Lookup(s.call, k);
    }
    forall g | Engaged(s, g).Some? && g != l ensures g in s'.call ==> g in s.call && s'.call[g] == s.call[g] {
      assert Lookup(s'.call, g) == Lookup(s.call, g);
    }
    PendingPutters(c, s);
    PendingFrame(c, s, s', a, a');
    EngagedBusy(s);
    DataFrame(s, s', a, a');
    MovesFrame(c, s, s', a, a');
  }

  lemma PendingPutters(c: Config, s: State)
    requires Inv(c, s)
    ensures forall p <- Putters(Rest(s.lock)) :: RoleOf(s.lock, p) == ToPut
    ensures Locs(Rest(s.lock)) == Putters(Rest(s.lock)) + Getters(Rest(s.lock))
  {
    hide Locations, Counts, Slots, Takers, ActionsOk, Putters, Getters;
    assert forall p <- Putters(Rest(s.lock)) :: p in Locs(Rest(s.lock));
  }

  lemma EngagedBusy(s: State)
    ensures forall g :: Engaged(s, g).Some? ==> Busy(s, Engaged(s, g).value) && g in s.call
  {
    forall g | Engaged(s, g).Some? ensures Busy(s, Engaged(s, g).value) && g in s.call {
      assert g in Out(s, Engaged(s, g).value) || g in Closers(s, Engaged(s, g).value);
    }
  }

  lemma MessagePutter(c: Config, s: State, g: Loc)
    requires Inv(c, s)
    ensures Pledge(s, g).Some? ==> IsPutter(c, Pledge(s, g).value)
    ensures Closing(s, g).Some? ==> IsPutter(c, Closing(s, g).value)
  {
    hide Counts, Slots, Takers, LockOk, Locations;
    PledgedToPutter(c, s, g);
  }

  // ---------------------------------------------------------------- steps of one thread

  /** What invariant and simulation say of one location. */
  lemma SimPort(c: Config, s: State, a: AState, l: Loc)
    requires Inv(c, s) && Sim(c, s, a)
    ensures Good(c, l, ViewOf(s, l), Busy(s, l)) && !s.fault
    ensures PortMatch(l in s.ready, Lookup(s.box, l), Lookup(s.call, l), Lookup(a.port, l))
    ensures l in Locs(Rest(s.lock)) <==> RoleOf(s.lock, l) == ToPut || RoleOf(s.lock, l) == ToGet
    ensures l in s.ready ==> RoleOf(s.lock, l) == Idle && !Busy(s, l)
  {
    hide Counts, Slots, Takers, ActionsOk, Putters, Getters, CellsMatch, PendingMatch, DataMatch, MovesMatch, Busy;
    GoodAt(c, s, l);
    assert l in Sends(s.lock) ==> l in SetOf(Sends(s.lock));
  }

  lemma BeginPutSim(c: Config, s: State, a: AState, p: Loc, v: Val, timed: bool)
    requires Inv(c, s) && Sim(c, s, a) && Enabled(c, s, BeginPut(p, v, timed))
    ensures Sim(c, Do(c, s, BeginPut(p, v, timed)), a)
  {
    hide Inv, Sim, PortsMatch, CellsMatch, PendingMatch, DataMatch, MovesMatch, Busy, Out, Closers, Putters, Getters;
    SimPort(c, s, a, p);
    LocalSim(c, s, Do(c, s, BeginPut(p, v, timed)), a, a, p);
  }

  lemma EnterPutSim(c: Config, s: State, a: AState, p: Loc)
    requires Inv(c, s) && Sim(c, s, a) && Enabled(c, s, EnterPut(p)) && s.call[p].Put?
    ensures Sim(c, Do(c, s, EnterPut(p)), a.(port := a.port[p := Offer(s.call[p].datum)]))
  {
    hide Inv, Sim, PortsMatch, CellsMatch, PendingMatch, DataMatch, MovesMatch, Busy, Out, Closers, Putters, Getters;
    SimPort(c, s, a, p);
    LocalSim(c, s, Do(c, s, EnterPut(p)), a, a.(port := a.port[p := Offer(s.call[p].datum)]), p);
  }

  lemma EnterGetSim(c: Config, s: State, a: AState, g: Loc, wants: bool, timed: bool)
    requires Inv(c, s) && Sim(c, s, a) && Enabled(c, s, EnterGet(g, wants, timed))
    ensures Sim(c, Do(c, s, EnterGet(g, wants, timed)), a.(port := a.port[g := Want(wants)]))
  {
    hide Inv, Sim, PortsMatch, CellsMatch, PendingMatch, DataMatch, MovesMatch, Busy, Out, Closers, Putters, Getters;
    SimPort(c, s, a, g);
    LocalSim(c, s, Do(c, s, EnterGet(g, wants, timed)), a, a.(port := a.port[g := Want(wants)]), g);
  }

  lemma ReleaseSim(c: Config, s: State, a: AState)
    requires Inv(c, s) && Sim(c, s, a) && Enabled(c, s, Release)
    ensures Sim(c, Do(c, s, Release), a)
  {
    hide Inv, Sim, PortsMatch, CellsMatch, PendingMatch, DataMatch, MovesMatch, Busy, Out, Closers, Putters, Getters;
    SimPort(c, s, a, 0);
    LocalSim(c, s, Do(c, s, Release), a, a, 0);
  }

  /** A message sent is one more in a dropbox; who is engaged with whom stays, and so do the data. */
  lemma SentShape(c: Config, s: State)
    requires Inv(c, s) && Enabled(c, s, SendNext)
    ensures var g := s.lock.sends[0];
            && Do(c, s, SendNext) == s.(box := s.box[g := s.lock.src], lock := s.lock.(sends := s.lock.sends[1..]))
            && g in s.call && s.call[g].Get? && g !in s.ready
            && (forall k :: Engaged(Do(c, s, SendNext), k) == Engaged(s, k))
            && (forall p :: Deref(Do(c, s, SendNext), p) == Deref(s, p))
  {
    hide Counts, Slots, Takers, LockOk, Locations, Busy, Putters, Getters, DoWork, DoRecv, DoFinalize, DoRevoke,
      FillGetters, Dispatch, Dispatched, RuleEnabled, DoSelect, MakeEmpty, Working;
    var g := s.lock.sends[0];
    GoodAt(c, s, g);
    SendNextRoles(c, s);
    assert forall k :: k in s.lock.sends <==> k == g || k in s.lock.sends[1..];
    SentOnce(c, s);
  }

  lemma SentOnce(c: Config, s: State)
    requires Inv(c, s) && s.lock.Held? && s.lock.sends != []
    ensures s.lock.sends[0] !in s.lock.sends[1..]
  {
    hide Counts, Slots, Takers, Locations;
    assert forall i :: 0 < i < |s.lock.sends| ==> Sends(s.lock)[0] != Sends(s.lock)[i];
  }

  lemma SendNextSim(c: Config, s: State, a: AState)
    requires Inv(c, s) && Sim(c, s, a) && Enabled(c, s, SendNext)
    ensures Sim(c, Do(c, s, SendNext), a)
  {
    hide Inv, Sim, Busy, Engaged, Deref, Do, Locs, RoleOf, RuleEnabled;
    SimPort(c, s, a, s.lock.sends[0]);
    SentShape(c, s);
    LocalSim(c, s, Do(c, s, SendNext), a, a, s.lock.sends[0]);
  }

  lemma TimeOutSim(c: Config, s: State, a: AState, l: Loc)
    requires Inv(c, s) && Sim(c, s, a) && Enabled(c, s, TimeOut(l))
    ensures Sim(c, Do(c, s, TimeOut(l)), a)
  {
    hide Inv, Sim, PortsMatch, CellsMatch, PendingMatch, DataMatch, MovesMatch, Busy, Out, Closers, Putters, Getters,
      DoWork, DoRecv, DoFinalize, DoRevoke, FillGetters, Dispatch, Dispatched, RuleEnabled, DoSelect, Send, MakeEmpty,
      Working;
    SimPort(c, s, a, l);
    LocalSim(c, s, Do(c, s, TimeOut(l)), a, a, l);
  }

  lemma RevokeInTimeSim(c: Config, s: State, a: AState, l: Loc)
    requires Inv(c, s) && Sim(c, s, a) && l in s.call && s.call[l].phase.Revoking? && l in s.ready
    ensures Sim(c, DoRevoke(s, l), a.(port := a.port - {l}))
  {
    hide Inv, Sim, PortsMatch, CellsMatch, PendingMatch, DataMatch, MovesMatch, Busy, Out, Closers, Putters, Getters;
    SimPort(c, s, a, l);
    LocalSim(c, s, DoRevoke(s, l), a, a.(port := a.port - {l}), l);
  }

  lemma RevokeTooLateSim(c: Config, s: State, a: AState, l: Loc)
    requires Inv(c, s) && Sim(c, s, a) && l in s.call && s.call[l].phase.Revoking? && l !in s.ready
    ensures Sim(c, DoRevoke(s, l), a)
  {
    hide Inv, Sim, PortsMatch, CellsMatch, PendingMatch, DataMatch, MovesMatch, Busy, Out, Closers, Putters, Getters;
    SimPort(c, s, a, l);
    LocalSim(c, s, DoRevoke(s, l), a, a, l);
  }

  lemma RecvPutSim(c: Config, s: State, a: AState, l: Loc)
    requires Inv(c, s) && Sim(c, s, a) && l in s.call && l in s.box && BeforeMessage(s.call[l].phase) && s.call[l].Put?
    ensures Sim(c, DoRecv(c, s, l), a)
  {
    hide Inv, Sim, PortsMatch, CellsMatch, PendingMatch, DataMatch, MovesMatch, Busy, Out, Closers, Putters, Getters;
    SimPort(c, s, a, l);
    LocalSim(c, s, DoRecv(c, s, l), a, a, l);
  }

  lemma RecvGetSim(c: Config, s: State, a: AState, l: Loc)
    requires Inv(c, s) && Sim(c, s, a) && l in s.call && l in s.box && BeforeMessage(s.call[l].phase) && s.call[l].Get?
    ensures Sim(c, DoRecv(c, s, l), a)
  {
    hide Inv, Sim, PortsMatch, CellsMatch, PendingMatch, DataMatch, MovesMatch, Busy, Out, Closers, Putters, Getters;
    SimPort(c, s, a, l);
    MessagePutter(c, s, l);
    LocalSim(c, s, DoRecv(c, s, l), a, a, l);
  }

  lemma ReturnSim(c: Config, s: State, a: AState, l: Loc)
    requires Inv(c, s) && Sim(c, s, a) && Enabled(c, s, Return(l))
    ensures Sim(c, Do(c, s, Return(l)), a.(port := a.port - {l}))
  {
    hide Inv, Sim, PortsMatch, CellsMatch, PendingMatch, DataMatch, MovesMatch, Busy, Out, Closers, Putters, Getters,
      DoWork, DoRecv, DoFinalize, DoRevoke, FillGetters, Dispatch, Dispatched, RuleEnabled, DoSelect, Send, MakeEmpty,
      Working;
    SimPort(c, s, a, l);
    LocalSim(c, s, Do(c, s, Return(l)), a, a.(port := a.port - {l}), l);
  }

  // ---------------------------------------------------------------- acquiring data

  /** What a step inside `acquire_data` may change. */
  ghost predicate Acquiring(c: Config, s: State, s': State, g: Loc, src: Loc) {
    && g in s.call && s.call[g].Get? && g in s'.call && s'.call[g].Get?
    && s'.call == s.call[g := s'.call[g]] && s'.call[g].wants == s.call[g].wants
    && (s'.call[g].out == s.call[g].out || (s'.call[g].out.Some? && s'.call[g].out == Deref(s, src)))
    && (s'.ptr == s.ptr || (IsPoPu(c, src) && Hungry(s, g) && s'.ptr == s.ptr - {src} && s'.call[g].out.Some?))
    && s'.lock == s.lock && s'.ready == s.ready && s'.mem == s.mem && s'.store == s.store && s'.box == s.box
    && !BeforeMessage(s.call[g].phase) && !BeforeMessage(s'.call[g].phase) && !s'.call[g].phase.Starting?
    && Engaged(s, g) == Some(src)
  }

  lemma AcquireSim(c: Config, s: State, s': State, a: AState, g: Loc, src: Loc)
    requires Inv(c, s) && Sim(c, s, a) && Acquiring(c, s, s', g, src) && MovesMatch(c, s', a)
    requires !Hungry(s, g) ==> s'.call[g].out == s.call[g].out
    requires Engaged(s', g) == Engaged(s, g) || Engaged(s', g) == None
    ensures Sim(c, s', a)
  {
    hide Inv, PortsMatch, CellsMatch, PendingMatch, DataMatch, MovesMatch, PortMatch, Engaged, Busy, Locs, Putters,
      Getters;
    AcquirePort(c, s, s', a, g, src);
    PortsFrame(s, s', a, a, g);
    AcquireDeref(c, s, s', g, src);
    CellsFrame(c, s, s', a, a);
    forall k ensures k != g ==> Wants(s', k) == Wants(s, k) && Hungry(s', k) == Hungry(s, k) {
    }
    EngagedBusy(s);
    AcquireEngaged(c, s, s', g, src);
    PendingFrame(c, s, s', a, a);
    SoleTaker(c, s, g, src);
    DataFrame(s, s', a, a);
  }

  lemma AcquireEngaged(c: Config, s: State, s': State, g: Loc, src: Loc)
    requires Inv(c, s) && Acquiring(c, s, s', g, src)
    ensures forall k :: k != g ==> Engaged(s', k) == Engaged(s, k)
    ensures src !in Putters(Rest(s.lock)) && g !in Locs(Rest(s.lock)) && IsPutter(c, src)
  {
    hide Counts, Slots, Takers, Locations, ActionsOk, Putters, Getters, Busy, Deref;
    EngagedBusy(s);
    MessagePutter(c, s, g);
    GoodAt(c, s, src);
    GoodAt(c, s, g);
    PendingPutters(c, s);
    assert g in Locs(Rest(s.lock)) ==> RoleOf(s.lock, g) != Idle;
  }

  lemma AcquirePort(c: Config, s: State, s': State, a: AState, g: Loc, src: Loc)
    requires Inv(c, s) && Sim(c, s, a) && Acquiring(c, s, s', g, src)
    requires !Hungry(s, g) ==> s'.call[g].out == s.call[g].out
    ensures PortMatch(g in s'.ready, Lookup(s'.box, g), Lookup(s'.call, g), Lookup(a.port, g))
  {
    hide Inv, CellsMatch, PendingMatch, MovesMatch, Deref, Engaged, Busy;
    SimPort(c, s, a, g);
  }

  /** Only the source's own pointer is affected, and only a port's. */
  lemma AcquireDeref(c: Config, s: State, s': State, g: Loc, src: Loc)
    requires Inv(c, s) && Acquiring(c, s, s', g, src)
    ensures forall p :: p != src ==> Deref(s', p) == Deref(s, p)
    ensures IsMemo(c, src) ==> Deref(s', src) == Deref(s, src)
    ensures s'.ptr == s.ptr ==> Deref(s', src) == Deref(s, src)
  {
    hide Inv, Engaged;
    forall p ensures (p != src || s'.ptr == s.ptr) ==> Deref(s', p) == Deref(s, p) {
      if p == g {
        GetterNoPointer(c, s, g);
      }
    }
  }

  lemma GetterNoPointer(c: Config, s: State, g: Loc)
    requires Inv(c, s) && g in s.call && s.call[g].Get?
    ensures g !in s.ptr
  {
    hide Counts, Slots, Takers, LockOk, Locations, Busy;
    GoodAt(c, s, g);
  }

  lemma SoleTaker(c: Config, s: State, g: Loc, src: Loc)
    requires Inv(c, s) && Engaged(s, g) == Some(src)
    ensures Hungry(s, g) && IsPoPu(c, src) ==> forall h :: Engaged(s, h) == Some(src) && Hungry(s, h) ==> h == g
  {
    hide Counts, Slots, Takers, LockOk, Locations, Engaged;
    if Hungry(s, g) {
      OnlyTaker(c, s, g, src);
    }
  }

  /** A getter that goes on without touching the flags of `Copy` data. */
  lemma QuietAcquireSim(c: Config, s: State, s': State, a: AState, g: Loc, src: Loc)
    requires Inv(c, s) && Sim(c, s, a) && Acquiring(c, s, s', g, src)
    requires !Hungry(s, g) ==> s'.call[g].out == s.call[g].out
    requires Engaged(s', g) == Engaged(s, g) || Engaged(s', g) == None
    requires !s.call[g].phase.Mark? && !s'.call[g].phase.Mark? && !s'.call[g].phase.Finalizing?
    requires s'.flags == s.flags || !c.isCopy
    ensures Sim(c, s', a)
  {
    hide Inv, PortsMatch, CellsMatch, PendingMatch, DataMatch, MovesMatch, Engaged, Deref;
    AcquireEngaged(c, s, s', g, src);
    forall k ensures k != g ==> Wants(s', k) == Wants(s, k) && Unmarked(s', k) == Unmarked(s, k) {
    }
    MovesFrame(c, s, s', a, a);
    AcquireSim(c, s, s', a, g, src);
  }

  /** The last getter learns whether anyone took the datum. */
  lemma FinalAcquireSim(c: Config, s: State, s': State, a: AState, g: Loc, src: Loc)
    requires Inv(c, s) && Sim(c, s, a) && Acquiring(c, s, s', g, src)
    requires !Hungry(s, g) ==> s'.call[g].out == s.call[g].out
    requires Engaged(s', g) == Engaged(s, g) && LastOut(s.call[g].phase) && !s.call[g].phase.Finalizing?
    requires s'.flags == s.flags || !c.isCopy
    requires s'.call[g].phase == Finalizing(src, if c.isCopy then FlagsMoved(s, src) else Wants(s, g))
    ensures Sim(c, s', a)
  {
    hide Inv, PortsMatch, CellsMatch, PendingMatch, DataMatch, Engaged, Deref, FlagsMoved;
    AcquireEngaged(c, s, s', g, src);
    LastEngaged(c, s, g, src);
    FlagsSame(c, s, s');
    forall k | Engaged(s', k).Some? && IsPoPu(c, Engaged(s', k).value)
      ensures MovedMatch(c, s', a, k, Engaged(s', k).value)
    {
      assert MovedMatch(c, s, a, k, Engaged(s, k).value);
      FinalMoved(c, s, s', a, g, src, k);
    }
    AcquireSim(c, s, s', a, g, src);
  }

  lemma FlagsSame(c: Config, s: State, s': State)
    requires s'.flags == s.flags || !c.isCopy
    ensures c.isCopy ==> forall p :: FlagsMoved(s', p) == FlagsMoved(s, p)
  {
  }

  lemma FinalMoved(c: Config, s: State, s': State, a: AState, g: Loc, src: Loc, k: Loc)
    requires Acquiring(c, s, s', g, src) && Engaged(s', k).Some? && MovedMatch(c, s, a, k, Engaged(s, k).value)
    requires forall j :: Engaged(s', j) == Engaged(s, j)
    requires forall j :: Engaged(s, j) == Some(src) ==> j == g
    requires c.isCopy ==> forall p :: FlagsMoved(s', p) == FlagsMoved(s, p)
    requires s'.call[g].phase == Finalizing(src, if c.isCopy then FlagsMoved(s, src) else Wants(s, g))
    requires LastOut(s.call[g].phase) && !s.call[g].phase.Finalizing?
    ensures MovedMatch(c, s', a, k, Engaged(s, k).value)
  {
    hide Engaged, Deref, FlagsMoved;
    var p := Engaged(s, k).value;
    if c.isCopy && a.port[p].moved && !FlagsMoved(s, p) {
      var h :| Engaged(s, h) == Some(p) && Unmarked(s, h);
      assert h != g;
      assert Engaged(s', h) == Some(p) && Unmarked(s', h);
    }
  }

  lemma LastEngaged(c: Config, s: State, g: Loc, src: Loc)
    requires Inv(c, s) && Engaged(s, g) == Some(src) && g in s.call && LastOut(s.call[g].phase)
    ensures forall k :: Engaged(s, k) == Some(src) ==> k == g
  {
    hide Locations, Slots, Takers, LockOk;
    assert g in Closers(s, src) && Busy(s, src);
    forall k | Engaged(s, k) == Some(src) ensures k == g {
      assert Pledge(s, k) == Some(src) ==> k in Out(s, src);
    }
  }

  /** Marking: the datum was going to be taken anyway. */
  lemma MarkSim(c: Config, s: State, a: AState, g: Loc)
    requires Inv(c, s) && Sim(c, s, a) && Getting(s, g) && s.call[g].phase.Mark?
    ensures Sim(c, DoWork(c, s, g), a)
  {
    hide Inv, PortsMatch, CellsMatch, PendingMatch, DataMatch, Deref;
    var src, s' := s.call[g].phase.src, DoWork(c, s, g);
    WorkingGood(c, s, g);
    assert Acquiring(c, s, s', g, src);
    AcquireEngaged(c, s, s', g, src);
    MarkedMoves(c, s, s', a, g, src);
    AcquireSim(c, s, s', a, g, src);
  }

  lemma MarkedMoves(c: Config, s: State, s': State, a: AState, g: Loc, src: Loc)
    requires MovesMatch(c, s, a) && Acquiring(c, s, s', g, src) && Wants(s, g) && c.isCopy
    requires s'.flags == s.flags[src := Flags(true, false)] && s'.call[g].phase == Copying(src)
    requires forall k :: Engaged(s', k) == Engaged(s, k)
    ensures MovesMatch(c, s', a)
  {
    hide Engaged, Deref;
    forall k | Engaged(s', k).Some? && IsPoPu(c, Engaged(s', k).value)
      ensures MovedMatch(c, s', a, k, Engaged(s', k).value)
    {
      var p := Engaged(s, k).value;
      assert MovedMatch(c, s, a, k, p);
      if p == src {
        assert MovedMatch(c, s, a, g, src);
      } else if a.port[p].moved && !FlagsMoved(s, p) {
        var h :| Engaged(s, h) == Some(p) && Unmarked(s, h);
        assert Engaged(s', h) == Some(p) && Unmarked(s', h);
      }
    }
  }

  lemma CopyingSim(c: Config, s: State, a: AState, g: Loc)
    requires Inv(c, s) && Sim(c, s, a) && Getting(s, g) && s.call[g].phase.Copying?
    ensures Sim(c, DoWork(c, s, g), a)
  {
    hide Inv, PortsMatch, CellsMatch, PendingMatch, DataMatch, MovesMatch, Deref;
    WorkingGood(c, s, g);
    DatumThere(c, s, g);
    QuietAcquireSim(c, s, DoWork(c, s, g), a, g, s.call[g].phase.src);
  }

  lemma LeavingSim(c: Config, s: State, a: AState, g: Loc)
    requires Inv(c, s) && Sim(c, s, a) && Getting(s, g) && s.call[g].phase.Leaving?
    ensures Sim(c, DoWork(c, s, g), a)
  {
    hide Inv, PortsMatch, CellsMatch, PendingMatch, DataMatch, MovesMatch, Deref;
    WorkingGood(c, s, g);
    QuietAcquireSim(c, s, DoWork(c, s, g), a, g, s.call[g].phase.src);
  }

  lemma ReadingSim(c: Config, s: State, a: AState, g: Loc)
    requires Inv(c, s) && Sim(c, s, a) && Getting(s, g) && s.call[g].phase.Reading?
    ensures Sim(c, DoWork(c, s, g), a)
  {
    hide Inv, PortsMatch, CellsMatch, PendingMatch, DataMatch, MovesMatch, Deref;
    WorkingGood(c, s, g);
    FinalAcquireSim(c, s, DoWork(c, s, g), a, g, s.call[g].phase.src);
  }

  lemma AskingSim(c: Config, s: State, a: AState, g: Loc)
    requires Inv(c, s) && Sim(c, s, a) && Getting(s, g) && s.call[g].phase.Asking?
    ensures Sim(c, DoWork(c, s, g), a)
  {
    hide Inv, PortsMatch, CellsMatch, PendingMatch, DataMatch, MovesMatch, Deref;
    WorkingGood(c, s, g);
    QuietAcquireSim(c, s, DoWork(c, s, g), a, g, s.call[g].phase.src);
  }

  lemma WonLeavingSim(c: Config, s: State, a: AState, g: Loc)
    requires Inv(c, s) && Sim(c, s, a) && Getting(s, g) && s.call[g].phase.WonLeaving?
    ensures Sim(c, DoWork(c, s, g), a)
  {
    hide Inv, PortsMatch, CellsMatch, PendingMatch, DataMatch, MovesMatch, Deref;
    WorkingGood(c, s, g);
    QuietAcquireSim(c, s, DoWork(c, s, g), a, g, s.call[g].phase.src);
  }

  lemma MovingSim(c: Config, s: State, a: AState, g: Loc)
    requires Inv(c, s) && Sim(c, s, a) && Getting(s, g) && s.call[g].phase.Moving?
    ensures Sim(c, DoWork(c, s, g), a)
  {
    hide Inv, PortsMatch, CellsMatch, PendingMatch, DataMatch, MovesMatch, Deref;
    WorkingGood(c, s, g);
    DatumThere(c, s, g);
    FinalAcquireSim(c, s, DoWork(c, s, g), a, g, s.call[g].phase.src);
  }

  lemma SignalLeavingSim(c: Config, s: State, a: AState, g: Loc)
    requires Inv(c, s) && Sim(c, s, a) && Getting(s, g) && s.call[g].phase.SignalLeaving?
    ensures Sim(c, DoWork(c, s, g), a)
  {
    hide Inv, PortsMatch, CellsMatch, PendingMatch, DataMatch, MovesMatch, Deref;
    WorkingGood(c, s, g);
    QuietAcquireSim(c, s, DoWork(c, s, g), a, g, s.call[g].phase.src);
  }

  lemma AskingLastSim(c: Config, s: State, a: AState, g: Loc)
    requires Inv(c, s) && Sim(c, s, a) && Getting(s, g) && s.call[g].phase.AskingLast?
    ensures Sim(c, DoWork(c, s, g), a)
  {
    hide Inv, PortsMatch, CellsMatch, PendingMatch, DataMatch, MovesMatch, Deref;
    WorkingGood(c, s, g);
    FinalAcquireSim(c, s, DoWork(c, s, g), a, g, s.call[g].phase.src);
  }

  lemma WorkSim(c: Config, s: State, a: AState, g: Loc)
    requires Inv(c, s) && Sim(c, s, a) && Getting(s, g) && Working(s, g)
    ensures Sim(c, DoWork(c, s, g), a)
  {
    hide Inv, Sim, DoWork, Engaged;
    WorkingGood(c, s, g);
    match s.call[g].phase
    case Mark(_) => MarkSim(c, s, a, g);
    case Copying(_) => CopyingSim(c, s, a, g);
    case Leaving(_) => LeavingSim(c, s, a, g);
    case Reading(_) => ReadingSim(c, s, a, g);
    case Asking(_) => AskingSim(c, s, a, g);
    case WonLeaving(_) => WonLeavingSim(c, s, a, g);
    case Moving(_) => MovingSim(c, s, a, g);
    case SignalLeaving(_) => SignalLeavingSim(c, s, a, g);
    case AskingLast(_) => AskingLastSim(c, s, a, g);
  }
}
