/** A firing out of scope goes wrong: from every reachable state in which one is about to happen some run leads to the
    failure, and without one there is no such run. */
module OutOfScope {
  import opened Wrappers
  import opened Protocol
  import opened ProtocolInvariant
  import opened ProtocolFiring
  import opened ProtocolSafety
  import opened StepEffects
  import opened Runs
  import opened Outcomes

  // ---------------------------------------------------------------- some run leads there

  ghost predicate Leads(c: Config, s: State, t: State)
  {
    exists steps :: ValidRun(c, s, steps) && Run(c, s, steps) == t
  }

  ghost predicate CanFault(c: Config, s: State) { exists t :: Leads(c, s, t) && t.fault }

  lemma LeadsStep(c: Config, s: State, step: Step)
    requires Enabled(c, s, step)
    ensures Leads(c, s, Do(c, s, step))
  {
    hide Enabled, Do;
    OneStep(c, s, step);
  }

  lemma LeadsOn(c: Config, s: State, t: State, u: State)
    requires Leads(c, s, t) && Leads(c, t, u)
    ensures Leads(c, s, u)
  {
    hide ValidRun, Run;
    var steps :| ValidRun(c, s, steps) && Run(c, s, steps) == t;
    var more :| ValidRun(c, t, more) && Run(c, t, more) == u;
    RunOn(c, s, steps, more);
  }

  lemma LeadsFault(c: Config, s: State, t: State)
    requires Leads(c, s, t) && CanFault(c, t)
    ensures CanFault(c, s)
  {
    hide Leads;
    var u :| Leads(c, t, u) && u.fault;
    LeadsOn(c, s, t, u);
  }

  // ---------------------------------------------------------------- the lock holder finishes

  /** Firing steps from `s` to a state in which the holder releases the lock. */
  ghost predicate Releases(c: Config, s: State, steps: seq<Step>, s': State) {
    Reaches(c, s, steps, s') && Enabled(c, s', Release)
  }

  ghost predicate CanRelease(c: Config, s: State) { exists steps, s' :: Releases(c, s, steps, s') }

  lemma AfterFiring(c: Config, s: State, step: Step)
    requires Enabled(c, s, step) && Firing(step) && CanRelease(c, Do(c, s, step))
    ensures CanRelease(c, s)
  {
    hide Enabled, Do, Reaches;
    var steps, s' :| Releases(c, Do(c, s, step), steps, s');
    FiringStep(c, s, step);
    ReachesOn(c, s, [step], Do(c, s, step), steps, s');
    assert Releases(c, s, [step] + steps, s');
  }

  /** If every rule involves a port, the lock is released at some time. */
  lemma {:induction false} PortRulesRelease(c: Config, s: State)
    requires ConfigOk(c) && PortRules(c) && ActionsOk(c, Rest(s.lock)) && s.lock.Held?
    ensures CanRelease(c, s)
    decreases |ReadyPorts(c, s.ready)|, |s.lock.rest|, |s.lock.sends|
  {
    hide ConfigOk, PortRules, ActionsOk, ReadyPorts, CanRelease, Enabled, Do;
    var step := HolderMoves(c, s);
    if step.Release? {
      ReleasesNow(c, s);
    } else {
      Onward(c, s, step);
      if step.Select? {
        FewerPorts(c, s, step.i);
      }
      PortRulesRelease(c, Do(c, s, step));
      AfterFiring(c, s, step);
    }
  }

  lemma ReleasesNow(c: Config, s: State)
    requires Enabled(c, s, Release)
    ensures CanRelease(c, s)
  {
    hide Enabled;
    ReachesNone(c, s);
    assert Releases(c, s, [], s);
  }

  lemma Onward(c: Config, s: State, step: Step)
    requires ConfigOk(c) && ActionsOk(c, Rest(s.lock)) && Enabled(c, s, step) && Firing(step)
    ensures var s' := Do(c, s, step);
            && s'.lock.Held? && ActionsOk(c, s'.lock.rest)
            && (step.SendNext? ==> s'.lock.rest == s.lock.rest && |s'.lock.sends| < |s.lock.sends|)
            && (step.Perform? ==> |s'.lock.rest| < |s.lock.rest|)
            && (!step.Select? ==> ReadyPorts(c, s'.ready) == ReadyPorts(c, s.ready))
            && (step.Select? ==> s'.ready == s.ready - c.rules[step.i].guardReady)
  {
    hide Do, ConfigOk, ActionsOk, ReadyPorts, RuleEnabled;
    FiringReady(c, s, step);
    FiringEffect(c, s, step);
  }

  // ---------------------------------------------------------------- what the lock holder leaves alone

  predicate Distinct(xs: seq<Loc>) { forall i, j :: 0 <= i < j < |xs| ==> xs[i] != xs[j] }

  /** The firing has dealt with putter `p` and its getters `gs`: their messages are with them or are sent next, and
      nothing else that the lock holder does concerns them. */
  ghost predicate Due(c: Config, s: State, p: Loc, gs: set<Loc>) {
    && IsPutter(c, p) && (forall g <- gs :: IsPoGe(c, g))
    && p !in s.ready && p !in Locs(Rest(s.lock)) && (forall g <- gs :: g !in s.ready && g !in Locs(Rest(s.lock)))
    && (forall g <- gs :: if g in Sends(s.lock) then s.lock.src == p && g !in s.box else g in s.box && s.box[g] == p)
    && (Sends(s.lock) != [] && s.lock.src == p ==> forall g <- Sends(s.lock) :: g in gs)
    && Distinct(Sends(s.lock))
    && (forall l <- s.box :: s.box[l] == p ==> l in gs || IsPoPu(c, l))
  }

  /** Nobody's call and no semaphore have changed, nor anything of `p`. */
  ghost predicate KeptFor(s: State, s': State, p: Loc) {
    && s'.call == s.call && s'.sema == s.sema
    && Lookup(s'.ptr, p) == Lookup(s.ptr, p) && Lookup(s'.count, p) == Lookup(s.count, p)
    && Lookup(s'.flags, p) == Lookup(s.flags, p)
  }

  lemma SelectDue(c: Config, s: State, i: nat, p: Loc, gs: set<Loc>)
    requires ConfigOk(c) && Due(c, s, p, gs) && Enabled(c, s, Select(i))
    ensures Due(c, Do(c, s, Select(i)), p, gs) && KeptFor(s, Do(c, s, Select(i)), p)
  {
    hide DoSelect, ActionsOk, Locs;
    SelectEffect(s, c.rules[i]);
    assert RuleOk(c, c.rules[i]);
  }

  lemma FirstOnce(xs: seq<Loc>)
    requires xs != [] && Distinct(xs)
    ensures forall x :: x in xs[1..] <==> x in xs && x != xs[0]
    ensures xs[0] in xs && Distinct(xs[1..])
  {
  }

  lemma SendDue(c: Config, s: State, p: Loc, gs: set<Loc>)
    requires Due(c, s, p, gs) && Enabled(c, s, SendNext)
    ensures Due(c, Do(c, s, SendNext), p, gs) && KeptFor(s, Do(c, s, SendNext), p)
  {
    hide Send, Locs;
    SendLeaves(s, s.lock.sends[0], s.lock.src);
    FirstOnce(s.lock.sends);
  }

  lemma PerformDue(c: Config, s: State, slot: Ptr, p: Loc, gs: set<Loc>)
    requires Due(c, s, p, gs) && Enabled(c, s, Perform(slot)) && ActionsOk(c, Rest(s.lock))
    ensures Due(c, Do(c, s, Perform(slot)), p, gs) && KeptFor(s, Do(c, s, Perform(slot)), p)
  {
    hide FillGetters, Dispatch, Dispatched, Performed, ActionsOk, DisableMove, Locs;
    PerformTransfers(c, s, slot);
    PerformDoes(c, s, slot);
    FirstAction(c, s.lock.rest);
    FirstLocs(s.lock.rest, p);
    forall g <- gs
      ensures g != s.lock.rest[0].putter && g !in s.lock.rest[0].mg && g !in s.lock.rest[0].pg
      ensures g !in Locs(s.lock.rest[1..])
    {
      FirstLocs(s.lock.rest, g);
    }
  }

  lemma FiringDue(c: Config, s: State, step: Step, p: Loc, gs: set<Loc>)
    requires ConfigOk(c) && ActionsOk(c, Rest(s.lock)) && Due(c, s, p, gs) && Enabled(c, s, step) && Firing(step)
    ensures Due(c, Do(c, s, step), p, gs) && KeptFor(s, Do(c, s, step), p) && ActionsOk(c, Rest(Do(c, s, step).lock))
  {
    hide Do, ConfigOk, ActionsOk, ReadyPorts, RuleEnabled, Due, KeptFor;
    FiringReady(c, s, step);
    match step
    case Select(i) => SelectDue(c, s, i, p, gs);
    case Perform(slot) => PerformDue(c, s, slot, p, gs);
    case SendNext => SendDue(c, s, p, gs);
  }

  lemma {:induction false} FiringsDue(c: Config, s: State, steps: seq<Step>, p: Loc, gs: set<Loc>)
    requires ConfigOk(c) && ActionsOk(c, Rest(s.lock)) && Due(c, s, p, gs) && ValidRun(c, s, steps) && AllFiring(steps)
    ensures Due(c, Run(c, s, steps), p, gs) && KeptFor(s, Run(c, s, steps), p)
    decreases |steps|
  {
    hide Do, ConfigOk, ActionsOk, Enabled, Due;
    if steps != [] {
      FiringDue(c, s, steps[0], p, gs);
      FiringsDue(c, Do(c, s, steps[0]), steps[1..], p, gs);
    }
  }

  // ---------------------------------------------------------------- from the firing to its messages

  predicate Summoned(s: State, g: Loc, p: Loc) {
    && g in s.call && s.call[g].Get? && BeforeMessage(s.call[g].phase) && s.call[g].out.None?
    && g in s.box && s.box[g] == p && g !in s.ready
  }

  /** The lock is free and all messages of `p`'s firing are with its getters `gs`; nobody else is concerned with `p`. */
  ghost predicate Gathered(c: Config, s: State, p: Loc, gs: set<Loc>) {
    && s.lock.Free? && IsPutter(c, p) && p !in s.ready && p in s.count && s.count[p] == |gs| && p in s.flags
    && (forall g <- gs :: Summoned(s, g, p))
    && (forall l <- s.box :: s.box[l] == p ==> l in gs || IsPoPu(c, l))
    && (forall l <- s.call :: s.call[l].Get? && Sourced(s.call[l].phase) ==> s.call[l].phase.src != p)
  }

  /** Whether the firing leaves the move to its getters: not if the putter is a cell whose slot has other holders. */
  predicate MovesAllowed(c: Config, s: State, a: Action) { IsMemo(c, a.putter) ==> Exclusive(c, s, a) }

  lemma FillFree(c: Config, s: State, slot: Ptr)
    requires Inv(c, s) && Performing(c, s) && slot !in s.store
    ensures DisableMove(c, FillGetters(c, s, s.lock.rest[0], slot), s.lock.rest[0].putter)
      == !MovesAllowed(c, s, s.lock.rest[0])
  {
    hide Locations, Counts, Takers, LockOk, ActionsOk, FillGetters;
    if IsMemo(c, s.lock.rest[0].putter) {
      FillShape(c, s, slot);
      PerformGood(c, s);
    }
  }

  lemma FilledReady(c: Config, s: State, slot: Ptr)
    requires s.lock.Held? && s.lock.rest != [] && s.lock.rest[0].pg != []
    ensures var a, s' := s.lock.rest[0], Performed(c, s, slot);
            && s'.lock == s.lock.(src := a.putter, sends := a.pg, rest := s.lock.rest[1..])
            && (s'.ready == s.ready || s'.ready == s.ready + SetOf(a.mg)) && s'.box == s.box && s'.call == s.call
            && s'.sema == s.sema
            && s'.count == s.count[a.putter := |a.pg|]
            && s'.flags == s.flags[a.putter := Flags(false, !DisableMove(c, FillGetters(c, s, a, slot), a.putter))]
            && (a.putter !in a.mg ==> Lookup(s'.ptr, a.putter) == Lookup(s.ptr, a.putter))
  {
    hide FillGetters, Dispatch, DisableMove, Transfers;
    var a := s.lock.rest[0];
    var s1 := FillGetters(c, s, a, slot);
    FillGettersFilled(c, s, a, slot);
    ArmTransfers(c, s1, a);
  }

  /** Nobody is at work on the putter of the next action, and no message names it. */
  lemma Unconcerned(c: Config, s: State, l: Loc)
    requires Inv(c, s) && Performing(c, s)
    ensures l in s.box && s.box[l] == s.lock.rest[0].putter ==> IsPoPu(c, l)
    ensures l in s.call && s.call[l].Get? && Sourced(s.call[l].phase) ==> s.call[l].phase.src != s.lock.rest[0].putter
  {
    hide Locations, Counts, Slots, Takers, LockOk, ActionsOk;
    var p := s.lock.rest[0].putter;
    PerformGood(c, s);
    GoodAt(c, s, l);
    assert Pledge(s, l) == Some(p) ==> l in Out(s, p);
    assert Closing(s, l) == Some(p) ==> l in Closers(s, p);
  }

  lemma GetterKind(c: Config, a: Action, g: Loc)
    requires ActionOk(c, a) && g in a.pg
    ensures IsPoGe(c, g)
  {
  }

  lemma GetterRole(c: Config, s: State, g: Loc)
    requires Inv(c, s) && Performing(c, s) && g in s.lock.rest[0].pg
    ensures IsPoGe(c, g) && g !in s.ready && g !in s.box && g !in s.lock.rest[0].mg && g !in Locs(s.lock.rest[1..])
    ensures g in s.call && s.call[g].Get? && BeforeMessage(s.call[g].phase) && s.call[g].out.None?
  {
    hide Locations, Counts, Slots, Takers, ActionsOk, ActionOk, Locs;
    PerformGood(c, s);
    RumpScope(c, s.lock.rest[0]);
    RumpApart(c, s.lock.rest);
    GetterKind(c, s.lock.rest[0], g);
    GoodAt(c, s, g);
  }

  /** A firing step that performs an action with port getters leaves their messages to be sent next. */
  lemma PerformMakesDue(c: Config, s: State, slot: Ptr)
    requires Inv(c, s) && Enabled(c, s, Perform(slot)) && s.lock.rest[0].pg != []
    ensures Due(c, Performed(c, s, slot), s.lock.rest[0].putter, SetOf(s.lock.rest[0].pg))
    ensures ActionsOk(c, s.lock.rest[1..])
  {
    hide Inv, FillGetters, Dispatch, DisableMove, Performed, ActionsOk, ActionOk, Locs;
    var a := s.lock.rest[0];
    var s' := Performed(c, s, slot);
    FilledReady(c, s, slot);
    PutterRole(c, s);
    forall g <- a.pg
      ensures IsPoGe(c, g) && g !in s.ready && g !in s.box && g !in a.mg && g !in Locs(s.lock.rest[1..])
    {
      GetterRole(c, s, g);
    }
    forall l <- s.box | s.box[l] == a.putter ensures IsPoPu(c, l) {
      Unconcerned(c, s, l);
    }
  }

  lemma PutterRole(c: Config, s: State)
    requires Inv(c, s) && Performing(c, s)
    ensures var a := s.lock.rest[0];
            && IsPutter(c, a.putter) && a.putter !in s.ready && a.putter !in a.mg && a.putter !in Locs(s.lock.rest[1..])
            && Distinct(a.pg) && ActionsOk(c, s.lock.rest[1..])
  {
    hide Locations, Counts, Slots, Takers, Locs;
    PerformGood(c, s);
    RumpApart(c, s.lock.rest);
  }

  lemma FirstPerforms(c: Config, s: State, steps: seq<Step>, s': State)
    requires Performing(c, s) && Releases(c, s, steps, s')
    ensures steps != [] && steps[0].Perform? && Enabled(c, s, steps[0])
    ensures ValidRun(c, Do(c, s, steps[0]), steps[1..]) && AllFiring(steps[1..])
    ensures Run(c, Do(c, s, steps[0]), steps[1..]) == s'
  {
    hide Do, RuleEnabled;
    assert steps != [] ==> Firing(steps[0]);
  }

  lemma LeadsRelease(c: Config, s: State, steps: seq<Step>, s': State)
    requires Releases(c, s, steps, s')
    ensures Leads(c, s, Do(c, s', Release))
  {
    hide Enabled, Do;
    assert Leads(c, s, s');
    LeadsStep(c, s', Release);
    LeadsOn(c, s, s', Do(c, s', Release));
  }

  /** A putter with messages due to its getters, none of which is at work yet. */
  ghost predicate Fired(c: Config, s: State, p: Loc, gs: set<Loc>) {
    && Due(c, s, p, gs) && p in s.count && s.count[p] == |gs| && p in s.flags
    && (forall g <- gs :: g in s.call && s.call[g].Get? && BeforeMessage(s.call[g].phase) && s.call[g].out.None?)
    && (forall l <- s.call :: s.call[l].Get? && Sourced(s.call[l].phase) ==> s.call[l].phase.src != p)
  }

  lemma FiredReleased(c: Config, s: State, s': State, p: Loc, gs: set<Loc>)
    requires Fired(c, s, p, gs) && Due(c, s', p, gs) && KeptFor(s, s', p) && Enabled(c, s', Release)
    ensures Gathered(c, Do(c, s', Release), p, gs) && Do(c, s', Release) == s'.(lock := Free)
  {
    hide RuleEnabled;
    assert Lookup(s'.count, p) == Lookup(s.count, p);
    assert Lookup(s'.flags, p) == Lookup(s.flags, p);
  }

  lemma PerformFires(c: Config, s: State, slot: Ptr)
    requires Inv(c, s) && Enabled(c, s, Perform(slot)) && s.lock.rest[0].pg != []
    ensures var a, s' := s.lock.rest[0], Performed(c, s, slot);
            && Fired(c, s', a.putter, SetOf(a.pg)) && |SetOf(a.pg)| == |a.pg| && ActionsOk(c, Rest(s'.lock))
            && s'.flags[a.putter] == Flags(false, MovesAllowed(c, s, a)) && s'.call == s.call && s'.sema == s.sema
            && Lookup(s'.ptr, a.putter) == Lookup(s.ptr, a.putter)
  {
    hide Inv, FillGetters, DisableMove, Performed, ActionsOk, Locs, Due, Exclusive;
    var a := s.lock.rest[0];
    PerformMakesDue(c, s, slot);
    FillFree(c, s, slot);
    FilledReady(c, s, slot);
    PutterRole(c, s);
    DistinctSize(a.pg);
    forall g <- a.pg ensures g in s.call && s.call[g].Get? && BeforeMessage(s.call[g].phase) && s.call[g].out.None? {
      GetterRole(c, s, g);
    }
    forall l <- s.call | s.call[l].Get? && Sourced(s.call[l].phase) ensures s.call[l].phase.src != a.putter {
      Unconcerned(c, s, l);
    }
  }

  /** When the holder releases the lock, all messages of the firing are in their dropboxes. */
  lemma ReleasedGathered(c: Config, s: State, steps: seq<Step>, s': State)
    requires ConfigOk(c) && Inv(c, s) && Performing(c, s) && s.lock.rest[0].pg != [] && Releases(c, s, steps, s')
    ensures var a, t := s.lock.rest[0], Do(c, s', Release);
            && Leads(c, s, t) && Gathered(c, t, a.putter, SetOf(a.pg)) && |SetOf(a.pg)| == |a.pg|
            && t.flags[a.putter] == Flags(false, MovesAllowed(c, s, a)) && t.call == s.call && t.sema == s.sema
            && Lookup(t.ptr, a.putter) == Lookup(s.ptr, a.putter)
  {
    hide Inv, Do, ConfigOk, ActionsOk, Due, Enabled, Performed, MovesAllowed, Gathered, Leads, AllFiring, Fired;
    var a := s.lock.rest[0];
    FirstPerforms(c, s, steps, s');
    var slot := steps[0].slot;
    var s1 := Performed(c, s, slot);
    PerformDoes(c, s, slot);
    PerformFires(c, s, slot);
    FiredDue(c, s1, a.putter, SetOf(a.pg));
    FiringsDue(c, s1, steps[1..], a.putter, SetOf(a.pg));
    FiredReleased(c, s1, s', a.putter, SetOf(a.pg));
    LeadsRelease(c, s, steps, s');
  }

  lemma FiredDue(c: Config, s: State, p: Loc, gs: set<Loc>)
    requires Fired(c, s, p, gs)
    ensures Due(c, s, p, gs) && p in s.flags
  {
  }

  // ---------------------------------------------------------------- getters take their messages

  function Arrived(c: Config, s: State, g: Loc, p: Loc): State
    requires g in s.call && s.call[g].Get?
  {
    s.(box := s.box - {g}, call := s.call[g := WithPhase(s.call[g], AfterMessage(c, s.call[g].wants, p))])
  }

  lemma Receives(c: Config, s: State, g: Loc, p: Loc)
    requires s.lock.Free? && IsPutter(c, p) && g in s.call && s.call[g].Get? && g in s.box && s.box[g] == p
    requires s.call[g].phase.Waiting? || s.call[g].phase.Late?
    ensures Enabled(c, s, Recv(g)) && Do(c, s, Recv(g)) == Arrived(c, s, g, p)
  {
    hide AfterMessage;
  }

  lemma TooLate(c: Config, s: State, g: Loc)
    requires s.lock.Free? && g in s.call && s.call[g].phase.Revoking? && g !in s.ready
    ensures Enabled(c, s, Revoke(g)) && Do(c, s, Revoke(g)) == s.(call := s.call[g := WithPhase(s.call[g], Late)])
  {
  }

  /** A getter whose message is there gets it, having timed out or not. */
  lemma Arrives(c: Config, s: State, g: Loc, p: Loc)
    requires s.lock.Free? && IsPutter(c, p) && Summoned(s, g, p)
    ensures Leads(c, s, Arrived(c, s, g, p))
  {
    hide Enabled, Do, Arrived, AfterMessage, Leads;
    if s.call[g].phase.Revoking? {
      TooLate(c, s, g);
      var s1 := Do(c, s, Revoke(g));
      Receives(c, s1, g, p);
      LeadsStep(c, s, Revoke(g));
      LeadsStep(c, s1, Recv(g));
      LateArrived(c, s, g, p);
      LeadsOn(c, s, s1, Arrived(c, s, g, p));
    } else {
      Receives(c, s, g, p);
      LeadsStep(c, s, Recv(g));
    }
  }

  lemma LateArrived(c: Config, s: State, g: Loc, p: Loc)
    requires g in s.call && s.call[g].Get?
    ensures Arrived(c, s.(call := s.call[g := WithPhase(s.call[g], Late)]), g, p) == Arrived(c, s, g, p)
  {
    hide AfterMessage;
  }

  /** The getter runs one operation of `acquire_data`. */
  lemma Works(c: Config, s: State, g: Loc)
    requires s.lock.Free? && g in s.call && s.call[g].Get? && Working(s, g)
    ensures Leads(c, s, DoWork(c, s, g)) && DoWork(c, s, g).lock.Free?
  {
    hide DoWork, Working, Leads;
    WorkProceeds(c, s, g);
    LeadsStep(c, s, Work(g));
  }

  lemma ArrivesThen(c: Config, s: State, g: Loc, p: Loc)
    requires s.lock.Free? && IsPutter(c, p) && Summoned(s, g, p)
    ensures var t := Arrived(c, s, g, p);
            && Leads(c, s, t) && t.lock.Free? && g in t.call && t.call[g].Get? && Working(t, g)
            && t.call[g].phase.src == p
            && t.call[g].phase == AfterMessage(c, s.call[g].wants, p) && t == s.(box := t.box, call := t.call)
            && (forall l :: l != g ==> Lookup(t.call, l) == Lookup(s.call, l) && Lookup(t.box, l) == Lookup(s.box, l))
            && t.call[g].out.None? && t.call[g].wants == s.call[g].wants && g !in t.box
  {
    hide Leads;
    Arrives(c, s, g, p);
  }

  // ---------------------------------------------------------------- two getters copy from one port putter

  lemma Marks(c: Config, s: State, g: Loc, p: Loc)
    requires s.lock.Free? && g in s.call && s.call[g].Get? && s.call[g].phase == Mark(p)
    ensures var t := DoWork(c, s, g);
            Leads(c, s, t) && t == s.(flags := t.flags, call := s.call[g := WithPhase(s.call[g], Copying(p))])
  {
    hide Leads;
    Works(c, s, g);
  }

  /** Whichever copies first takes the pointer away; the other then reads through null. */
  lemma SecondTakerFaults(c: Config, s: State, g: Loc, h: Loc, p: Loc)
    requires s.lock.Free? && IsPoPu(c, p) && g != h && g in s.call && s.call[g].Get? && h in s.call && s.call[h].Get?
    requires s.call[g].phase == Copying(p) && s.call[h].phase == Copying(p)
    ensures CanFault(c, s)
  {
    hide DoWork, Leads;
    var s1 := DoWork(c, s, g);
    CopyingIs(c, s, g);
    Works(c, s, g);
    if Deref(s, p).Some? {
      CopyingIs(c, s1, h);
      Works(c, s1, h);
      LeadsOn(c, s, s1, DoWork(c, s1, h));
      assert DoWork(c, s1, h).fault;
    }
  }

  lemma ReadyToCopy(c: Config, s: State, g: Loc, p: Loc)
    requires c.isCopy && s.lock.Free? && IsPutter(c, p) && Summoned(s, g, p) && s.call[g].wants
    ensures exists t :: Leads(c, s, t) && t.lock.Free? && g in t.call && t.call[g].Get? && t.call[g].phase == Copying(p)
                        && t.ready == s.ready && forall l ::
                              l != g ==> Lookup(t.call, l) == Lookup(s.call, l) && Lookup(t.box, l) == Lookup(s.box, l)
  {
    hide Arrived, DoWork, Working, Leads;
    ArrivesThen(c, s, g, p);
    var s1 := Arrived(c, s, g, p);
    Marks(c, s1, g, p);
    LeadsOn(c, s, s1, DoWork(c, s1, g));
  }

  lemma TwoSummoned(c: Config, s: State, g: Loc, h: Loc, p: Loc)
    requires c.isCopy && s.lock.Free? && IsPoPu(c, p) && g != h
    requires Summoned(s, g, p) && s.call[g].wants && Summoned(s, h, p) && s.call[h].wants
    ensures CanFault(c, s)
  {
    hide Leads, CanFault;
    ReadyToCopy(c, s, g, p);
    var t :| Leads(c, s, t) && t.lock.Free? && g in t.call && t.call[g].Get? && t.call[g].phase == Copying(p)
             && t.ready == s.ready && forall l ::
                   l != g ==> Lookup(t.call, l) == Lookup(s.call, l) && Lookup(t.box, l) == Lookup(s.box, l);
    assert Lookup(t.call, h) == Lookup(s.call, h) && Lookup(t.box, h) == Lookup(s.box, h);
    ReadyToCopy(c, t, h, p);
    var u :| Leads(c, t, u) && u.lock.Free? && h in u.call && u.call[h].Get? && u.call[h].phase == Copying(p)
             && u.ready == t.ready && forall l ::
                   l != h ==> Lookup(u.call, l) == Lookup(t.call, l) && Lookup(u.box, l) == Lookup(t.box, l);
    assert Lookup(u.call, g) == Lookup(t.call, g);
    SecondTakerFaults(c, u, g, h, p);
    LeadsFault(c, t, u);
    LeadsFault(c, s, t);
  }

  /** Two getters that take data from one port putter's `Copy` datum: a run dereferences null. */
  lemma TwoTakersCanFault(c: Config, s: State, g: Loc, h: Loc)
    requires ConfigOk(c) && c.isCopy && Inv(c, s) && Performing(c, s) && CanRelease(c, s)
    requires IsPoPu(c, s.lock.rest[0].putter) && g != h && g in s.lock.rest[0].pg && h in s.lock.rest[0].pg
    requires Wants(s, g) && Wants(s, h)
    ensures CanFault(c, s)
  {
    hide Leads, CanFault, Inv, ConfigOk, Reaches, Do, Enabled;
    var a := s.lock.rest[0];
    var steps, s' :| Releases(c, s, steps, s');
    ReleasedGathered(c, s, steps, s');
    var t := Do(c, s', Release);
    SummonedAt(c, t, a.putter, SetOf(a.pg), g);
    SummonedAt(c, t, a.putter, SetOf(a.pg), h);
    TwoSummoned(c, t, g, h, a.putter);
    LeadsFault(c, s, t);
  }

  lemma SummonedAt(c: Config, s: State, p: Loc, gs: set<Loc>, g: Loc)
    requires Gathered(c, s, p, gs) && g in gs
    ensures Summoned(s, g, p) && s.lock.Free? && IsPutter(c, p)
  {
  }

  // ---------------------------------------------------------------- data that is not `Copy`: a taker parks

  /** Another getter is still to leave and the move is not to be had: the getter wins, leaves, and waits for the
      semaphore. */
  lemma TakerParks(c: Config, s: State, g: Loc, p: Loc)
    requires !c.isCopy && s.lock.Free? && IsPutter(c, p) && Summoned(s, g, p) && s.call[g].wants
    requires p in s.count && s.count[p] >= 2 && p in s.flags && s.flags[p] != Flags(false, false)
    ensures exists t :: Leads(c, s, t) && Parks(s, t, g, p)
  {
    hide Arrived, DoWork, Working, Leads, Parks;
    ArrivesThen(c, s, g, p);
    var s1 := Arrived(c, s, g, p);
    AsksInVain(c, s1, g, p);
    var s2 := DoWork(c, s1, g);
    LeavesEarly(c, s2, g, p);
    var s3 := DoWork(c, s2, g);
    LeadsOn(c, s, s1, s2);
    LeadsOn(c, s, s2, s3);
    ParksIs(c, s, s1, s2, s3, g, p);
  }

  /** The getter is parked without a datum; nobody else's call, and no semaphore, has changed. */
  ghost predicate Parks(s: State, t: State, g: Loc, p: Loc) {
    && EmptyHanded(t, g) && ParkedAt(t, g, p) && t.sema == s.sema
    && p in t.flags && p in s.flags && t.flags[p].disabled == s.flags[p].disabled
    && (forall l :: l != g ==> Lookup(t.call, l) == Lookup(s.call, l))
  }

  lemma ParksIs(c: Config, s: State, s1: State, s2: State, s3: State, g: Loc, p: Loc)
    requires Summoned(s, g, p) && s.call[g].wants && s1 == Arrived(c, s, g, p) && p in s1.flags && g in s1.call
    requires s1.call[g].Get?
    requires s2 == s1.(flags := s1.flags[p := Flags(true, s1.flags[p].disabled)],
      call := s1.call[g := WithPhase(s1.call[g], WonLeaving(p))])
    requires g in s2.call && s3 == s2.(count := s3.count, call := s2.call[g := WithPhase(s2.call[g], Parked(p))])
    ensures Parks(s, s3, g, p)
  {
    hide AfterMessage;
  }

  lemma AsksInVain(c: Config, s: State, g: Loc, p: Loc)
    requires s.lock.Free? && g in s.call && s.call[g].Get? && s.call[g].phase == Asking(p)
    requires p in s.flags && s.flags[p] != Flags(false, false)
    ensures var t := DoWork(c, s, g);
            && Leads(c, s, t)
            && t == s.(flags := s.flags[p := Flags(true, s.flags[p].disabled)],
                  call := s.call[g := WithPhase(s.call[g], WonLeaving(p))])
  {
    hide Leads;
    Works(c, s, g);
  }

  lemma LeavesEarly(c: Config, s: State, g: Loc, p: Loc)
    requires s.lock.Free? && g in s.call && s.call[g].Get? && s.call[g].phase == WonLeaving(p) && p in s.count
    requires s.count[p] >= 2
    ensures Working(s, g)
    ensures var t := DoWork(c, s, g);
            Leads(c, s, t) && t == s.(count := t.count, call := s.call[g := WithPhase(s.call[g], Parked(p))])
  {
    hide Leads;
    Works(c, s, g);
  }

  /** A getter that asks first is told to clone. */
  lemma AsksFirst(c: Config, s: State, g: Loc, p: Loc)
    requires s.lock.Free? && g in s.call && s.call[g].Get? && s.call[g].phase == Asking(p)
    requires p in s.flags && s.flags[p] == Flags(false, false)
    ensures var t := DoWork(c, s, g);
            && Leads(c, s, t)
            && t == s.(flags := s.flags[p := Flags(true, false)], call := s.call[g := WithPhase(s.call[g], Cloning(p))])
  {
    hide Leads;
    Works(c, s, g);
  }

  /** Of two takers that may clone, the second parks. */
  lemma SecondParks(c: Config, s: State, g: Loc, h: Loc, p: Loc)
    requires !c.isCopy && s.lock.Free? && IsPutter(c, p) && g != h
    requires Summoned(s, g, p) && s.call[g].wants && Summoned(s, h, p) && s.call[h].wants
    requires p in s.count && s.count[p] >= 2 && p in s.flags && s.flags[p] == Flags(false, false)
    ensures exists t :: Leads(c, s, t) && EmptyHanded(t, h)
  {
    hide DoWork, Working, Leads, EmptyHanded;
    ArrivesThen(c, s, g, p);
    var s1 := Arrived(c, s, g, p);
    AsksFirst(c, s1, g, p);
    var s2 := DoWork(c, s1, g);
    LeadsOn(c, s, s1, s2);
    assert Lookup(s2.call, h) == Lookup(s.call, h) && Lookup(s2.box, h) == Lookup(s.box, h);
    TakerParks(c, s2, h, p);
    var t :| Leads(c, s2, t) && Parks(s2, t, h, p);
    LeadsOn(c, s, s2, t);
  }

  // ---------------------------------------------------------------- a cell that nobody empties

  /** As `Gathered`, with both flags down: the slot has other holders. */
  ghost predicate Shared(c: Config, s: State, p: Loc, gs: set<Loc>) {
    Gathered(c, s, p, gs) && p in s.flags && s.flags[p] == Flags(false, false) && gs != {}
  }

  /** A getter that takes the signal only leaves before the others. */
  lemma SignalLeaves(c: Config, s: State, g: Loc, p: Loc, gs: set<Loc>)
    requires !c.isCopy && Shared(c, s, p, gs) && g in gs && !s.call[g].wants && |gs| >= 2
    ensures exists t ::
      Leads(c, s, t) && Shared(c, t, p, gs - {g}) && Lookup(t.ptr, p) == Lookup(s.ptr, p) && t.store == s.store
                        && forall h <- gs - {g} :: Lookup(t.call, h) == Lookup(s.call, h)
  {
    hide Arrived, DoWork, Working, Leads;
    ArrivesThen(c, s, g, p);
    var s1 := Arrived(c, s, g, p);
    SignalStep(c, s1, g, p);
    LeadsOn(c, s, s1, DoWork(c, s1, g));
    StillShared(c, s, s1, DoWork(c, s1, g), g, p, gs);
  }

  lemma SignalStep(c: Config, s: State, g: Loc, p: Loc)
    requires s.lock.Free? && g in s.call && s.call[g].Get? && s.call[g].phase == SignalLeaving(p) && p in s.count
    requires s.count[p] >= 1
    ensures var t := DoWork(c, s, g);
            && Leads(c, s, t)
            && t == s.(count := s.count[p := s.count[p] - 1],
                       call := s.call[g := WithPhase(s.call[g], if s.count[p] == 1 then AskingLast(p) else Served)])
  {
    hide Leads;
    Works(c, s, g);
  }

  lemma StillShared(c: Config, s: State, s1: State, t: State, g: Loc, p: Loc, gs: set<Loc>)
    requires Shared(c, s, p, gs) && g in gs && |gs| >= 2 && s1 == Arrived(c, s, g, p)
    requires t == s1.(count := s1.count[p := s1.count[p] - 1], call := s1.call[g := WithPhase(s1.call[g], Served)])
    ensures Shared(c, t, p, gs - {g})
    ensures forall h <- gs - {g} :: Lookup(t.call, h) == Lookup(s.call, h)
  {
    assert |gs - {g}| == |gs| - 1;
  }

  /** The last getter is served, and nobody else is left. */
  lemma NobodyLeft(c: Config, s: State, t: State, g: Loc, p: Loc)
    requires Gathered(c, s, p, {g}) && IsMemo(c, p) && t.lock.Free? && t.ready == s.ready && t.box == s.box - {g}
    requires g in t.call && t.call[g].phase == Served && forall l :: l != g ==> Lookup(t.call, l) == Lookup(s.call, l)
    ensures Abandoned(c, t, p)
  {
    assert forall l <- t.call :: l != g ==> Lookup(t.call, l) == Lookup(s.call, l);
  }

  lemma ReleasesLast(c: Config, s: State, g: Loc, p: Loc)
    requires s.lock.Free? && g in s.call && s.call[g].Get? && s.call[g].phase == AskingLast(p)
    requires p in s.flags && s.flags[p] == Flags(false, false)
    ensures Working(s, g)
    ensures var t := DoWork(c, s, g);
            && Leads(c, s, t)
            && t == s.(flags := t.flags, sema := t.sema, call := s.call[g := WithPhase(s.call[g], Served)])
  {
    hide Leads;
    Works(c, s, g);
  }

  lemma LastSignals(c: Config, s: State, g: Loc, p: Loc)
    requires !c.isCopy && IsMemo(c, p) && Shared(c, s, p, {g}) && !s.call[g].wants
    ensures exists t :: Leads(c, s, t) && Abandoned(c, t, p)
  {
    hide Arrived, DoWork, Working, Leads, Abandoned;
    ArrivesThen(c, s, g, p);
    var s1 := Arrived(c, s, g, p);
    SignalStep(c, s1, g, p);
    var s2 := DoWork(c, s1, g);
    ReleasesLast(c, s2, g, p);
    var s3 := DoWork(c, s2, g);
    LeadsOn(c, s, s1, s2);
    LeadsOn(c, s, s2, s3);
    ArrivedBox(c, s, g, p);
    NobodyLeft(c, s, s3, g, p);
  }

  lemma ArrivedBox(c: Config, s: State, g: Loc, p: Loc)
    requires g in s.call && s.call[g].Get?
    ensures Arrived(c, s, g, p).box == s.box - {g}
  {
  }

  predicate Stored(s: State, m: Loc) { m in s.ptr && s.ptr[m].Slot? && s.ptr[m].at in s.store }

  /** The getter has its clone. */
  ghost predicate Cloned(s: State, t: State, g: Loc, p: Loc) {
    && g in s.call && g in t.call && t.call[g].Get? && t.call[g].phase == LostLeaving(p)
    && t == s.(call := s.call[g := t.call[g]])
  }

  lemma Clones(c: Config, s: State, g: Loc, p: Loc)
    requires s.lock.Free? && g in s.call && s.call[g].Get? && s.call[g].phase == Cloning(p)
    ensures Working(s, g)
    ensures var t := DoWork(c, s, g);
            Leads(c, s, t) && (t.fault || Cloned(s, t, g, p)) && (Stored(s, p) && c.isClone ==> Cloned(s, t, g, p))
  {
    hide Leads;
    Works(c, s, g);
    CopyOutCases(c, s, g, p);
  }

  lemma CopyOutCases(c: Config, s: State, g: Loc, p: Loc)
    requires g in s.call && s.call[g].Get?
    ensures var t := CopyOut(c, s, g, p, false, LostLeaving(p));
            && (Deref(s, p).Some? ==> Cloned(s, t, g, p)) && (Deref(s, p).None? ==> t.fault)
            && (Stored(s, p) ==> Deref(s, p).Some?)
  {
    if Deref(s, p).None? {
    } else {
    }
  }

  lemma LosesLast(c: Config, s: State, g: Loc, p: Loc)
    requires s.lock.Free? && g in s.call && s.call[g].Get? && s.call[g].phase == LostLeaving(p) && p in s.count
    requires s.count[p] == 1
    ensures Working(s, g)
    ensures var t := DoWork(c, s, g);
            && Leads(c, s, t)
            && t == s.(count := t.count, sema := t.sema, call := s.call[g := WithPhase(s.call[g], Served)])
  {
    hide Leads;
    Works(c, s, g);
  }

  /** Some run leads to a state in which the cell is abandoned, or to a fault if its datum is gone or cannot be
      cloned. */
  ghost predicate Forsaken(c: Config, s: State, p: Loc) {
    exists t :: Leads(c, s, t) && (Abandoned(c, t, p) || t.fault) && (Stored(s, p) && c.isClone ==> Abandoned(c, t, p))
  }

  lemma LastTakes(c: Config, s: State, g: Loc, p: Loc)
    requires !c.isCopy && IsMemo(c, p) && Shared(c, s, p, {g}) && s.call[g].wants
    ensures Forsaken(c, s, p)
  {
    hide Arrived, DoWork, Working, Leads, Abandoned, Cloned;
    ArrivesThen(c, s, g, p);
    var s1 := Arrived(c, s, g, p);
    AsksFirst(c, s1, g, p);
    var s2 := DoWork(c, s1, g);
    Clones(c, s2, g, p);
    var s3 := DoWork(c, s2, g);
    LeadsOn(c, s, s1, s2);
    LeadsOn(c, s, s2, s3);
    if Cloned(s2, s3, g, p) {
      LastLoses(c, s, s1, s2, s3, g, p);
    }
  }

  lemma LastLoses(c: Config, s: State, s1: State, s2: State, s3: State, g: Loc, p: Loc)
    requires IsMemo(c, p) && Shared(c, s, p, {g}) && s1 == Arrived(c, s, g, p)
    requires s2 == s1.(flags := s2.flags, call := s2.call)
    requires (forall l :: l != g ==> Lookup(s2.call, l) == Lookup(s1.call, l))
    requires Cloned(s2, s3, g, p) && Leads(c, s, s3)
    ensures exists t :: Leads(c, s, t) && Abandoned(c, t, p)
  {
    hide DoWork, Working, Leads, Abandoned, AfterMessage;
    LosesLast(c, s3, g, p);
    var s4 := DoWork(c, s3, g);
    LeadsOn(c, s, s3, s4);
    forall l | l != g ensures Lookup(s4.call, l) == Lookup(s.call, l) {
      assert Lookup(s2.call, l) == Lookup(s1.call, l);
    }
    NobodyLeft(c, s, s4, g, p);
  }

  lemma SomeMember(gs: set<Loc>)
    requires |gs| >= 1
    ensures exists g :: g in gs
  {
    assert (forall g :: g !in gs) ==> gs == {};
  }

  /** Of two or more getters of which at most one takes data, one takes none. */
  lemma OneSignals(s: State, gs: set<Loc>) returns (g: Loc)
    requires |gs| >= 2 && forall g, h :: g in gs && h in gs && Wants(s, g) && Wants(s, h) ==> g == h
    ensures g in gs && !Wants(s, g)
  {
    hide Wants;
    SomeMember(gs);
    var x :| x in gs;
    assert |gs - {x}| == |gs| - 1;
    SomeMember(gs - {x});
    var y :| y in gs - {x};
    g := if Wants(s, x) then y else x;
  }

  lemma OneLeft(gs: set<Loc>) returns (g: Loc)
    requires |gs| == 1
    ensures gs == {g}
  {
    SomeMember(gs);
    g :| g in gs;
    assert |gs - {g}| == 0;
  }

  lemma ForsakenOn(c: Config, s: State, t: State, p: Loc)
    requires Leads(c, s, t) && Forsaken(c, t, p) && Lookup(t.ptr, p) == Lookup(s.ptr, p) && t.store == s.store
    ensures Forsaken(c, s, p)
  {
    hide Leads, Abandoned;
    var u :| Leads(c, t, u) && (Abandoned(c, u, p) || u.fault) && (Stored(t, p) && c.isClone ==> Abandoned(c, u, p));
    LeadsOn(c, s, t, u);
    assert Stored(s, p) ==> Stored(t, p);
  }

  lemma SharedAt(c: Config, s: State, p: Loc, gs: set<Loc>, g: Loc)
    requires Shared(c, s, p, gs) && g in gs
    ensures g in s.call && s.call[g].Get? && Wants(s, g) == s.call[g].wants
  {
  }

  /** Getters of a shared slot of which at most one takes data: the signals leave first. */
  lemma {:induction false} AllLeave(c: Config, s: State, p: Loc, gs: set<Loc>)
    requires !c.isCopy && IsMemo(c, p) && Shared(c, s, p, gs)
    requires forall g, h :: g in gs && h in gs && Wants(s, g) && Wants(s, h) ==> g == h
    ensures Forsaken(c, s, p)
    decreases |gs|
  {
    hide Leads, Abandoned, Summoned, Gathered;
    if |gs| >= 2 {
      var g := OneSignals(s, gs);
      SharedAt(c, s, p, gs, g);
      SignalLeaves(c, s, g, p, gs);
      var t :| Leads(c, s, t) && Shared(c, t, p, gs - {g}) && Lookup(t.ptr, p) == Lookup(s.ptr, p) && t.store == s.store
               && forall h <- gs - {g} :: Lookup(t.call, h) == Lookup(s.call, h);
      assert forall h <- gs - {g} :: Lookup(t.call, h) == Lookup(s.call, h) && Wants(t, h) == Wants(s, h);
      AllLeave(c, t, p, gs - {g});
      ForsakenOn(c, s, t, p);
    } else {
      var g := OneLeft(gs);
      LastLeaves(c, s, p, g);
    }
  }

  lemma LastLeaves(c: Config, s: State, p: Loc, g: Loc)
    requires !c.isCopy && IsMemo(c, p) && Shared(c, s, p, {g})
    ensures Forsaken(c, s, p)
  {
    hide Leads, Abandoned, Summoned, Gathered, Shared;
    SharedAt(c, s, p, {g}, g);
    if s.call[g].wants {
      LastTakes(c, s, g, p);
    } else {
      LastSignals(c, s, g, p);
    }
  }

  // ---------------------------------------------------------------- exactly the firings out of scope go wrong

  /** The firing of a datum that is not `Copy`, its messages delivered. */
  ghost predicate Settled(c: Config, s: State, t: State) {
    && Performing(c, s) && Leads(c, s, t) && Gathered(c, t, s.lock.rest[0].putter, SetOf(s.lock.rest[0].pg))
    && |SetOf(s.lock.rest[0].pg)| == |s.lock.rest[0].pg| && t.call == s.call && t.sema == s.sema
    && t.flags[s.lock.rest[0].putter] == Flags(false, MovesAllowed(c, s, s.lock.rest[0]))
  }

  lemma SettlesBy(c: Config, s: State, steps: seq<Step>, s': State)
    requires ConfigOk(c) && Inv(c, s) && Performing(c, s) && s.lock.rest[0].pg != [] && Releases(c, s, steps, s')
    ensures Settled(c, s, Do(c, s', Release))
  {
    hide Leads, Inv, ConfigOk, Reaches, Do, Enabled, Gathered, MovesAllowed;
    ReleasedGathered(c, s, steps, s');
  }

  lemma Settles(c: Config, s: State) returns (t: State)
    requires ConfigOk(c) && Inv(c, s) && Performing(c, s) && s.lock.rest[0].pg != [] && CanRelease(c, s)
    ensures Settled(c, s, t)
  {
    hide Inv, ConfigOk, Reaches, Do, Enabled, Settled;
    var steps, s' :| Releases(c, s, steps, s');
    SettlesBy(c, s, steps, s');
    t := Do(c, s', Release);
  }

  lemma SettledAt(c: Config, s: State, t: State, g: Loc)
    requires Settled(c, s, t) && g in s.lock.rest[0].pg
    ensures var p := s.lock.rest[0].putter;
            && t.lock.Free? && IsPutter(c, p) && Summoned(t, g, p) && t.call[g].wants == Wants(s, g) && Leads(c, s, t)
            && p in t.count && t.count[p] == |s.lock.rest[0].pg|
            && p in t.flags && t.flags[p] == Flags(false, MovesAllowed(c, s, s.lock.rest[0])) && t.sema == s.sema
  {
    hide Leads, MovesAllowed;
  }

  /** Another getter takes part and the slot has no other holder: the taker parks, without its datum. If the datum is a
      port's, for ever. */
  lemma TakerIsStuck(c: Config, s: State, g: Loc)
    requires ConfigOk(c) && !c.isCopy && Inv(c, s) && Performing(c, s) && CanRelease(c, s)
    requires MovesAllowed(c, s, s.lock.rest[0]) && |s.lock.rest[0].pg| >= 2 && g in s.lock.rest[0].pg && Wants(s, g)
    ensures exists t :: Leads(c, s, t) && EmptyHanded(t, g) && ParkedAt(t, g, s.lock.rest[0].putter)
                        && (IsPoPu(c, s.lock.rest[0].putter) && At(s.sema, s.lock.rest[0].putter, 0) == 0 ==>
                              Unreleased(c, t, s.lock.rest[0].putter))
  {
    hide Leads, Inv, ConfigOk, Settled, MovesAllowed, Summoned, EmptyHanded, Unreleased;
    var p := s.lock.rest[0].putter;
    var t := Settles(c, s);
    SettledAt(c, s, t, g);
    TakerParks(c, t, g, p);
    var u :| Leads(c, t, u) && Parks(t, u, g, p);
    LeadsOn(c, s, t, u);
    if IsPoPu(c, p) && At(s.sema, p, 0) == 0 {
      NobodyReleases(c, s, t, u, g);
    }
  }

  lemma NobodyReleases(c: Config, s: State, t: State, u: State, g: Loc)
    requires !c.isCopy && Settled(c, s, t) && IsPoPu(c, s.lock.rest[0].putter) && Parks(t, u, g, s.lock.rest[0].putter)
    requires MovesAllowed(c, s, s.lock.rest[0]) && At(s.sema, s.lock.rest[0].putter, 0) == 0
    ensures Unreleased(c, u, s.lock.rest[0].putter)
  {
    hide Leads, MovesAllowed;
    forall l <- u.call | l != g ensures l in t.call && u.call[l] == t.call[l] {
      assert Lookup(u.call, l) == Lookup(t.call, l);
    }
  }

  /** Nobody ever releases a semaphore while the invariant holds: of the getters that could, one has to lose and the
      other has to find the move allowed. */
  lemma WorkPermits(c: Config, s: State, g: Loc)
    requires Inv(c, s) && g in s.call && s.call[g].Get? && Working(s, g)
    ensures DoWork(c, s, g).sema == s.sema
  {
    hide Inv, DoWork, Engaged, Working, Follows;
    WorkingGood(c, s, g);
    WorkProceeds(c, s, g);
    if s.call[g].phase.AskingLast? {
      LastDisabled(c, s, g, s.call[g].phase.src);
    }
  }

  lemma FiringPermits(c: Config, s: State, step: Step)
    requires Enabled(c, s, step) && Firing(step)
    ensures Do(c, s, step).sema == s.sema
  {
    hide FillGetters, Dispatch, Dispatched, RuleEnabled, Send, DoSelect, Performed, DisableMove;
    match step
    case Select(i) => SelectEffect(s, c.rules[i]);
    case SendNext => SendLeaves(s, s.lock.sends[0], s.lock.src);
    case Perform(slot) =>
      PerformTransfers(c, s, slot);
      PerformDoes(c, s, slot);
  }

  lemma FinalizePermits(c: Config, s: State, g: Loc)
    requires g in s.call && s.call[g].phase.Finalizing?
    ensures DoFinalize(c, s, g).sema == s.sema
  {
    hide DoFinalize, MakeEmpty;
    if IsMemo(c, s.call[g].phase.src) {
      FinalizeCellEffect(c, s, g);
    } else {
      FinalizePortEffect(c, s, g);
    }
  }

  lemma StepPermits(c: Config, s: State, step: Step)
    requires Inv(c, s) && Enabled(c, s, step)
    ensures Do(c, s, step).sema == s.sema
  {
    hide Inv, DoWork, DoRecv, DoFinalize, DoRevoke, Working, RecvPhase, FillGetters, Dispatch, Dispatched, RuleEnabled,
      Send, DoSelect;
    if Plain(step) {
      PlainEffect(c, s, step);
    } else if Firing(step) {
      FiringPermits(c, s, step);
    } else {
      match step
      case Revoke(l) => RevokeEffect(s, l);
      case Recv(l) => RecvEffect(c, s, l);
      case Work(g) => WorkPermits(c, s, g);
      case Finalize(g) => FinalizePermits(c, s, g);
    }
  }

  /** So in every state reached in scope all semaphores are without permits. */
  lemma {:induction false} NoPermits(c: Config, s: State, steps: seq<Step>)
    requires ConfigOk(c) && Inv(c, s) && ValidRun(c, s, steps) && ScopedRun(c, s, steps)
    ensures Run(c, s, steps).sema == s.sema
    decreases |steps|
  {
    hide Inv, Enabled, Do, Scoped, ConfigOk;
    if steps != [] {
      StepPermits(c, s, steps[0]);
      StepInv(c, s, steps[0]);
      NoPermits(c, Do(c, s, steps[0]), steps[1..]);
    }
  }

  /** In every state reached in scope in which a port's datum, not `Copy`, is about to go to several getters of which
      one takes data: some run parks this getter for ever. */
  lemma TakerIsStuckForever(c: Config, before: seq<Step>, s: State, g: Loc)
    requires ConfigOk(c) && !c.isCopy && ValidRun(c, Init(c), before) && ScopedRun(c, Init(c), before)
    requires s == Run(c, Init(c), before) && Performing(c, s) && CanRelease(c, s)
    requires Clonable(c, s.lock.rest[0]) && IsPoPu(c, s.lock.rest[0].putter)
    requires |s.lock.rest[0].pg| >= 2 && g in s.lock.rest[0].pg && Wants(s, g)
    ensures exists t :: Leads(c, s, t) && EmptyHanded(t, g) && forall steps | ValidRun(c, t, steps) ::
              ParkedAt(Run(c, t, steps), g, s.lock.rest[0].putter)
  {
    hide Leads, Inv, ConfigOk, EmptyHanded, Unreleased, ScopedRun, ValidRun, Run, CanRelease, Wants, Clonable, ParkedAt;
    InitInv(c);
    RunSafe(c, Init(c), before);
    NoPermits(c, Init(c), before);
    var p := s.lock.rest[0].putter;
    TakerIsStuck(c, s, g);
    var t :| Leads(c, s, t) && EmptyHanded(t, g) && ParkedAt(t, g, p) && Unreleased(c, t, p);
    forall steps | ValidRun(c, t, steps) ensures ParkedAt(Run(c, t, steps), g, p) {
      ParkedForever(c, t, steps, g, p);
    }
  }

  /** The slot has other holders and two getters take data: one of them parks without. */
  lemma SecondIsStuck(c: Config, s: State, g: Loc, h: Loc)
    requires ConfigOk(c) && !c.isCopy && Inv(c, s) && Performing(c, s) && CanRelease(c, s)
    requires !MovesAllowed(c, s, s.lock.rest[0])
    requires g != h && g in s.lock.rest[0].pg && h in s.lock.rest[0].pg && Wants(s, g) && Wants(s, h)
    ensures exists t :: Leads(c, s, t) && EmptyHanded(t, h)
  {
    hide Leads, Inv, ConfigOk, Settled, MovesAllowed, Summoned, EmptyHanded;
    var t := Settles(c, s);
    SettledAt(c, s, t, g);
    SettledAt(c, s, t, h);
    TwoMembers(s.lock.rest[0].pg, g, h);
    SecondParks(c, t, g, h, s.lock.rest[0].putter);
    var u :| Leads(c, t, u) && EmptyHanded(u, h);
    LeadsOn(c, s, t, u);
  }

  lemma TwoMembers(xs: seq<Loc>, g: Loc, h: Loc)
    requires g in xs && h in xs && g != h
    ensures |xs| >= 2
  {
  }

  /** The slot has other holders and at most one getter takes data: nobody empties the cell. */
  lemma CellIsForsaken(c: Config, s: State, t: State)
    requires ConfigOk(c) && !c.isCopy && Inv(c, s) && Settled(c, s, t) && s.lock.rest[0].pg != []
    requires !MovesAllowed(c, s, s.lock.rest[0])
    requires forall g, h :: g in s.lock.rest[0].pg && h in s.lock.rest[0].pg && Wants(s, g) && Wants(s, h) ==> g == h
    ensures Forsaken(c, t, s.lock.rest[0].putter)
  {
    hide Leads, Inv, ConfigOk, Summoned, EmptyHanded, Forsaken, Exclusive, Gathered;
    var a := s.lock.rest[0];
    assert a.pg[0] in SetOf(a.pg);
    SettledAt(c, s, t, a.pg[0]);
    AllLeave(c, t, a.putter, SetOf(a.pg));
  }

  /** Something that no caller should meet: a fault, a getter without the datum it asked for, a cell that nobody will
      empty. */
  ghost predicate Sound(c: Config, s: State)
  {
    !s.fault && (forall g :: !EmptyHanded(s, g)) && (forall m :: !Abandoned(c, s, m))
  }

  ghost predicate GoesWrong(c: Config, s: State) { exists t :: Leads(c, s, t) && !Sound(c, t) }

  lemma WrongOn(c: Config, s: State, t: State)
    requires Leads(c, s, t) && GoesWrong(c, t)
    ensures GoesWrong(c, s)
  {
    hide Leads, Sound;
    var u :| Leads(c, t, u) && !Sound(c, u);
    LeadsOn(c, s, t, u);
  }

  lemma ForsakenWrong(c: Config, s: State, t: State, p: Loc)
    requires Leads(c, s, t) && Forsaken(c, t, p)
    ensures GoesWrong(c, s)
  {
    hide Leads, Abandoned, EmptyHanded;
    var u :| Leads(c, t, u) && (Abandoned(c, u, p) || u.fault);
    assert !Sound(c, u);
    WrongOn(c, s, t);
  }

  lemma PortFiringWrong(c: Config, s: State)
    requires ConfigOk(c) && !c.isCopy && Inv(c, s) && Performing(c, s) && CanRelease(c, s)
    requires !InScope(c, s, s.lock.rest[0]) && Clonable(c, s.lock.rest[0])
    ensures GoesWrong(c, s)
  {
    hide Inv, ConfigOk, Settled, Leads, Abandoned, EmptyHanded, CanRelease, Unreleased, Wants, Clonable;
    var a := s.lock.rest[0];
    if MovesAllowed(c, s, a) {
      var g :| g in a.pg && Wants(s, g);
      TakerIsStuck(c, s, g);
      var t :| Leads(c, s, t) && EmptyHanded(t, g);
      assert !Sound(c, t);
    } else if g, h :| g in a.pg && h in a.pg && Wants(s, g) && Wants(s, h) && g != h {
      SecondIsStuck(c, s, g, h);
      var t :| Leads(c, s, t) && EmptyHanded(t, h);
      assert !Sound(c, t);
    } else {
      var t := Settles(c, s);
      CellIsForsaken(c, s, t);
      SettledLeads(c, s, t);
      ForsakenWrong(c, s, t, a.putter);
    }
  }

  lemma SettledLeads(c: Config, s: State, t: State)
    requires Settled(c, s, t)
    ensures Leads(c, s, t)
  {
  }

  lemma CopyFiringWrong(c: Config, s: State)
    requires ConfigOk(c) && c.isCopy && Inv(c, s) && Performing(c, s) && CanRelease(c, s)
    requires !InScope(c, s, s.lock.rest[0]) && Clonable(c, s.lock.rest[0])
    ensures GoesWrong(c, s)
  {
    hide Inv, ConfigOk, Exclusive, Leads, Abandoned, EmptyHanded, CanRelease, Wants, Clonable;
    var a := s.lock.rest[0];
    var g, h :| g in a.pg && h in a.pg && Wants(s, g) && Wants(s, h) && g != h;
    TwoTakersCanFault(c, s, g, h);
    var t :| Leads(c, s, t) && t.fault;
    assert !Sound(c, t);
  }

  /** A datum to be cloned into a cell, of a type that is not `Clone`: performing the action panics. */
  lemma UnclonableFaults(c: Config, s: State, slot: Ptr)
    requires Performing(c, s) && slot !in s.store && !Clonable(c, s.lock.rest[0])
    ensures Enabled(c, s, Perform(slot)) && Do(c, s, Perform(slot)).fault
  {
    hide Deref, DisableMove;
  }

  lemma UnclonableWrong(c: Config, s: State)
    requires Performing(c, s) && !Clonable(c, s.lock.rest[0])
    ensures CanFault(c, s) && GoesWrong(c, s)
  {
    hide Leads, Do, Enabled, EmptyHanded, Abandoned, Clonable;
    var slot := UnusedSlot(s.store);
    UnclonableFaults(c, s, slot);
    LeadsStep(c, s, Perform(slot));
    assert !Sound(c, Do(c, s, Perform(slot)));
  }

  /** A firing out of scope goes wrong in some run, if the holder can release the lock, */
  lemma OutOfScopeGoesWrong(c: Config, s: State)
    requires ConfigOk(c) && Inv(c, s) && Performing(c, s) && CanRelease(c, s) && !InScope(c, s, s.lock.rest[0])
    ensures GoesWrong(c, s)
  {
    hide Inv, ConfigOk, InScope, GoesWrong, CanRelease, Clonable, CanFault;
    if !Clonable(c, s.lock.rest[0]) {
      UnclonableWrong(c, s);
    } else if c.isCopy {
      CopyFiringWrong(c, s);
    } else {
      PortFiringWrong(c, s);
    }
  }

  lemma HungryNever(c: Config, s: State, g: Loc)
    requires Inv(c, s)
    ensures !EmptyHanded(s, g)
  {
    hide Locations, Counts, Slots, Takers, LockOk;
    GoodAt(c, s, g);
  }

  lemma CellNeverAbandoned(c: Config, s: State, m: Loc)
    requires Inv(c, s)
    ensures !Abandoned(c, s, m)
  {
    hide Locations, Counts, Slots, Takers, LockOk, Abandoned, Busy;
    if IsMemo(c, m) && m !in s.ready {
      GoodAt(c, s, m);
      if Busy(s, m) {
        StillConcerned(c, s, m);
      } else {
        RoleSomewhere(c, s, m);
      }
    } else {
      NotAbandoned(c, s, m);
    }
  }

  lemma NotAbandoned(c: Config, s: State, m: Loc)
    requires !IsMemo(c, m) || m in s.ready
    ensures !Abandoned(c, s, m)
  {
  }

  lemma RoleSomewhere(c: Config, s: State, m: Loc)
    requires IsMemo(c, m) && m !in s.ready && MemoOk(ViewOf(s, m), false)
    ensures !Abandoned(c, s, m)
  {
    hide Pledge, Closing;
  }

  lemma StillConcerned(c: Config, s: State, m: Loc)
    requires Locations(c, s) && Busy(s, m)
    ensures !Abandoned(c, s, m)
  {
    hide Locations, Abandoned, Pledge, Closing;
    var g :| g in s.call && (Pledge(s, g) == Some(m) || Closing(s, g) == Some(m));
    CallKinds(c, s, g);
    Concerned(c, s, g, m);
  }

  lemma Concerned(c: Config, s: State, g: Loc, m: Loc)
    requires g in s.call && (s.call[g].Get? ==> IsPoGe(c, g)) && (Pledge(s, g) == Some(m) || Closing(s, g) == Some(m))
    ensures !Abandoned(c, s, m)
  {
    hide Locs;
    KindsDiffer(c, g);
  }

  lemma KindsDiffer(c: Config, l: Loc)
    ensures IsPoGe(c, l) ==> !IsPoPu(c, l)
  {
  }

  /** and in scope nothing ever does. */
  lemma ScopedSound(c: Config, s: State, steps: seq<Step>)
    requires ConfigOk(c) && Inv(c, s) && ValidRun(c, s, steps) && ScopedRun(c, s, steps)
    ensures Sound(c, Run(c, s, steps))
  {
    hide Inv, ConfigOk, ScopedRun, ValidRun, Run, EmptyHanded, Abandoned;
    RunSafe(c, s, steps);
    var t := Run(c, s, steps);
    forall g ensures !EmptyHanded(t, g) && !Abandoned(c, t, g) {
      HungryNever(c, t, g);
      CellNeverAbandoned(c, t, g);
    }
  }

  /** The first action out of scope. */
  lemma {:induction false} FirstOutOfScope(c: Config, s: State, steps: seq<Step>) returns (t: State)
    requires ConfigOk(c) && Inv(c, s) && ValidRun(c, s, steps) && !ScopedRun(c, s, steps)
    ensures Leads(c, s, t) && Inv(c, t) && Performing(c, t) && !InScope(c, t, t.lock.rest[0])
    decreases |steps|
  {
    hide Inv, ConfigOk, Enabled, Do, InScope, Leads;
    if Scoped(c, s, steps[0]) {
      StepInv(c, s, steps[0]);
      t := FirstOutOfScope(c, Do(c, s, steps[0]), steps[1..]);
      LeadsStep(c, s, steps[0]);
      LeadsOn(c, s, Do(c, s, steps[0]), t);
    } else {
      t := s;
      Stays(c, s);
      OutPerforms(c, s, steps[0]);
    }
  }

  lemma WrongRun(c: Config, s: State)
    requires GoesWrong(c, s)
    ensures exists steps :: ValidRun(c, s, steps) && !Sound(c, Run(c, s, steps))
  {
    hide Sound, ValidRun, Run;
    var t :| Leads(c, s, t) && !Sound(c, t);
    var steps :| ValidRun(c, s, steps) && Run(c, s, steps) == t;
  }

  lemma Stays(c: Config, s: State)
    ensures Leads(c, s, s)
  {
    assert ValidRun(c, s, []) && Run(c, s, []) == s;
  }

  lemma OutPerforms(c: Config, s: State, step: Step)
    requires Enabled(c, s, step) && !Scoped(c, s, step)
    ensures Performing(c, s) && !InScope(c, s, s.lock.rest[0])
  {
    hide InScope;
  }

  lemma LockActions(c: Config, s: State)
    requires Inv(c, s)
    ensures ActionsOk(c, Rest(s.lock))
  {
    hide Locations, Counts, Slots, Takers;
  }

  /** If every rule involves a port, the scope is exact: no run of the protocol ever raises a fault, leaves a getter
      without the datum it asked for, or abandons a cell, if and only if no run performs an action out of scope. */
  lemma ScopeIsExact(c: Config)
    requires ConfigOk(c) && PortRules(c)
    ensures (forall steps | ValidRun(c, Init(c), steps) :: ScopedRun(c, Init(c), steps))
            <==> (forall steps | ValidRun(c, Init(c), steps) :: Sound(c, Run(c, Init(c), steps)))
  {
    hide Inv, ConfigOk, PortRules, ScopedRun, ValidRun, Run, Sound, InScope, CanRelease, Init, GoesWrong, Leads;
    InitInv(c);
    if forall steps | ValidRun(c, Init(c), steps) :: ScopedRun(c, Init(c), steps) {
      forall steps | ValidRun(c, Init(c), steps) ensures Sound(c, Run(c, Init(c), steps)) {
        ScopedSound(c, Init(c), steps);
      }
    } else {
      var steps :| ValidRun(c, Init(c), steps) && !ScopedRun(c, Init(c), steps);
      var s := FirstOutOfScope(c, Init(c), steps);
      LockActions(c, s);
      PortRulesRelease(c, s);
      OutOfScopeGoesWrong(c, s);
      WrongOn(c, Init(c), s);
      WrongRun(c, Init(c));
    }
  }
}
