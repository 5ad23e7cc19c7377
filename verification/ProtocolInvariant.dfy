/** The invariant of every reachable coordinator state, whoever holds the lock and however far a firing has come. */
module ProtocolInvariant {
  import opened Wrappers
  import opened Protocol

  // ---------------------------------------------------------------- who owes what

  predicate BeforeMessage(ph: Phase) { ph.Waiting? || ph.Revoking? || ph.Late? }

  /** A getter inside `acquire_data` that has not counted itself down yet. */
  predicate BeforeLeave(ph: Phase) {
    ph.Mark? || ph.Copying? || ph.Leaving? || ph.Asking? || ph.WonLeaving? || ph.Cloning? || ph.LostLeaving?
      || ph.SignalLeaving?
  }

  /** The last getter out, on its way to finalizing its putter. */
  predicate LastOut(ph: Phase) { ph.Reading? || ph.Moving? || ph.AskingLast? || ph.Finalizing? }

  /** The part a location still has to play in the firing in progress. */
  datatype Role = Idle | ToSend | ToPut | ToGet

  function RoleOf(k: Lock, l: Loc): Role {
    if l in Sends(k) then ToSend
    else if l in Putters(Rest(k)) then ToPut
    else if l in Getters(Rest(k)) then ToGet
    else Idle
  }

  /** The putter whose countdown the getter still has to decrement: its message is queued, in its dropbox, or
      being acted on. */
  function Pledge(s: State, g: Loc): Option<Loc> {
    if g !in s.call || s.call[g].Put? then None
    else if BeforeMessage(s.call[g].phase) then
      if g in s.box then Some(s.box[g])
      else if s.lock.Held? && g in s.lock.sends then Some(s.lock.src)
      else None
    else if BeforeLeave(s.call[g].phase) then Some(s.call[g].phase.src)
    else None
  }

  /** The putter a getter is about to finalize. */
  function Closing(s: State, g: Loc): Option<Loc> {
    if g in s.call && s.call[g].Get? && LastOut(s.call[g].phase) then Some(s.call[g].phase.src) else None
  }

  function Out(s: State, p: Loc): set<Loc> { set g | g in s.call && Pledge(s, g) == Some(p) }

  function Closers(s: State, p: Loc): set<Loc> { set g | g in s.call && Closing(s, g) == Some(p) }

  /** Getters are still at work on the putter's datum. */
  predicate Busy(s: State, p: Loc) { Out(s, p) != {} || Closers(s, p) != {} }

  function Holders(s: State, x: Ptr): set<Loc> { set m | m in s.ptr && s.ptr[m] == Slot(x) }

  predicate IsPutter(c: Config, l: Loc) { IsPoPu(c, l) || IsMemo(c, l) }

  // ---------------------------------------------------------------- one location at a time

  datatype View = View(ready: bool, full: bool, ptr: Option<Ref>, box: Option<int>, call: Option<Call>, role: Role,
                       pledge: Option<Loc>, closing: Option<Loc>)

  function ViewOf(s: State, l: Loc): View {
    View(l in s.ready, l in s.mem, Lookup(s.ptr, l), Lookup(s.box, l), Lookup(s.call, l), RoleOf(s.lock, l),
         Pledge(s, l), Closing(s, l))
  }

  /** A ready cell is full iff its pointer is set. An unready one is in the firing in progress, or is being
      drained: bit clear, pointer set, finalizer still to come. */
  predicate MemoOk(v: View, busy: bool) {
    && v.box.None? && v.call.None? && (v.ptr.Some? ==> v.ptr.value.Slot?)
    && match v.role
       case Idle => if v.ready then !busy && (v.full <==> v.ptr.Some?) else busy && v.ptr.Some? && !v.full
       case ToPut => !v.ready && !busy && v.ptr.Some? && !v.full
       case ToGet => !v.ready && !busy && v.ptr.None? && v.full
       case ToSend => false
  }

  /** A put waits in exactly one of four ways: ready, in the firing in progress, being worked on, or with its
      message in the dropbox. */
  predicate PoPuOk(v: View, busy: bool) {
    && !v.full && (v.ptr.Some? ==> v.ptr.value.Stack?) && (v.role.Idle? || v.role.ToPut?)
    && (v.call.Some? ==> v.call.value.Put?)
    && (if v.call.Some? && BeforeMessage(v.call.value.phase) then
          && (v.ready ==> !v.call.value.phase.Late?)
          && (v.ready || v.role.ToPut? ==> v.ptr.Some?)
          && (v.box.Some? ==> 0 <= v.box.value <= 1)
          && (if v.ready then v.role.Idle? && v.box.None? && !busy
              else if v.role.ToPut? then v.box.None? && !busy
              else if v.box.Some? then !busy
              else busy)
        else
          && !v.ready && v.role.Idle? && v.box.None? && !busy
          && (v.call.Some? ==> v.call.value.phase.Sent? || (v.call.value.phase.Starting? && v.ptr.Some?)))
  }

  predicate GetOk(c: Config, call: Call)
    requires call.Get?
  {
    match call.phase
    case Waiting => call.out.None?
    case Revoking => call.out.None?
    case Late => call.out.None?
    case Mark(_) => c.isCopy && call.wants && call.out.None?
    case Copying(_) => c.isCopy && call.wants && call.out.None?
    case Leaving(_) => c.isCopy && (call.out.Some? <==> call.wants)
    case Reading(_) => c.isCopy && (call.out.Some? <==> call.wants)
    case Asking(_) => !c.isCopy && call.wants && call.out.None?
    case WonLeaving(_) => !c.isCopy && call.wants && call.out.None?
    case Moving(_) => !c.isCopy && call.wants && call.out.None?
    case SignalLeaving(_) => !c.isCopy && !call.wants && call.out.None?
    case AskingLast(_) => !c.isCopy && !call.wants && call.out.None?
    case Finalizing(_, moved) => (call.out.Some? <==> call.wants) && (!c.isCopy ==> moved == call.wants)
    case Served => call.out.Some? <==> call.wants
    case _ => false
  }

  /** A get waits in exactly one of four ways: ready, in the firing in progress, with its message still to be
      sent, or with its message in the dropbox. */
  predicate PoGeOk(c: Config, l: Loc, v: View, busy: bool) {
    && !v.full && v.ptr.None? && !v.role.ToPut? && !busy
    && (v.call.Some? ==> v.call.value.Get? && GetOk(c, v.call.value))
    && (if v.call.Some? && BeforeMessage(v.call.value.phase) then
          && (v.ready ==> !v.call.value.phase.Late?)
          && (if v.ready then v.role.Idle? && v.box.None?
              else if v.role.Idle? then v.box.Some?
              else v.box.None?)
        else !v.ready && v.role.Idle? && v.box.None?)
  }

  predicate Good(c: Config, l: Loc, v: View, busy: bool) {
    if IsMemo(c, l) then MemoOk(v, busy)
    else if IsPoPu(c, l) then PoPuOk(v, busy)
    else if IsPoGe(c, l) then PoGeOk(c, l, v, busy)
    else !v.ready && !v.full && v.ptr.None? && v.box.None? && v.call.None? && v.role.Idle? && !busy
  }

  // ---------------------------------------------------------------- the invariant

  ghost predicate Locations(c: Config, s: State) {
    forall l :: Good(c, l, ViewOf(s, l), Busy(s, l))
  }

  /** The actions and messages left of the firing in progress. */
  ghost predicate LockOk(c: Config, s: State) {
    && ActionsOk(c, Rest(s.lock))
    && SetOf(Sends(s.lock)) !! Locs(Rest(s.lock))
    && (forall i, j :: 0 <= i < j < |Sends(s.lock)| ==> Sends(s.lock)[i] != Sends(s.lock)[j])
  }

  /** The countdown is the number of getters still to leave; at most one finalizes, after all have left. */
  ghost predicate Counts(s: State) {
    && (forall p :: Busy(s, p) ==>
          p in s.count && s.count[p] == |Out(s, p)| && (Closers(s, p) != {} ==> Out(s, p) == {}))
    && (forall g, h :: Closing(s, g).Some? && Closing(s, g) == Closing(s, h) ==> g == h)
  }

  /** Reference counts are exact and every stored pointer is owned by storage. */
  ghost predicate Slots(s: State) {
    && s.refs.Keys == s.store.Keys
    && (forall x <- s.refs :: s.refs[x] >= 1 && s.refs[x] == |Holders(s, x)|)
    && (forall m <- s.ptr :: s.ptr[m].Slot? ==> s.ptr[m].at in s.refs)
  }

  function Engaged(s: State, g: Loc): Option<Loc> { if Pledge(s, g).Some? then Pledge(s, g) else Closing(s, g) }

  predicate Hungry(s: State, g: Loc) { g in s.call && s.call[g].Get? && s.call[g].wants && s.call[g].out.None? }

  /** A port putter's pointer survives until its one data getter has copied. A datum that is not `Copy` has one getter
      if any takes it, and its getters find the move flag disabled. */
  ghost predicate Takers(c: Config, s: State) {
    && (forall g, h :: Engaged(s, g).Some? && Engaged(s, g) == Engaged(s, h)
          && (if c.isCopy then IsPoPu(c, Engaged(s, g).value) && Wants(s, g) && Wants(s, h) else Wants(s, g))
          ==> g == h)
    && (forall g :: Engaged(s, g).Some? ==>
          && (IsPoPu(c, Engaged(s, g).value) && Hungry(s, g) ==> Engaged(s, g).value in s.ptr)
          && (!c.isCopy ==> Engaged(s, g).value in s.flags && s.flags[Engaged(s, g).value].disabled))
  }

  ghost predicate Inv(c: Config, s: State) {
    !s.fault && Locations(c, s) && LockOk(c, s) && Counts(s) && Slots(s) && Takers(c, s)
  }

  // ---------------------------------------------------------------- steps that engage nobody

  lemma EngagedSame(s: State, s': State)
    requires forall g :: Pledge(s', g) == Pledge(s, g) && Closing(s', g) == Closing(s, g)
    ensures forall p :: Out(s', p) == Out(s, p) && Closers(s', p) == Closers(s, p)
    ensures forall p :: Busy(s', p) == Busy(s, p)
  {
    forall p ensures Out(s', p) == Out(s, p) && Closers(s', p) == Closers(s, p) {
      assert forall g :: g in Out(s', p) <==> g in Out(s, p);
      assert forall g :: g in Closers(s', p) <==> g in Closers(s, p);
    }
  }

  /** No move flag is enabled again, unless the data is `Copy`. */
  ghost predicate StillDisabled(c: Config, s: State, s': State) {
    !c.isCopy ==> forall p <- s.flags :: s.flags[p].disabled ==> p in s'.flags && s'.flags[p].disabled
  }

  ghost predicate SameBusy(s: State, s': State) { forall p :: Busy(s', p) == Busy(s, p) }

  /** A step that changes one location only, engages nobody and leaves the slots alone keeps the invariant if it
      keeps that location good. */
  lemma LocalStep(c: Config, s: State, s': State, l: Loc)
    requires Inv(c, s) && !s'.fault && LockOk(c, s')
    requires forall k :: k != l ==> ViewOf(s', k) == ViewOf(s, k)
    requires Pledge(s', l) == Pledge(s, l) && Closing(s', l) == Closing(s, l)
    requires Good(c, l, ViewOf(s', l), Busy(s, l))
    requires s'.refs == s.refs && s'.store == s.store && s'.count == s.count && StillDisabled(c, s, s')
    requires Lookup(s'.ptr, l) == Lookup(s.ptr, l)
      || (Lookup(s'.ptr, l) == Some(Stack) && (l in s.ptr ==> s.ptr[l].Stack?))
    requires Engaged(s, l).Some? ==> Wants(s', l) == Wants(s, l) && Hungry(s', l) == Hungry(s, l)
    ensures Inv(c, s') && SameBusy(s, s')
  {
    LocalLocations(c, s, s', l);
    LocalTables(c, s, s', l);
  }

  lemma LocalLocations(c: Config, s: State, s': State, l: Loc)
    requires Locations(c, s) && Counts(s)
    requires forall k :: k != l ==> ViewOf(s', k) == ViewOf(s, k)
    requires Pledge(s', l) == Pledge(s, l) && Closing(s', l) == Closing(s, l)
    requires Good(c, l, ViewOf(s', l), Busy(s, l))
    requires s'.count == s.count
    ensures Locations(c, s') && Counts(s') && SameBusy(s, s')
  {
    hide Good;
    forall g ensures Pledge(s', g) == Pledge(s, g) && Closing(s', g) == Closing(s, g) {
      assert g != l ==> ViewOf(s', g) == ViewOf(s, g);
    }
    EngagedSame(s, s');
  }

  /** Where a cell's pointer leads, if it has one. */
  function SlotAt(s: State, m: Loc): Option<Ptr> { if m in s.ptr && s.ptr[m].Slot? then Some(s.ptr[m].at) else None }

  lemma SlotsKept(s: State, s': State)
    requires Slots(s) && s'.refs == s.refs && s'.store == s.store
    requires forall m :: SlotAt(s', m) == SlotAt(s, m)
    ensures Slots(s')
  {
    forall x ensures Holders(s', x) == Holders(s, x) {
      forall m ensures m in Holders(s', x) <==> m in Holders(s, x) {
        assert SlotAt(s', m) == SlotAt(s, m);
      }
    }
    assert forall m <- s'.ptr :: s'.ptr[m].Slot? ==> SlotAt(s', m) == Some(s'.ptr[m].at);
  }

  /** Getters may leave, copy and keep the others' pointers. */
  lemma TakersShrink(c: Config, s: State, s': State)
    requires Takers(c, s)
    requires forall g :: Engaged(s', g).Some? ==> Engaged(s, g) == Engaged(s', g) && Wants(s', g) == Wants(s, g)
    requires forall g :: Engaged(s', g).Some? && Hungry(s', g) ==>
               Hungry(s, g)
                 && (IsPoPu(c, Engaged(s', g).value) && Engaged(s', g).value in s.ptr ==>
                       Engaged(s', g).value in s'.ptr)
    requires StillDisabled(c, s, s')
    ensures Takers(c, s')
  {
    hide Engaged, Wants, Hungry;
  }

  lemma LocalTables(c: Config, s: State, s': State, l: Loc)
    requires Slots(s) && Takers(c, s)
    requires forall k :: k != l ==> ViewOf(s', k) == ViewOf(s, k)
    requires Pledge(s', l) == Pledge(s, l) && Closing(s', l) == Closing(s, l)
    requires s'.refs == s.refs && s'.store == s.store && StillDisabled(c, s, s')
    requires Lookup(s'.ptr, l) == Lookup(s.ptr, l)
      || (Lookup(s'.ptr, l) == Some(Stack) && (l in s.ptr ==> s.ptr[l].Stack?))
    requires Engaged(s, l).Some? ==> Wants(s', l) == Wants(s, l) && Hungry(s', l) == Hungry(s, l)
    ensures Slots(s') && Takers(c, s')
  {
    forall k
      ensures SlotAt(s', k) == SlotAt(s, k) && (k in s.ptr ==> k in s'.ptr)
      ensures Engaged(s', k) == Engaged(s, k)
      ensures Engaged(s, k).Some? ==> Wants(s', k) == Wants(s, k) && Hungry(s', k) == Hungry(s, k)
    {
      assert k != l ==> ViewOf(s', k) == ViewOf(s, k);
    }
    SlotsKept(s, s');
    TakersShrink(c, s, s');
  }

  // ---------------------------------------------------------------- the invariant starts and is kept

  lemma InitInv(c: Config)
    ensures Inv(c, Init(c))
  {
    assert forall l :: !Busy(Init(c), l);
  }

  lemma GoodAt(c: Config, s: State, l: Loc)
    requires Locations(c, s)
    ensures Good(c, l, ViewOf(s, l), Busy(s, l))
  {
  }

  lemma PledgedToPutter(c: Config, s: State, g: Loc)
    requires Locations(c, s)
    ensures Pledge(s, g).Some? ==> Busy(s, Pledge(s, g).value) && IsPutter(c, Pledge(s, g).value)
    ensures Closing(s, g).Some? ==> Busy(s, Closing(s, g).value) && IsPutter(c, Closing(s, g).value)
  {
    if Pledge(s, g).Some? {
      assert g in Out(s, Pledge(s, g).value);
      GoodAt(c, s, Pledge(s, g).value);
    }
    if Closing(s, g).Some? {
      assert g in Closers(s, Closing(s, g).value);
      GoodAt(c, s, Closing(s, g).value);
    }
  }

  lemma SameLock(c: Config, s: State, s': State)
    requires LockOk(c, s) && Rest(s'.lock) == Rest(s.lock)
    requires (Sends(s'.lock) == Sends(s.lock) || (Sends(s.lock) != [] && Sends(s'.lock) == Sends(s.lock)[1..]))
    ensures LockOk(c, s')
  {
    assert SetOf(Sends(s'.lock)) <= SetOf(Sends(s.lock));
  }

  lemma BeginPutInv(c: Config, s: State, p: Loc, v: Val, timed: bool)
    requires Inv(c, s) && Enabled(c, s, BeginPut(p, v, timed))
    ensures Inv(c, Do(c, s, BeginPut(p, v, timed))) && SameBusy(s, Do(c, s, BeginPut(p, v, timed)))
  {
    hide Locations, Counts, Slots, Takers, LockOk, ActionsOk, Busy, Out, Closers, Putters, Getters, DoWork, DoFinalize,
      Dispatch, FillGetters;
    GoodAt(c, s, p);
    SameLock(c, s, Do(c, s, BeginPut(p, v, timed)));
    LocalStep(c, s, Do(c, s, BeginPut(p, v, timed)), p);
  }

  lemma EnterPutInv(c: Config, s: State, p: Loc)
    requires Inv(c, s) && Enabled(c, s, EnterPut(p))
    ensures Inv(c, Do(c, s, EnterPut(p))) && SameBusy(s, Do(c, s, EnterPut(p)))
  {
    hide Locations, Counts, Slots, Takers, LockOk, ActionsOk, Busy, Out, Closers, Putters, Getters, DoWork, DoFinalize,
      Dispatch, FillGetters;
    GoodAt(c, s, p);
    SameLock(c, s, Do(c, s, EnterPut(p)));
    LocalStep(c, s, Do(c, s, EnterPut(p)), p);
  }

  lemma EnterGetInv(c: Config, s: State, g: Loc, wants: bool, timed: bool)
    requires Inv(c, s) && Enabled(c, s, EnterGet(g, wants, timed))
    ensures Inv(c, Do(c, s, EnterGet(g, wants, timed))) && SameBusy(s, Do(c, s, EnterGet(g, wants, timed)))
  {
    hide Locations, Counts, Slots, Takers, LockOk, ActionsOk, Busy, Out, Closers, Putters, Getters, DoWork, DoFinalize,
      Dispatch, FillGetters;
    GoodAt(c, s, g);
    SameLock(c, s, Do(c, s, EnterGet(g, wants, timed)));
    LocalStep(c, s, Do(c, s, EnterGet(g, wants, timed)), g);
  }

  lemma ReleaseInv(c: Config, s: State)
    requires Inv(c, s) && Enabled(c, s, Release)
    ensures Inv(c, Do(c, s, Release)) && SameBusy(s, Do(c, s, Release))
  {
    hide Locations, Counts, Slots, Takers, LockOk, ActionsOk, Busy, Out, Closers, Putters, Getters, DoWork, DoFinalize,
      Dispatch, FillGetters;
    GoodAt(c, s, 0);
    SameLock(c, s, Do(c, s, Release));
    LocalStep(c, s, Do(c, s, Release), 0);
  }

  lemma SendNextInv(c: Config, s: State)
    requires Inv(c, s) && Enabled(c, s, SendNext)
    ensures Inv(c, Do(c, s, SendNext)) && SameBusy(s, Do(c, s, SendNext))
  {
    hide Locations, Counts, Slots, Takers, LockOk, ActionsOk, Busy, Out, Closers, Putters, Getters, RoleOf, DoWork,
      DoFinalize, Dispatch, FillGetters;
    var g := s.lock.sends[0];
    GoodAt(c, s, g);
    SameLock(c, s, Do(c, s, SendNext));
    SendNextRoles(c, s);
    assert forall k :: k != g ==> (k in s.lock.sends[1..] <==> k in s.lock.sends);
    LocalStep(c, s, Do(c, s, SendNext), g);
  }

  lemma SendNextRoles(c: Config, s: State)
    requires LockOk(c, s) && s.lock.Held? && s.lock.sends != []
    ensures RoleOf(s.lock, s.lock.sends[0]) == ToSend
    ensures forall s': State | s'.lock == s.lock.(sends := s.lock.sends[1..]) ::
              RoleOf(s'.lock, s.lock.sends[0]) == Idle && forall k :: k != s.lock.sends[0] ==>
                RoleOf(s'.lock, k) == RoleOf(s.lock, k)
  {
    hide ActionsOk, Putters, Getters;
    assert s.lock.sends[0] in SetOf(Sends(s.lock));
  }

  lemma TimeOutInv(c: Config, s: State, l: Loc)
    requires Inv(c, s) && Enabled(c, s, TimeOut(l))
    ensures Inv(c, Do(c, s, TimeOut(l))) && SameBusy(s, Do(c, s, TimeOut(l)))
  {
    hide Locations, Counts, Slots, Takers, LockOk, ActionsOk, Busy, Out, Closers, Putters, Getters, DoWork, DoFinalize,
      Dispatch, FillGetters;
    GoodAt(c, s, l);
    SameLock(c, s, Do(c, s, TimeOut(l)));
    LocalStep(c, s, Do(c, s, TimeOut(l)), l);
  }

  lemma RevokeInTimeInv(c: Config, s: State, l: Loc)
    requires Inv(c, s) && l in s.call && s.call[l].phase.Revoking? && l in s.ready
    ensures Inv(c, DoRevoke(s, l)) && SameBusy(s, DoRevoke(s, l))
  {
    hide Locations, Counts, Slots, Takers, LockOk, ActionsOk, Busy, Out, Closers, Putters, Getters;
    GoodAt(c, s, l);
    SameLock(c, s, DoRevoke(s, l));
    LocalStep(c, s, DoRevoke(s, l), l);
  }

  lemma RevokeTooLateInv(c: Config, s: State, l: Loc)
    requires Inv(c, s) && l in s.call && s.call[l].phase.Revoking? && l !in s.ready
    ensures Inv(c, DoRevoke(s, l)) && SameBusy(s, DoRevoke(s, l))
  {
    hide Locations, Counts, Slots, Takers, LockOk, ActionsOk, Busy, Out, Closers, Putters, Getters;
    GoodAt(c, s, l);
    SameLock(c, s, DoRevoke(s, l));
    LocalStep(c, s, DoRevoke(s, l), l);
  }

  lemma RevokeInv(c: Config, s: State, l: Loc)
    requires Inv(c, s) && l in s.call && s.call[l].phase.Revoking?
    ensures Inv(c, DoRevoke(s, l)) && SameBusy(s, DoRevoke(s, l))
  {
    hide SameBusy, Inv, DoRevoke;
    if l in s.ready {
      RevokeInTimeInv(c, s, l);
    } else {
      RevokeTooLateInv(c, s, l);
    }
  }

  lemma ReturnInv(c: Config, s: State, l: Loc)
    requires Inv(c, s) && Enabled(c, s, Return(l))
    ensures Inv(c, Do(c, s, Return(l))) && SameBusy(s, Do(c, s, Return(l)))
  {
    hide Locations, Counts, Slots, Takers, LockOk, ActionsOk, Busy, Out, Closers, Putters, Getters, DoWork, DoFinalize,
      Dispatch, FillGetters;
    GoodAt(c, s, l);
    SameLock(c, s, Do(c, s, Return(l)));
    LocalStep(c, s, Do(c, s, Return(l)), l);
  }

  lemma RecvInv(c: Config, s: State, l: Loc)
    requires Inv(c, s) && l in s.call && l in s.box && BeforeMessage(s.call[l].phase)
    ensures Inv(c, DoRecv(c, s, l)) && SameBusy(s, DoRecv(c, s, l))
  {
    hide Locations, Counts, Slots, Takers, LockOk, ActionsOk, Busy, Out, Closers, Putters, Getters;
    GoodAt(c, s, l);
    PledgedToPutter(c, s, l);
    SameLock(c, s, DoRecv(c, s, l));
    LocalStep(c, s, DoRecv(c, s, l), l);
  }

  // ---------------------------------------------------------------- acquiring the data

  /** Setting flags and moving on inside `acquire_data`: the getter stays engaged as it was. */
  lemma FlagStepInv(c: Config, s: State, g: Loc, s': State, next: Phase)
    requires Inv(c, s) && g in s.call && s.call[g].Get? && GetOk(c, WithPhase(s.call[g], next))
    requires s' == SetPhase(s.(flags := s'.flags), g, next) && StillDisabled(c, s, s')
    requires (BeforeLeave(s.call[g].phase) && BeforeLeave(next)) || (LastOut(s.call[g].phase) && LastOut(next))
    requires next.src == s.call[g].phase.src
    ensures Inv(c, s') && SameBusy(s, s')
  {
    hide Locations, Counts, Slots, Takers, LockOk, ActionsOk, Busy, Out, Closers, Putters, Getters, GetOk;
    GoodAt(c, s, g);
    SameLock(c, s, s');
    LocalStep(c, s, s', g);
  }

  lemma OneOut(c: Config, s: State, g: Loc)
    requires Inv(c, s) && Pledge(s, g).Some?
    ensures g in Out(s, Pledge(s, g).value)
    ensures Pledge(s, g).value in s.count && s.count[Pledge(s, g).value] == |Out(s, Pledge(s, g).value)| >= 1
    ensures !c.isCopy && Wants(s, g) ==> s.count[Pledge(s, g).value] == 1
    ensures !c.isCopy ==> Pledge(s, g).value in s.flags && s.flags[Pledge(s, g).value].disabled
  {
    hide Locations, Slots, LockOk;
    var p := Pledge(s, g).value;
    assert g in Out(s, p);
    assert Busy(s, p);
    assert Engaged(s, g) == Some(p);
    if !c.isCopy && Wants(s, g) {
      forall h | h in Out(s, p) ensures h == g {
        assert Engaged(s, h) == Some(p);
      }
      assert Out(s, p) == {g};
    }
  }

  lemma LeaveSets(s: State, g: Loc, s': State, next: Phase)
    requires g in s.call && BeforeLeave(s.call[g].phase) && s.call[g].Get?
    requires s'.call == s.call[g := WithPhase(s.call[g], next)] && s'.box == s.box && s'.lock == s.lock
    requires next.Served? || (LastOut(next) && next.src == s.call[g].phase.src)
    ensures g in Out(s, s.call[g].phase.src)
    ensures Out(s', s.call[g].phase.src) == Out(s, s.call[g].phase.src) - {g}
    ensures Closers(s', s.call[g].phase.src) == Closers(s, s.call[g].phase.src) + (if next.Served? then {} else {g})
    ensures forall p :: p != s.call[g].phase.src ==> Out(s', p) == Out(s, p) && Closers(s', p) == Closers(s, p)
  {
    forall k
      ensures k != g ==> Pledge(s', k) == Pledge(s, k) && Closing(s', k) == Closing(s, k)
      ensures k == g ==> Pledge(s, k) == Some(s.call[g].phase.src) && Pledge(s', k) == None && Closing(s, k) == None
      ensures k == g ==> Closing(s', k) == if next.Served? then None else Some(s.call[g].phase.src)
    {
    }
    EngagedMoved(s, g, s', s.call[g].phase.src);
  }

  lemma EngagedMoved(s: State, g: Loc, s': State, src: Loc)
    requires s'.call.Keys == s.call.Keys && g in s.call
    requires forall k :: k != g ==> Pledge(s', k) == Pledge(s, k) && Closing(s', k) == Closing(s, k)
    requires Pledge(s, g) == Some(src) && Pledge(s', g) == None && Closing(s, g) == None
    requires Closing(s', g) == Some(src) || Closing(s', g) == None
    ensures g in Out(s, src)
    ensures Out(s', src) == Out(s, src) - {g}
    ensures Closers(s', src) == Closers(s, src) + (if Closing(s', g).None? then {} else {g})
    ensures forall p :: p != src ==> Out(s', p) == Out(s, p) && Closers(s', p) == Closers(s, p)
  {
    hide Pledge, Closing;
    assert forall k :: k in Out(s', src) <==> k in Out(s, src) && k != g;
    forall p | p != src ensures Out(s', p) == Out(s, p) && Closers(s', p) == Closers(s, p) {
      assert forall k :: (k in Out(s', p) <==> k in Out(s, p)) && (k in Closers(s', p) <==> k in Closers(s, p));
    }
  }

  /** Counting down keeps the countdown exact, and the putter busy until its finalizer. */
  lemma LeaveCounts(c: Config, s: State, g: Loc, s': State, next: Phase)
    requires Counts(s) && g in s.call && BeforeLeave(s.call[g].phase) && s.call[g].Get?
    requires var src := s.call[g].phase.src;
             && src in s.count && s.count[src] >= 1
             && s' == SetPhase(s.(count := s.count[src := s.count[src] - 1]), g, next)
             && (if s.count[src] == 1 then LastOut(next) && next.src == src else next.Served?)
    ensures Counts(s') && forall p :: Busy(s', p) == Busy(s, p)
  {
    hide Pledge, Closing, Out, Closers;
    var src := s.call[g].phase.src;
    LeaveSets(s, g, s', next);
    assert Busy(s, src);
    assert s.count[src] == |Out(s, src)| && Closers(s, src) == {};
    assert |Out(s', src)| == |Out(s, src)| - 1;
    OneCloser(s, g, s', next);
  }

  lemma OneCloser(s: State, g: Loc, s': State, next: Phase)
    requires Counts(s) && g in s.call && BeforeLeave(s.call[g].phase) && s.call[g].Get?
    requires s'.call == s.call[g := WithPhase(s.call[g], next)] && Closers(s, s.call[g].phase.src) == {}
    requires next.Served? || (LastOut(next) && next.src == s.call[g].phase.src)
    ensures forall a, b :: Closing(s', a).Some? && Closing(s', a) == Closing(s', b) ==> a == b
  {
    hide Pledge, Busy;
    assert forall o :: Closing(s, o) == Some(s.call[g].phase.src) ==> o in Closers(s, s.call[g].phase.src);
    forall a, b | Closing(s', a).Some? && Closing(s', a) == Closing(s', b) ensures a == b {
      assert forall k :: k != g ==> Closing(s', k) == Closing(s, k);
    }
  }

  lemma LeaveInv(c: Config, s: State, g: Loc, s': State, next: Phase)
    requires Inv(c, s) && g in s.call && BeforeLeave(s.call[g].phase) && s.call[g].Get?
    requires var src := s.call[g].phase.src;
             && src in s.count && s.count[src] >= 1
             && s' == SetPhase(s.(count := s.count[src := s.count[src] - 1]), g, next)
             && (if s.count[src] == 1 then LastOut(next) && next.src == src else next.Served?)
    requires GetOk(c, WithPhase(s.call[g], next))
    ensures Inv(c, s') && SameBusy(s, s')
  {
    hide Locations, Counts, Slots, Takers, LockOk, GetOk;
    LeaveCounts(c, s, g, s', next);
    LeaveLocations(c, s, g, s', next);
    SameLock(c, s, s');
    SlotsKept(s, s');
    LeaveTakers(c, s, g, s', next);
  }

  lemma LeaveLocations(c: Config, s: State, g: Loc, s': State, next: Phase)
    requires Locations(c, s) && g in s.call && BeforeLeave(s.call[g].phase) && s.call[g].Get?
    requires s' == SetPhase(s.(count := s'.count), g, next)
    requires next.Served? || (LastOut(next) && next.src == s.call[g].phase.src)
    requires GetOk(c, WithPhase(s.call[g], next))
    requires forall p :: Busy(s', p) == Busy(s, p)
    ensures Locations(c, s')
  {
    hide Locations, Busy, GetOk, Putters, Getters;
    GoodAt(c, s, g);
    Relocate(c, s, s', {g});
  }

  lemma LeaveTakers(c: Config, s: State, g: Loc, s': State, next: Phase)
    requires Takers(c, s) && g in s.call && BeforeLeave(s.call[g].phase) && s.call[g].Get?
    requires s' == SetPhase(s.(count := s'.count), g, next)
    requires next.Served? || (LastOut(next) && next.src == s.call[g].phase.src)
    ensures Takers(c, s')
  {
    hide Takers;
    forall k
      ensures Engaged(s', k).Some? ==> Engaged(s, k) == Engaged(s', k)
      ensures Wants(s', k) == Wants(s, k) && Hungry(s', k) == Hungry(s, k)
    {
    }
    TakersShrink(c, s, s');
  }

  /** Only the locations in `ls` have changed. */
  lemma Relocate(c: Config, s: State, s': State, ls: set<Loc>)
    requires Locations(c, s)
    requires forall k :: Busy(s', k) == Busy(s, k) || k in ls
    requires forall k :: k !in ls ==> ViewOf(s', k) == ViewOf(s, k)
    requires forall k <- ls :: Good(c, k, ViewOf(s', k), Busy(s', k))
    ensures Locations(c, s')
  {
    hide Good, Busy;
  }

  /** A step after which everybody is engaged as before. */
  lemma QuietStep(s: State, s': State)
    requires Counts(s) && s'.count == s.count
    requires forall k :: Pledge(s', k) == Pledge(s, k) && Closing(s', k) == Closing(s, k)
    ensures Counts(s') && forall p :: Busy(s', p) == Busy(s, p)
  {
    hide Pledge, Closing;
    EngagedSame(s, s');
  }

  /** A getter that still has to take data finds it. */
  lemma DatumThere(c: Config, s: State, g: Loc)
    requires Inv(c, s) && Engaged(s, g).Some? && (Hungry(s, g) || IsMemo(c, Engaged(s, g).value))
    ensures Deref(s, Engaged(s, g).value).Some?
  {
    hide Locations, Counts, LockOk, Busy, Out, Closers;
    var src := Engaged(s, g).value;
    PledgedToPutter(c, s, g);
    GoodAt(c, s, src);
  }

  lemma PortSlot(c: Config, s: State, l: Loc)
    requires Locations(c, s)
    ensures !IsMemo(c, l) ==> SlotAt(s, l) == None
  {
    GoodAt(c, s, l);
  }

  lemma CopyOutInv(c: Config, s: State, g: Loc, src: Loc, next: Phase)
    requires Inv(c, s) && Hungry(s, g) && Engaged(s, g) == Some(src)
    requires (s.call[g].phase.Copying? && next == Leaving(src))
      || (s.call[g].phase.Moving? && next == Finalizing(src, true))
    ensures Inv(c, CopyOut(c, s, g, src, true, next)) && SameBusy(s, CopyOut(c, s, g, src, true, next))
  {
    hide Locations, Counts, Slots, Takers, LockOk, Good, GetOk;
    DatumThere(c, s, g);
    var s' := CopyOut(c, s, g, src, true, next);
    CopyOutLocations(c, s, g, src, next, s');
    SameLock(c, s, s');
    PortSlot(c, s, src);
    SlotsKept(s, s');
    CopyOutTakers(c, s, g, src, next, s');
  }

  /** The getter's datum is copied out and the port's pointer taken. */
  ghost predicate CopiedOut(c: Config, s: State, g: Loc, src: Loc, next: Phase, s': State) {
    && Hungry(s, g) && Engaged(s, g) == Some(src) && Deref(s, src).Some? && s' == CopyOut(c, s, g, src, true, next)
    && ((s.call[g].phase.Copying? && next == Leaving(src))
          || (s.call[g].phase.Moving? && next == Finalizing(src, true)))
  }

  lemma CopyOutViews(c: Config, s: State, g: Loc, src: Loc, next: Phase, s': State)
    requires CopiedOut(c, s, g, src, next, s')
    ensures forall k :: Pledge(s', k) == Pledge(s, k) && Closing(s', k) == Closing(s, k)
    ensures forall k :: k != g && k != src ==> ViewOf(s', k) == ViewOf(s, k)
  {
    hide Deref, RoleOf;
  }

  lemma CopyOutGood(c: Config, s: State, g: Loc, src: Loc, next: Phase, s': State)
    requires CopiedOut(c, s, g, src, next, s') && Locations(c, s)
    ensures Good(c, g, ViewOf(s', g), Busy(s, g)) && Good(c, src, ViewOf(s', src), Busy(s, src))
  {
    hide Locations, Busy, Deref, RoleOf;
    PledgedToPutter(c, s, g);
    GoodAt(c, s, g);
    GoodAt(c, s, src);
  }

  lemma CopyOutLocations(c: Config, s: State, g: Loc, src: Loc, next: Phase, s': State)
    requires Locations(c, s) && Counts(s) && CopiedOut(c, s, g, src, next, s')
    ensures Locations(c, s') && Counts(s') && SameBusy(s, s')
  {
    hide Locations, Counts, Busy, Deref, Good, ViewOf, Pledge, Closing;
    CopyOutViews(c, s, g, src, next, s');
    CopyOutGood(c, s, g, src, next, s');
    QuietStep(s, s');
    Relocate(c, s, s', {g, src});
  }

  lemma CopyOutTakers(c: Config, s: State, g: Loc, src: Loc, next: Phase, s': State)
    requires Takers(c, s) && Hungry(s, g) && Engaged(s, g) == Some(src)
    requires (s.call[g].phase.Copying? && next == Leaving(src))
      || (s.call[g].phase.Moving? && next == Finalizing(src, true))
    requires s' == CopyOut(c, s, g, src, true, next) && Deref(s, src).Some?
    ensures Takers(c, s')
  {
    OnlyTaker(c, s, g, src);
    hide Takers, Deref;
    forall k
      ensures Engaged(s', k) == Engaged(s, k) && Wants(s', k) == Wants(s, k)
      ensures k != g ==> Hungry(s', k) == Hungry(s, k)
    {
    }
    TakersShrink(c, s, s');
  }

  lemma OnlyTaker(c: Config, s: State, g: Loc, src: Loc)
    requires Takers(c, s) && Hungry(s, g) && Engaged(s, g) == Some(src)
    ensures IsPoPu(c, src) ==> forall h :: Engaged(s, h) == Some(src) && Hungry(s, h) ==> h == g
  {
    hide Engaged;
    forall h | IsPoPu(c, src) && Engaged(s, h) == Some(src) && Hungry(s, h) ensures h == g {
      assert Wants(s, h) && Wants(s, g);
    }
  }

  // ---------------------------------------------------------------- finalizing

  /** The last getter out lets go of its putter: nobody is left. */
  lemma CloseSets(c: Config, s: State, g: Loc, s': State)
    requires Counts(s) && g in s.call && s.call[g].Get? && LastOut(s.call[g].phase)
    requires s'.call == s.call[g := WithPhase(s.call[g], Served)] && s'.count == s.count
    requires s'.lock == s.lock || (Sends(s.lock) == [] && Sends(s'.lock) == [])
    requires s'.box.Keys - {s.call[g].phase.src} == s.box.Keys - {s.call[g].phase.src}
    requires forall k <- s.box :: k in s'.box && s'.box[k] == s.box[k]
    requires s.call[g].phase.src in s.call ==> s.call[s.call[g].phase.src].Put?
    ensures forall k :: Pledge(s', k) == Pledge(s, k) && (k != g ==> Closing(s', k) == Closing(s, k))
    ensures Closing(s', g) == None && Busy(s, s.call[g].phase.src)
    ensures forall p :: Busy(s', p) == (Busy(s, p) && p != s.call[g].phase.src)
    ensures Counts(s')
  {
    var src := s.call[g].phase.src;
    assert g in Closers(s, src);
    forall k ensures Pledge(s', k) == Pledge(s, k) && (k != g ==> Closing(s', k) == Closing(s, k)) {
      assert k != src ==> (k in s'.box.Keys - {src} <==> k in s.box.Keys - {src});
    }
    ClosedSets(s, g, s', src);
  }

  lemma ClosedSets(s: State, g: Loc, s': State, src: Loc)
    requires Counts(s) && s'.call.Keys == s.call.Keys && s'.count == s.count
    requires forall k :: Pledge(s', k) == Pledge(s, k) && (k != g ==> Closing(s', k) == Closing(s, k))
    requires Closing(s, g) == Some(src) && Closing(s', g) == None && g in s.call
    ensures forall p :: Busy(s', p) == (Busy(s, p) && p != src)
    ensures Counts(s')
  {
    hide Pledge, Closing;
    assert g in Closers(s, src) && Busy(s, src) && Out(s, src) == {};
    forall p ensures Out(s', p) == Out(s, p) && Closers(s', p) == (if p == src then {} else Closers(s, p)) {
      assert forall k :: k in Out(s', p) <==> k in Out(s, p);
      assert forall k :: k in Closers(s, src) ==> k == g;
      assert p != src ==> forall k :: k in Closers(s', p) <==> k in Closers(s, p);
      assert forall k :: k in Closers(s', src) ==> false;
    }
  }

  /** The last getter of a port putter reports to its dropbox. */
  lemma FinalizePortInv(c: Config, s: State, g: Loc)
    requires Inv(c, s) && g in s.call && s.call[g].Get? && s.call[g].phase.Finalizing? && IsPoPu(c, s.call[g].phase.src)
    ensures Inv(c, DoFinalize(c, s, g))
  {
    hide Locations, Counts, Slots, Takers, LockOk, Good, GetOk;
    FinalizePortLocations(c, s, g, DoFinalize(c, s, g));
    SameLock(c, s, DoFinalize(c, s, g));
    SlotsKept(s, DoFinalize(c, s, g));
    ClosedTakers(c, s, g, DoFinalize(c, s, g));
  }

  lemma FinalizePortLocations(c: Config, s: State, g: Loc, s': State)
    requires Inv(c, s) && g in s.call && s.call[g].Get? && s.call[g].phase.Finalizing? && IsPoPu(c, s.call[g].phase.src)
    requires s' == DoFinalize(c, s, g)
    ensures Locations(c, s') && Counts(s') && !s'.fault
    ensures forall k :: k != g ==> Pledge(s', k) == Pledge(s, k) && Closing(s', k) == Closing(s, k)
  {
    hide Locations, Counts, Slots, Takers, LockOk, Busy, Out, Closers, Good, RoleOf;
    var src := s.call[g].phase.src;
    PledgedToPutter(c, s, g);
    BusyPort(c, s, src);
    CloseSets(c, s, g, s');
    ServedGood(c, s, g, s');
    ReportedGood(c, s, src, s');
    Relocate(c, s, s', {g, src});
  }

  lemma BusyPort(c: Config, s: State, p: Loc)
    requires Locations(c, s) && Busy(s, p) && IsPoPu(c, p)
    ensures p in s.call && s.call[p].Put? && BeforeMessage(s.call[p].phase) && p !in s.box
  {
    hide Busy;
    GoodAt(c, s, p);
  }

  lemma ServedGood(c: Config, s: State, g: Loc, s': State)
    requires Locations(c, s) && g in s.call && s.call[g].Get? && s.call[g].phase.Finalizing?
    requires g in s'.call && s'.call[g] == WithPhase(s.call[g], Served) && RoleOf(s'.lock, g) == RoleOf(s.lock, g)
    requires (g in s'.ready <==> g in s.ready) && (g in s'.mem <==> g in s.mem)
    requires Lookup(s'.ptr, g) == Lookup(s.ptr, g) && Lookup(s'.box, g) == Lookup(s.box, g)
    requires Busy(s', g) == Busy(s, g)
    ensures Good(c, g, ViewOf(s', g), Busy(s', g))
  {
    hide Locations, Busy, RoleOf;
    GoodAt(c, s, g);
  }

  lemma ReportedGood(c: Config, s: State, p: Loc, s': State)
    requires Locations(c, s) && Busy(s, p) && !Busy(s', p) && IsPoPu(c, p)
    requires Lookup(s'.call, p) == Lookup(s.call, p) && RoleOf(s'.lock, p) == RoleOf(s.lock, p)
    requires (p in s'.ready <==> p in s.ready) && (p in s'.mem <==> p in s.mem)
    requires Lookup(s'.ptr, p) == Lookup(s.ptr, p) && p in s'.box && (s'.box[p] == 0 || s'.box[p] == 1)
    ensures Good(c, p, ViewOf(s', p), Busy(s', p))
  {
    hide Locations, Busy, RoleOf;
    GoodAt(c, s, p);
  }

  lemma ClosedTakers(c: Config, s: State, g: Loc, s': State)
    requires Takers(c, s) && g in s.call && s.call[g].Get? && LastOut(s.call[g].phase)
    requires s'.call == s.call[g := WithPhase(s.call[g], Served)] && s'.flags == s.flags
    requires forall k :: k != g ==> Pledge(s', k) == Pledge(s, k) && Closing(s', k) == Closing(s, k)
    requires forall p :: IsPoPu(c, p) && p in s.ptr ==> p in s'.ptr
    ensures Takers(c, s')
  {
    hide Takers;
    forall k
      ensures Engaged(s', k).Some? ==> Engaged(s, k) == Engaged(s', k)
      ensures Wants(s', k) == Wants(s, k) && Hungry(s', k) == Hungry(s, k)
    {
    }
    TakersShrink(c, s, s');
  }
}
