/** Data that is not `Copy` is linear: at every moment each value put is in exactly one place, or has left once. */
module Linear {
  import opened Wrappers
  import opened Protocol
  import opened ProtocolInvariant
  import opened ProtocolFiring
  import opened ProtocolSafety
  import opened Refinement
  import opened RefinementFiring
  import opened StepEffects

  /** The places a value can be: the stack of a put, a storage slot, the hands of a getter. */
  datatype Place = OnStack(p: Loc) | InSlot(x: Ptr) | InHand(g: Loc)

  /** The datum of a put is its own until its pointer is taken or it is told that it was moved. */
  function StackDatum(s: State, p: Loc): Option<Val> {
    if p !in s.call || !s.call[p].Put? then None
    else if s.call[p].phase.Sent? then (if s.call[p].phase.moved then None else Some(s.call[p].datum))
    else if p in s.ptr && Lookup(s.box, p) != Some(1) then Some(s.call[p].datum)
    else None
  }

  function HandDatum(s: State, g: Loc): Option<Val> { if g in s.call && s.call[g].Get? then s.call[g].out else None }

  /** The getter has copied the datum out of the slot, and has yet to free it. */
  predicate Took(s: State, g: Loc, x: Ptr) {
    HandDatum(s, g).Some? && Engaged(s, g).Some? && SlotAt(s, Engaged(s, g).value) == Some(x)
  }

  function SlotDatum(s: State, x: Ptr): Option<Val> {
    if x !in s.store || exists g <- s.call :: Took(s, g, x) then None else Some(s.store[x])
  }

  function Datum(s: State, q: Place): Option<Val> {
    match q
    case OnStack(p) => StackDatum(s, p)
    case InSlot(x) => SlotDatum(s, x)
    case InHand(g) => HandDatum(s, g)
  }

  function Universe(s: State): set<Place> {
    (set p <- s.call.Keys :: OnStack(p)) + (set x <- s.store.Keys :: InSlot(x)) + (set g <- s.call.Keys :: InHand(g))
  }

  /** Where the value `v` is. */
  function Places(s: State, v: Val): set<Place> { set q | q in Universe(s) && Datum(s, q) == Some(v) }

  /** The value a step brings in: that of a put, or the clone that fills cells when port getters share its datum. */
  function Entry(c: Config, s: State, step: Step): Option<Val> {
    match step
    case BeginPut(_, v, _) => Some(v)
    case Perform(_) =>
      if s.lock.Held? && s.lock.rest != [] then ClonedDatum(c, s, s.lock.rest[0]) else None
    case _ => None
  }

  function ClonedDatum(c: Config, s: State, a: Action): Option<Val> {
    if IsPoPu(c, a.putter) && a.mg != [] && a.pg != [] then Deref(s, a.putter) else None
  }

  /** The value a step hands back to the caller of a put or a get, or drops: `make_empty` drops what the freed slot
      holds unless it is told that someone has moved it. */
  function Exit(c: Config, s: State, step: Step): Option<Val> {
    match step
    case Return(l) =>
      if l !in s.call then None
      else if s.call[l].Get? then s.call[l].out
      else if s.call[l].phase.Sent? && !s.call[l].phase.moved then Some(s.call[l].datum) else None
    case Revoke(l) => if l in s.call && s.call[l].Put? && l in s.ready then Some(s.call[l].datum) else None
    case Perform(slot) =>
      if s.lock.Held? && s.lock.rest != [] && s.lock.rest[0].pg == [] && IsMemo(c, s.lock.rest[0].putter) then
        FreedDatum(FillGetters(c, s, s.lock.rest[0], slot), s.lock.rest[0].putter)
      else None
    case Finalize(g) =>
      if g in s.call && s.call[g].phase.Finalizing? && IsMemo(c, s.call[g].phase.src)
        && !s.call[g].phase.someoneMoved then
        FreedDatum(s, s.call[g].phase.src)
      else None
    case _ => None
  }

  /** What emptying cell `m` would free. */
  function FreedDatum(s: State, m: Loc): Option<Val> {
    if SlotAt(s, m).Some? && SlotAt(s, m).value in s.store && At(s.refs, SlotAt(s, m).value, 0) == 1
    then Some(s.store[SlotAt(s, m).value]) else None
  }

  function One(d: Option<Val>, v: Val): nat { if d == Some(v) then 1 else 0 }

  // ---------------------------------------------------------------- the invariant

  /** The cell's slot has no other holder. */
  predicate SoleAt(s: State, m: Loc) {
    SlotAt(s, m).Some? && SlotAt(s, m).value in s.refs && s.refs[SlotAt(s, m).value] == 1
  }

  /** A port's pointer is taken exactly when its getter has the datum; a cell that is being drained does not share its
      slot; a put told "not moved" still has its datum. */
  ghost predicate Kept(c: Config, s: State) {
    && (forall g :: Engaged(s, g).Some? && IsMemo(c, Engaged(s, g).value) ==> SoleAt(s, Engaged(s, g).value))
    && (forall g :: Engaged(s, g).Some? && IsPoPu(c, Engaged(s, g).value) ==>
          (Engaged(s, g).value in s.ptr <==> HandDatum(s, g).None?))
    && (forall p :: PutWaits(s, p) && Lookup(s.box, p) == Some(0) ==> p in s.ptr)
  }

  predicate PutWaits(s: State, p: Loc) { p in s.call && s.call[p].Put? && BeforeMessage(s.call[p].phase) }

  ghost predicate Linear(c: Config, s: State) { Inv(c, s) && !c.isCopy && Kept(c, s) }

  /** The books balance over one step. */
  ghost predicate Balanced(c: Config, s: State, step: Step)
    requires Enabled(c, s, step)
  {
    forall v :: |Places(Do(c, s, step), v)| + One(Exit(c, s, step), v) == |Places(s, v)| + One(Entry(c, s, step), v)
  }

  lemma PlacesAre(s: State, v: Val, q: Place)
    ensures q in Places(s, v) <==> Datum(s, q) == Some(v)
  {
  }

  /** A value `w` leaves the places `from` and appears at `to`. */
  lemma Transfer(s: State, s': State, from: set<Place>, to: set<Place>, w: Val, v: Val)
    requires forall q :: q !in from && q !in to ==> Datum(s', q) == Datum(s, q)
    requires forall q <- from :: Datum(s, q) == Some(w) && Datum(s', q) == None
    requires forall q <- to :: Datum(s, q) == None && Datum(s', q) == Some(w)
    ensures |Places(s', v)| == |Places(s, v)| + if v == w then |to| - |from| else 0
  {
    hide Datum, Places;
    forall q
      ensures (q in Places(s, v) <==> Datum(s, q) == Some(v)) && (q in Places(s', v) <==> Datum(s', q) == Some(v))
    {
      PlacesAre(s, v, q);
      PlacesAre(s', v, q);
    }
    if v == w {
      assert Places(s', v) == (Places(s, v) - from) + to && from <= Places(s, v) && to !! Places(s, v);
    } else {
      assert Places(s', v) == Places(s, v);
    }
  }

  // ---------------------------------------------------------------- steps of one location

  /** A step that changes one location, engages nobody and leaves the slots alone. */
  lemma LocalKept(c: Config, s: State, s': State, l: Loc)
    requires Linear(c, s) && s'.store == s.store && s'.refs == s.refs
    requires forall k :: k != l ==> Lookup(s'.call, k) == Lookup(s.call, k) && Lookup(s'.ptr, k) == Lookup(s.ptr, k)
                                    && Lookup(s'.box, k) == Lookup(s.box, k)
    requires forall g :: g != l ==> Engaged(s', g) == Engaged(s, g)
    requires Engaged(s', l) == Engaged(s, l)
      || (Engaged(s', l) == None && HandDatum(s, l) == None && HandDatum(s', l) == None)
    requires SlotAt(s', l) == SlotAt(s, l) && (Busy(s, l) ==> (l in s'.ptr <==> l in s.ptr))
    requires Engaged(s, l).Some? ==> HandDatum(s', l) == HandDatum(s, l)
    requires PutWaits(s', l) && Lookup(s'.box, l) == Some(0) ==> l in s'.ptr
    ensures Kept(c, s')
    ensures forall q :: q != OnStack(l) && q != InHand(l) ==> Datum(s', q) == Datum(s, q)
  {
    hide Inv, Busy, Engaged;
    EngagedBusy(s);
    EngagedBusy(s');
    forall k | k != l ensures StackDatum(s', k) == StackDatum(s, k) && HandDatum(s', k) == HandDatum(s, k)
                              && (k in s'.ptr <==> k in s.ptr) && SlotAt(s', k) == SlotAt(s, k)
                              && PutWaits(s', k) == PutWaits(s, k) {
      assert Lookup(s'.call, k) == Lookup(s.call, k) && Lookup(s'.ptr, k) == Lookup(s.ptr, k);
    }
    forall x ensures SlotDatum(s', x) == SlotDatum(s, x) {
      assert forall g :: Took(s', g, x) == Took(s, g, x);
    }
  }

  lemma LinearAt(c: Config, s: State, l: Loc)
    requires Linear(c, s)
    ensures Inv(c, s) && Good(c, l, ViewOf(s, l), Busy(s, l)) && (l in s.ready ==> !Busy(s, l))
    ensures PutWaits(s, l) && Lookup(s.box, l) == Some(0) ==> l in s.ptr
    ensures Sends(s.lock) != [] ==> RoleOf(s.lock, Sends(s.lock)[0]) == ToSend
  {
    hide Counts, Slots, Takers, LockOk, Locations, Busy;
    GoodAt(c, s, l);
  }

  lemma BeginPutBalanced(c: Config, s: State, p: Loc, v: Val, timed: bool)
    requires Linear(c, s) && Enabled(c, s, BeginPut(p, v, timed))
    ensures Kept(c, Do(c, s, BeginPut(p, v, timed))) && Balanced(c, s, BeginPut(p, v, timed))
  {
    hide Inv, Linear, Kept, Busy, Places, SlotDatum, DoWork, DoRecv, DoFinalize, DoRevoke, FillGetters, Dispatch,
      Dispatched, RuleEnabled, DoSelect, Send, MakeEmpty, Working;
    var s' := Do(c, s, BeginPut(p, v, timed));
    LinearAt(c, s, p);
    LocalKept(c, s, s', p);
    forall w {
      Transfer(s, s', {}, {OnStack(p)}, v, w);
    }
  }

  /** Steps of one location that neither bring in nor hand out anything. */
  lemma QuietBalanced(c: Config, s: State, step: Step, l: Loc)
    requires Linear(c, s) && Enabled(c, s, step) && Entry(c, s, step) == None && Exit(c, s, step) == None
    requires var s' := Do(c, s, step); forall q :: Datum(s', q) == Datum(s, q)
    ensures Balanced(c, s, step)
  {
    hide Inv, Linear, Enabled, Do, Exit, Entry, Places, Datum;
    forall w {
      Transfer(s, Do(c, s, step), {}, {}, w, w);
    }
  }

  lemma EnterPutBalanced(c: Config, s: State, p: Loc)
    requires Linear(c, s) && Enabled(c, s, EnterPut(p))
    ensures Kept(c, Do(c, s, EnterPut(p))) && Balanced(c, s, EnterPut(p))
  {
    hide Inv, Linear, Kept, Busy, Places, SlotDatum;
    LinearAt(c, s, p);
    LocalKept(c, s, Do(c, s, EnterPut(p)), p);
    QuietBalanced(c, s, EnterPut(p), p);
  }

  lemma EnterGetBalanced(c: Config, s: State, g: Loc, wants: bool, timed: bool)
    requires Linear(c, s) && Enabled(c, s, EnterGet(g, wants, timed))
    ensures Kept(c, Do(c, s, EnterGet(g, wants, timed))) && Balanced(c, s, EnterGet(g, wants, timed))
  {
    hide Inv, Linear, Kept, Busy, Places, SlotDatum, DoWork, DoRecv, DoFinalize, DoRevoke, FillGetters, Dispatch,
      Dispatched, RuleEnabled, DoSelect, Send, MakeEmpty, Working;
    LinearAt(c, s, g);
    LocalKept(c, s, Do(c, s, EnterGet(g, wants, timed)), g);
    QuietBalanced(c, s, EnterGet(g, wants, timed), g);
  }

  lemma SelectBalanced(c: Config, s: State, i: nat)
    requires Linear(c, s) && Enabled(c, s, Select(i))
    ensures Kept(c, Do(c, s, Select(i))) && Balanced(c, s, Select(i))
  {
    hide Inv, Linear, Kept, Busy, Places, SlotDatum, RuleEnabled;
    LinearAt(c, s, 0);
    LocalKept(c, s, Do(c, s, Select(i)), 0);
    QuietBalanced(c, s, Select(i), 0);
  }

  /** The receiver is a getter with an empty dropbox. */
  lemma SendNextShape(c: Config, s: State)
    requires Inv(c, s) && Enabled(c, s, SendNext)
    ensures var g := s.lock.sends[0];
            && g !in s.box && g in s.call && s.call[g].Get? && BeforeMessage(s.call[g].phase)
            && Do(c, s, SendNext) == s.(box := s.box[g := s.lock.src], lock := s.lock.(sends := s.lock.sends[1..]))
  {
    hide Locations, Counts, Slots, Takers, LockOk, Busy, Putters, Getters;
    var g := s.lock.sends[0];
    GoodAt(c, s, g);
    SendNextRoles(c, s);
  }

  lemma SendNextEngaged(c: Config, s: State)
    requires Inv(c, s) && Enabled(c, s, SendNext)
    ensures forall k :: Engaged(Do(c, s, SendNext), k) == Engaged(s, k)
  {
    hide Locations, Counts, Slots, Takers, ActionsOk, Do, Locs;
    SendNextShape(c, s);
    var g := s.lock.sends[0];
    assert forall k :: k != g ==> (k in s.lock.sends[1..] <==> k in s.lock.sends);
    assert g !in s.lock.sends[1..];
  }

  lemma SendNextBalanced(c: Config, s: State)
    requires Linear(c, s) && Enabled(c, s, SendNext)
    ensures Kept(c, Do(c, s, SendNext)) && Balanced(c, s, SendNext)
  {
    hide Inv, Kept, Busy, Places, SlotDatum, Engaged, Do;
    SendNextShape(c, s);
    SendNextEngaged(c, s);
    LocalKept(c, s, Do(c, s, SendNext), s.lock.sends[0]);
    QuietBalanced(c, s, SendNext, s.lock.sends[0]);
  }

  lemma ReleaseBalanced(c: Config, s: State)
    requires Linear(c, s) && Enabled(c, s, Release)
    ensures Kept(c, Do(c, s, Release)) && Balanced(c, s, Release)
  {
    hide Inv, Linear, Kept, Busy, Places, SlotDatum, RuleEnabled;
    LinearAt(c, s, 0);
    LocalKept(c, s, Do(c, s, Release), 0);
    QuietBalanced(c, s, Release, 0);
  }

  /** Timing out changes the phase of a call that has no message and no datum of another. */
  lemma TimedOutShape(c: Config, s: State, l: Loc)
    requires Enabled(c, s, TimeOut(l))
    ensures var s' := Do(c, s, TimeOut(l));
            && s' == s.(call := s.call[l := WithPhase(s.call[l], Revoking)])
            && (forall g :: Engaged(s', g) == Engaged(s, g))
            && HandDatum(s', l) == HandDatum(s, l) && StackDatum(s', l) == StackDatum(s, l)
            && PutWaits(s', l) == PutWaits(s, l) && l !in s.box
  {
    hide DoWork, DoRecv, DoFinalize, DoRevoke, FillGetters, Dispatch, Dispatched, RuleEnabled, DoSelect, Send,
      MakeEmpty, Working;
  }

  lemma TimeOutBalanced(c: Config, s: State, l: Loc)
    requires Linear(c, s) && Enabled(c, s, TimeOut(l))
    ensures Kept(c, Do(c, s, TimeOut(l))) && Balanced(c, s, TimeOut(l))
  {
    hide Inv, Linear, Kept, Busy, Places, SlotDatum, Do, Enabled, Engaged, HandDatum, StackDatum, PutWaits;
    var s' := Do(c, s, TimeOut(l));
    TimedOutShape(c, s, l);
    LocalKept(c, s, s', l);
    QuietBalanced(c, s, TimeOut(l), l);
  }

  lemma RevokedBalanced(c: Config, s: State, l: Loc)
    requires Linear(c, s) && Enabled(c, s, Revoke(l)) && l in s.ready
    ensures Kept(c, Do(c, s, Revoke(l))) && Balanced(c, s, Revoke(l))
  {
    hide Inv, Linear, Kept, Busy, Places, SlotDatum;
    var s' := Do(c, s, Revoke(l));
    LinearAt(c, s, l);
    LocalKept(c, s, s', l);
    if s.call[l].Put? {
      forall w {
        Transfer(s, s', {OnStack(l)}, {}, s.call[l].datum, w);
      }
    } else {
      QuietBalanced(c, s, Revoke(l), l);
    }
  }

  lemma TooLateBalanced(c: Config, s: State, l: Loc)
    requires Linear(c, s) && Enabled(c, s, Revoke(l)) && l !in s.ready
    ensures Kept(c, Do(c, s, Revoke(l))) && Balanced(c, s, Revoke(l))
  {
    hide Inv, Linear, Kept, Busy, Places, SlotDatum;
    LinearAt(c, s, l);
    LocalKept(c, s, Do(c, s, Revoke(l)), l);
    QuietBalanced(c, s, Revoke(l), l);
  }

  lemma RecvBalanced(c: Config, s: State, l: Loc)
    requires Linear(c, s) && Enabled(c, s, Recv(l))
    ensures Kept(c, Do(c, s, Recv(l))) && Balanced(c, s, Recv(l))
  {
    hide Inv, Linear, Kept, Busy, Places, SlotDatum, DoRecv;
    LinearAt(c, s, l);
    if s.call[l].Put? {
      RecvPutPlaces(c, s, l);
    } else {
      RecvGetPlaces(c, s, l);
    }
    LocalKept(c, s, Do(c, s, Recv(l)), l);
    QuietBalanced(c, s, Recv(l), l);
  }

  ghost predicate RecvKeeps(c: Config, s: State, l: Loc, s': State) {
    && s'.store == s.store && s'.refs == s.refs && s'.ptr == s.ptr && (forall g :: Engaged(s', g) == Engaged(s, g))
    && (forall k :: k != l ==> Lookup(s'.call, k) == Lookup(s.call, k) && Lookup(s'.box, k) == Lookup(s.box, k))
    && l !in s'.box && StackDatum(s', l) == StackDatum(s, l) && HandDatum(s', l) == HandDatum(s, l)
  }

  lemma RecvPutPlaces(c: Config, s: State, l: Loc)
    requires Linear(c, s) && Enabled(c, s, Recv(l)) && s.call[l].Put?
    ensures RecvKeeps(c, s, l, DoRecv(c, s, l))
  {
    hide Inv, Linear, Kept, Busy, DoRecv, Good;
    LinearAt(c, s, l);
    RecvPutShape(c, s, l);
  }

  lemma RecvPutShape(c: Config, s: State, l: Loc)
    requires Linear(c, s) && Enabled(c, s, Recv(l)) && s.call[l].Put?
    ensures DoRecv(c, s, l) == s.(box := s.box - {l}, call := s.call[l := WithPhase(s.call[l], Sent(s.box[l] == 1))])
    ensures PutWaits(s, l) && 0 <= s.box[l] <= 1
  {
    hide Inv, Linear, Kept, Busy, Pledge, Closing;
    LinearAt(c, s, l);
  }

  lemma RecvGetPlaces(c: Config, s: State, l: Loc)
    requires Linear(c, s) && Enabled(c, s, Recv(l)) && s.call[l].Get?
    ensures RecvKeeps(c, s, l, DoRecv(c, s, l))
  {
    hide Inv, Kept, Busy, Good, Took;
    MessagePutter(c, s, l);
    LinearGet(c, s, l);
  }

  lemma LinearGet(c: Config, s: State, l: Loc)
    requires Linear(c, s) && Enabled(c, s, Recv(l)) && s.call[l].Get?
    ensures Pledge(s, l) == Some(s.box[l]) && Closing(s, l) == None && l !in Sends(s.lock)
  {
    hide Inv, Linear, Kept, Busy;
    LinearAt(c, s, l);
  }

  lemma ReturnBalanced(c: Config, s: State, l: Loc)
    requires Linear(c, s) && Enabled(c, s, Return(l))
    ensures Kept(c, Do(c, s, Return(l))) && Balanced(c, s, Return(l))
  {
    hide Inv, Linear, Kept, Busy, Places, SlotDatum, DoWork, DoRecv, DoFinalize, DoRevoke, FillGetters, Dispatch,
      Dispatched, RuleEnabled, DoSelect, Send, MakeEmpty, Working;
    var s' := Do(c, s, Return(l));
    LinearAt(c, s, l);
    LocalKept(c, s, s', l);
    if s.call[l].Put? && !s.call[l].phase.moved {
      forall w {
        Transfer(s, s', {OnStack(l)}, {}, s.call[l].datum, w);
      }
    } else if s.call[l].Get? && s.call[l].out.Some? {
      forall w {
        Transfer(s, s', {InHand(l)}, {}, s.call[l].out.value, w);
      }
    } else {
      QuietBalanced(c, s, Return(l), l);
    }
  }

  // ---------------------------------------------------------------- acquiring the datum

  predicate BeforeCopy(ph: Phase) { ph.Asking? || ph.WonLeaving? || ph.SignalLeaving? || ph.AskingLast? }

  predicate AfterMessageOf(ph: Phase, src: Loc) {
    ph == WonLeaving(src) || ph == Moving(src) || ph == AskingLast(src) || ph == Finalizing(src, false) || ph == Served
  }

  ghost predicate GoesOn(c: Config, s: State, g: Loc, s': State)
    requires g in s.call && s.call[g].Get? && Working(s, g)
  {
    && (g in s'.call && s'.call[g].phase.Served? ==> !s.call[g].wants)
    && g in s'.call
    && s' == s.(count := s'.count, flags := s'.flags, call := s.call[g := WithPhase(s.call[g], s'.call[g].phase)])
    && AfterMessageOf(s'.call[g].phase, s.call[g].phase.src)
  }

  lemma AskShape(c: Config, s: State, g: Loc)
    requires Getting(s, g) && Working(s, g) && (s.call[g].phase.Asking? || s.call[g].phase.AskingLast?)
    requires s.call[g].phase.src in s.flags && s.flags[s.call[g].phase.src].disabled
    ensures GoesOn(c, s, g, DoWork(c, s, g))
  {
    if s.call[g].phase.Asking? {
    } else {
    }
  }

  lemma LeaveShape(c: Config, s: State, g: Loc)
    requires Getting(s, g) && Working(s, g) && (s.call[g].phase.WonLeaving? || s.call[g].phase.SignalLeaving?)
    requires s.call[g].phase.src in s.count && s.count[s.call[g].phase.src] >= 1
    requires s.call[g].phase.WonLeaving? ==> s.count[s.call[g].phase.src] == 1
    requires s.call[g].phase.SignalLeaving? ==> !s.call[g].wants
    ensures GoesOn(c, s, g, DoWork(c, s, g))
  {
    if s.call[g].phase.WonLeaving? {
    } else if s.count[s.call[g].phase.src] == 1 {
    } else {
    }
  }

  lemma WorkShape(c: Config, s: State, g: Loc)
    requires Linear(c, s) && Getting(s, g) && Working(s, g) && BeforeCopy(s.call[g].phase)
    ensures GoesOn(c, s, g, DoWork(c, s, g)) && Engaged(s, g) == Some(s.call[g].phase.src) && s.call[g].out.None?
  {
    hide Inv, Kept, Engaged, DoWork, GoesOn;
    WorkingGood(c, s, g);
    if s.call[g].phase.Asking? || s.call[g].phase.AskingLast? {
      AskShape(c, s, g);
    } else {
      LeaveShape(c, s, g);
    }
  }

  lemma WorkPlaces(c: Config, s: State, g: Loc)
    requires Linear(c, s) && Getting(s, g) && Working(s, g) && BeforeCopy(s.call[g].phase)
    ensures var s' := DoWork(c, s, g);
            && g in s'.call
                  && s' == s.(count := s'.count, flags := s'.flags,
                        call := s.call[g := WithPhase(s.call[g], s'.call[g].phase)])
            && !BeforeMessage(s'.call[g].phase) && (forall k :: k != g ==> Engaged(s', k) == Engaged(s, k))
            && (Engaged(s', g) == Engaged(s, g) || Engaged(s', g) == None) && s.call[g].out.None?
  {
    hide Linear, DoWork, Working;
    WorkShape(c, s, g);
  }

  lemma WorkBalanced(c: Config, s: State, g: Loc)
    requires Linear(c, s) && Enabled(c, s, Work(g)) && BeforeCopy(s.call[g].phase)
    ensures Kept(c, Do(c, s, Work(g))) && Balanced(c, s, Work(g))
  {
    hide Inv, Linear, Kept, Busy, Places, SlotDatum, DoWork, Working;
    WorkPlaces(c, s, g);
    LocalKept(c, s, Do(c, s, Work(g)), g);
    QuietBalanced(c, s, Work(g), g);
  }

  /** A slot with one reference has one cell. */
  lemma SoleHolder(c: Config, s: State, m: Loc, k: Loc)
    requires Slots(s) && SoleAt(s, m) && SlotAt(s, k) == SlotAt(s, m)
    ensures k == m
  {
    var x := SlotAt(s, m).value;
    assert m in Holders(s, x) && k in Holders(s, x);
    if k != m {
      assert {m, k} <= Holders(s, x);
      SubsetSize({m, k}, Holders(s, x));
    }
  }

  lemma SubsetSize(a: set<Loc>, b: set<Loc>)
    requires a <= b
    ensures |a| <= |b|
  {
    assert b == a + (b - a);
  }

  /** The datum of a cell is still in its slot while none of the cell's getters has it. */
  lemma SlotFull(c: Config, s: State, m: Loc)
    requires Linear(c, s) && SoleAt(s, m)
    requires forall g :: Engaged(s, g) == Some(m) ==> HandDatum(s, g).None?
    ensures SlotAt(s, m).value in s.store && SlotDatum(s, SlotAt(s, m).value) == Some(s.store[SlotAt(s, m).value])
  {
    hide Locations, Counts, Takers, LockOk, Kept, Holders, Engaged;
    var x := SlotAt(s, m).value;
    forall g ensures !Took(s, g, x) {
      if Took(s, g, x) {
        SoleHolder(c, s, m, Engaged(s, g).value);
      }
    }
  }

  ghost predicate Copies(c: Config, s: State, g: Loc, src: Loc) {
    Linear(c, s) && Getting(s, g) && s.call[g].phase == Moving(src)
  }

  lemma MovingShape(c: Config, s: State, g: Loc, src: Loc)
    requires Copies(c, s, g, src)
    ensures var s' := DoWork(c, s, g);
            && Deref(s, src).Some?
            && s' == s.(call := s.call[g := s.call[g].(out := Deref(s, src), phase := Finalizing(src, true))],
                        ptr := if IsPoPu(c, src) then s.ptr - {src} else s.ptr)
            && HandDatum(s, g) == None && HandDatum(s', g) == Deref(s, src)
            && Engaged(s, g) == Some(src) && (forall k :: k != g ==> Engaged(s, k) != Some(src))
            && (IsPoPu(c, src) || IsMemo(c, src)) && Busy(s, src)
            && forall k :: Engaged(s', k) == Engaged(s, k)
  {
    hide Locations, Counts, Slots, Takers, LockOk, Kept, Busy, Deref;
    WorkingGood(c, s, g);
    DatumThere(c, s, g);
    LastEngaged(c, s, g, src);
    EngagedBusy(s);
    MessagePutter(c, s, g);
  }

  lemma MovingPortStack(c: Config, s: State, g: Loc, src: Loc)
    requires Copies(c, s, g, src) && IsPoPu(c, src)
    ensures var s' := DoWork(c, s, g);
            && StackDatum(s, src) == Deref(s, src) && StackDatum(s', src) == None && src !in s.box
            && (forall k :: k != src ==> StackDatum(s', k) == StackDatum(s, k))
            && SlotAt(s, src) == None && forall k :: SlotAt(s', k) == SlotAt(s, k)
  {
    hide Inv, Busy, DoWork, Working, Engaged, Kept;
    MovingShape(c, s, g, src);
    LinearAt(c, s, src);
  }

  lemma MovingPortBalanced(c: Config, s: State, g: Loc, src: Loc)
    requires Copies(c, s, g, src) && Enabled(c, s, Work(g)) && IsPoPu(c, src)
    ensures Kept(c, Do(c, s, Work(g))) && Balanced(c, s, Work(g))
  {
    hide Inv, Busy, Places, SlotDatum, DoWork, Working, Engaged, StackDatum, Deref, SlotAt;
    var s' := Do(c, s, Work(g));
    MovingShape(c, s, g, src);
    MovingPortStack(c, s, g, src);
    forall x ensures SlotDatum(s', x) == SlotDatum(s, x) {
      TookSame(s, s', g, x);
    }
    forall w {
      Transfer(s, s', {OnStack(src)}, {InHand(g)}, Deref(s, src).value, w);
    }
  }

  lemma TookSame(s: State, s': State, g: Loc, x: Ptr)
    requires s'.store == s.store && s'.call.Keys == s.call.Keys
    requires forall k :: SlotAt(s', k) == SlotAt(s, k)
    requires forall k :: Engaged(s', k) == Engaged(s, k) && (k != g ==> HandDatum(s', k) == HandDatum(s, k))
    requires Engaged(s, g).Some? && SlotAt(s, Engaged(s, g).value) != Some(x)
    ensures SlotDatum(s', x) == SlotDatum(s, x)
  {
    hide Engaged, SlotAt, HandDatum;
    assert forall k :: Took(s', k, x) == Took(s, k, x);
  }

  lemma TakenSlot(s: State, g: Loc, x: Ptr)
    requires Took(s, g, x)
    ensures SlotDatum(s, x) == None
  {
  }

  lemma MovingCellKept(c: Config, s: State, g: Loc, src: Loc)
    requires Copies(c, s, g, src) && IsMemo(c, src)
    ensures Kept(c, DoWork(c, s, g))
  {
    hide Inv, Busy, DoWork, Engaged, Deref, StackDatum;
    MovingShape(c, s, g, src);
    var s' := DoWork(c, s, g);
    assert forall m :: SoleAt(s', m) == SoleAt(s, m);
    assert forall p :: PutWaits(s', p) == PutWaits(s, p);
    assert forall h :: Engaged(s', h).Some? && IsPoPu(c, Engaged(s', h).value) ==>
      h != g && HandDatum(s', h) == HandDatum(s, h);
  }

  /** The slot's datum goes into the getter's hands. */
  lemma MovingCellSlot(c: Config, s: State, g: Loc, src: Loc)
    requires Copies(c, s, g, src) && IsMemo(c, src)
    ensures var s' := DoWork(c, s, g);
            && SlotAt(s, src).Some? && SlotDatum(s, SlotAt(s, src).value) == Deref(s, src)
            && SlotDatum(s', SlotAt(s, src).value) == None
            && forall y :: y != SlotAt(s, src).value ==> SlotDatum(s', y) == SlotDatum(s, y)
  {
    hide Inv, Busy, SlotDatum, DoWork, Engaged, StackDatum;
    var s' := DoWork(c, s, g);
    MovingShape(c, s, g, src);
    SlotFull(c, s, src);
    TakenSlot(s', g, SlotAt(s, src).value);
    forall y | y != SlotAt(s, src).value ensures SlotDatum(s', y) == SlotDatum(s, y) {
      TookSame(s, s', g, y);
    }
  }

  lemma MovingCellBalanced(c: Config, s: State, g: Loc, src: Loc)
    requires Copies(c, s, g, src) && Enabled(c, s, Work(g)) && IsMemo(c, src)
    ensures Kept(c, Do(c, s, Work(g))) && Balanced(c, s, Work(g))
  {
    hide Inv, Kept, Busy, Places, SlotDatum, DoWork, Working, Engaged, Deref, SlotAt;
    var s' := Do(c, s, Work(g));
    MovingCellKept(c, s, g, src);
    MovingCellSlot(c, s, g, src);
    MovingShape(c, s, g, src);
    forall w {
      Transfer(s, s', {InSlot(SlotAt(s, src).value)}, {InHand(g)}, Deref(s, src).value, w);
    }
  }

  // ---------------------------------------------------------------- finalizing

  ghost predicate Finishes(c: Config, s: State, g: Loc, src: Loc) {
    Linear(c, s) && Getting(s, g) && s.call[g].phase.Finalizing? && s.call[g].phase.src == src
  }

  /** The finalizing getter is the last one engaged, and reports "moved" exactly when it has the datum. */
  lemma FinalizingHand(c: Config, s: State, g: Loc, src: Loc)
    requires Finishes(c, s, g, src)
    ensures Engaged(s, g) == Some(src) && (forall k :: k != g ==> Engaged(s, k) != Some(src))
    ensures HandDatum(s, g).Some? <==> s.call[g].phase.someoneMoved
    ensures IsPoPu(c, src) || IsMemo(c, src)
  {
    hide Counts, Slots, Takers, LockOk, Locations, Kept, Busy;
    FinalizingEngaged(s, g);
    LastEngaged(c, s, g, src);
    MessagePutter(c, s, g);
    GoodAt(c, s, g);
  }

  lemma FinalizedPortData(c: Config, s: State, g: Loc, src: Loc)
    requires Finishes(c, s, g, src) && IsPoPu(c, src)
    ensures var s' := DoFinalize(c, s, g);
            forall k :: HandDatum(s', k) == HandDatum(s, k) && StackDatum(s', k) == StackDatum(s, k) && SlotAt(s',
              k) == SlotAt(s, k)
    ensures SlotAt(s, src) == None
  {
    hide Inv, Busy, DoFinalize, Engaged;
    FinalizingHand(c, s, g, src);
    FinalizedShape(c, s, g);
    LinearAt(c, s, src);
    FinalizingBusy(c, s, g);
    var s' := DoFinalize(c, s, g);
    forall k
      ensures HandDatum(s', k) == HandDatum(s, k) && StackDatum(s', k) == StackDatum(s, k)
      ensures SlotAt(s', k) == SlotAt(s, k)
    {
    }
  }

  lemma FinalizedPortKept(c: Config, s: State, g: Loc, src: Loc)
    requires Finishes(c, s, g, src) && IsPoPu(c, src)
    ensures Kept(c, DoFinalize(c, s, g))
    ensures forall k :: k != g ==> Engaged(DoFinalize(c, s, g), k) == Engaged(s, k)
    ensures Engaged(DoFinalize(c, s, g), g) == None && Engaged(s, g) == Some(src) && forall k ::
      k != g ==> Engaged(s, k) != Some(src)
  {
    hide Inv, Busy, DoFinalize, Engaged;
    var s' := DoFinalize(c, s, g);
    FinalizingHand(c, s, g, src);
    FinalizedShape(c, s, g);
    FinalizedEngaged(c, s, g, s');
  }

  lemma FinalizePortBalanced(c: Config, s: State, g: Loc, src: Loc)
    requires Finishes(c, s, g, src) && Enabled(c, s, Finalize(g)) && IsPoPu(c, src)
    ensures Kept(c, Do(c, s, Finalize(g))) && Balanced(c, s, Finalize(g))
  {
    hide Inv, Busy, Places, SlotDatum, DoFinalize, Engaged, StackDatum, HandDatum, SlotAt, Kept;
    var s' := Do(c, s, Finalize(g));
    FinalizedPortKept(c, s, g, src);
    FinalizedPortData(c, s, g, src);
    FinalizedShape(c, s, g);
    forall x ensures SlotDatum(s', x) == SlotDatum(s, x) {
      FreedTook(s, s', g, x);
    }
    QuietBalanced(c, s, Finalize(g), g);
  }

  lemma FreedTook(s: State, s': State, g: Loc, x: Ptr)
    requires s'.call.Keys == s.call.Keys && (x in s'.store <==> x in s.store)
    requires (x in s.store ==> s'.store[x] == s.store[x])
    requires forall k :: HandDatum(s', k) == HandDatum(s, k)
    requires forall k :: k != g ==> Engaged(s', k) == Engaged(s, k)
    requires Engaged(s', g) == None && Engaged(s, g).Some? && SlotAt(s, Engaged(s, g).value) != Some(x)
    requires forall k :: k != Engaged(s, g).value ==> SlotAt(s', k) == SlotAt(s, k)
    requires forall k :: k != g ==> Engaged(s, k) != Engaged(s, g)
    ensures SlotDatum(s', x) == SlotDatum(s, x)
  {
    hide Engaged, SlotAt, HandDatum;
    assert forall k :: Took(s', k, x) == Took(s, k, x);
  }

  lemma DrainedSole(c: Config, s: State, g: Loc)
    requires Linear(c, s) && Getting(s, g) && Engaged(s, g).Some? && IsMemo(c, Engaged(s, g).value)
    ensures SoleAt(s, Engaged(s, g).value)
  {
    hide Inv, Engaged;
  }

  /** No other cell that is being drained has this one's slot. */
  lemma OthersSole(c: Config, s: State, m: Loc, k: Loc)
    requires Linear(c, s) && Engaged(s, k).Some? && IsMemo(c, Engaged(s, k).value) && Engaged(s, k).value != m
    ensures SoleAt(s, Engaged(s, k).value) && SlotAt(s, Engaged(s, k).value) != SlotAt(s, m)
  {
    hide Locations, Counts, Takers, LockOk, Engaged, Holders;
    if SlotAt(s, Engaged(s, k).value) == SlotAt(s, m) {
      SoleHolder(c, s, Engaged(s, k).value, m);
    }
  }

  lemma FinalizedSlots(c: Config, s: State, g: Loc, src: Loc)
    requires Finishes(c, s, g, src) && IsMemo(c, src) && s.lock.Free?
    ensures SoleAt(s, src)
    ensures var s', x := DoFinalize(c, s, g), SlotAt(s, src).value;
            && x in s.store && s'.refs == s.refs - {x} && s'.store == s.store - {x} && s'.ptr == s.ptr - {src}
            && s'.box == s.box
            && s'.call == s.call[g := WithPhase(s.call[g], Served)] && s'.lock == Held(g, 0, [], [])
            && FreedDatum(s, src) == Some(s.store[x])
  {
    hide Locations, Counts, Takers, LockOk, MakeEmpty, Busy, Holders, Kept;
    var s1 := SetPhase(s, g, Served);
    FinalizingBusy(c, s, g);
    FinalizingEngaged(s, g);
    DrainedSole(c, s, g);
    BusyCell(c, s, src);
    SlotsKept(s, s1);
    MakeEmptyShape(s1, src);
  }

  lemma FinalizedCellKept(c: Config, s: State, g: Loc, src: Loc)
    requires Finishes(c, s, g, src) && IsMemo(c, src) && s.lock.Free?
    ensures Kept(c, DoFinalize(c, s, g))
    ensures forall k :: k != g ==> Engaged(DoFinalize(c, s, g), k) == Engaged(s, k)
    ensures Engaged(DoFinalize(c, s, g), g) == None && Engaged(s, g) == Some(src) && forall k ::
      k != g ==> Engaged(s, k) != Some(src)
  {
    hide Inv, Busy, DoFinalize, Engaged, FreedDatum;
    var s' := DoFinalize(c, s, g);
    FinalizingHand(c, s, g, src);
    FinalizedSlots(c, s, g, src);
    FinalizedEngaged(c, s, g, s');
    forall k | Engaged(s', k).Some? && IsMemo(c, Engaged(s', k).value) ensures SoleAt(s', Engaged(s', k).value) {
      OthersSole(c, s, src, k);
    }
    forall p | PutWaits(s', p) && Lookup(s'.box, p) == Some(0) ensures p in s'.ptr {
      assert PutWaits(s, p);
      WaitingPut(c, s, p);
    }
  }

  lemma FinalizedCellData(c: Config, s: State, g: Loc, src: Loc)
    requires Finishes(c, s, g, src) && IsMemo(c, src) && s.lock.Free?
    ensures var s' := DoFinalize(c, s, g);
            && (forall k :: HandDatum(s', k) == HandDatum(s, k) && StackDatum(s', k) == StackDatum(s, k))
            && forall k :: k != src ==> SlotAt(s', k) == SlotAt(s, k)
  {
    hide Inv, Busy, DoFinalize, Engaged, FreedDatum, Kept;
    FinalizedSlots(c, s, g, src);
    FinalizingBusy(c, s, g);
    LinearAt(c, s, src);
    var s' := DoFinalize(c, s, g);
    forall k ensures HandDatum(s', k) == HandDatum(s, k) && StackDatum(s', k) == StackDatum(s, k) {
    }
  }

  lemma FinalizeCellBalanced(c: Config, s: State, g: Loc, src: Loc)
    requires Finishes(c, s, g, src) && Enabled(c, s, Finalize(g)) && IsMemo(c, src)
    ensures Kept(c, Do(c, s, Finalize(g))) && Balanced(c, s, Finalize(g))
  {
    hide Inv, Busy, Places, SlotDatum, DoFinalize, Engaged, FreedDatum, Exit, StackDatum, HandDatum, SlotAt, Kept;
    var s' := Do(c, s, Finalize(g));
    FinalizedCellKept(c, s, g, src);
    FinalizingHand(c, s, g, src);
    FinalizedSlots(c, s, g, src);
    FinalizedCellData(c, s, g, src);
    FinalizeExit(c, s, g, src);
    var x := SlotAt(s, src).value;
    forall y | y != x ensures SlotDatum(s', y) == SlotDatum(s, y) {
      FreedTook(s, s', g, y);
    }
    FreedSlot(s', x);
    if HandDatum(s, g).Some? {
      TakenSlot(s, g, x);
      QuietBalanced(c, s, Finalize(g), g);
    } else {
      SlotFull(c, s, src);
      forall w {
        Transfer(s, s', {InSlot(x)}, {}, s.store[x], w);
      }
    }
  }

  lemma FinalizeExit(c: Config, s: State, g: Loc, src: Loc)
    requires Finishes(c, s, g, src) && IsMemo(c, src)
    ensures Exit(c, s, Finalize(g)) == if s.call[g].phase.someoneMoved then None else FreedDatum(s, src)
  {
  }

  lemma FreedSlot(s: State, x: Ptr)
    requires x !in s.store
    ensures SlotDatum(s, x) == None
  {
  }

  // ---------------------------------------------------------------- performing an action

  ghost predicate Performs(c: Config, s: State, slot: Ptr, act: Action) {
    Linear(c, s) && AboutToPerform(c, s, slot) && act == s.lock.rest[0] && InScope(c, s, act)
  }

  lemma PerformFacts(c: Config, s: State, slot: Ptr, act: Action)
    requires Performs(c, s, slot, act)
    ensures (IsPoPu(c, act.putter) || IsMemo(c, act.putter)) && !Busy(s, act.putter) && slot !in s.refs
    ensures forall k :: Engaged(Performed(c, s, slot), k) == if k in act.pg then Some(act.putter) else Engaged(s, k)
    ensures forall k <- act.pg :: HandDatum(s, k) == None && Engaged(s, k) == None
    ensures forall k :: Engaged(s, k).Some? ==> Engaged(s, k).value != act.putter && Engaged(s, k).value !in act.mg
    ensures IsPoPu(c, act.putter) ==>
              && PutWaits(s, act.putter) && StackDatum(s, act.putter) == Deref(s, act.putter)
              && Deref(s, act.putter).Some?
              && act.putter in s.ptr && SlotAt(s, act.putter) == None && act.putter !in s.box && act.putter !in act.mg
    ensures IsMemo(c, act.putter) ==> SlotAt(s, act.putter).Some? && act.putter !in act.mg
    ensures IsMemo(c, act.putter) && act.pg != [] ==> act.mg == [] && SoleAt(s, act.putter)
  {
    hide Locations, Counts, Slots, Takers, LockOk, Busy, Kept, Engaged, TakersOk;
    PerformEngaged(c, s, slot);
    PerformGood(c, s);
    PutterKind(c, s);
    GoodAt(c, s, act.putter);
    PerformPutterCall(c, s);
    NoCount(c, s, slot);
    forall k <- act.pg ensures HandDatum(s, k) == None {
      GetterHand(c, s, k);
    }
  }

  lemma NoCount(c: Config, s: State, slot: Ptr)
    requires Inv(c, s) && slot !in s.store
    ensures slot !in s.refs && forall m :: SlotAt(s, m) != Some(slot)
  {
    hide Locations, Counts, Takers, LockOk, Holders;
  }

  lemma GetterHand(c: Config, s: State, g: Loc)
    requires Linear(c, s) && g in s.call && BeforeMessage(s.call[g].phase)
    ensures HandDatum(s, g) == None
  {
    hide Counts, Slots, Takers, LockOk, Busy, Kept, Locations, Engaged;
    GoodAt(c, s, g);
  }

  lemma PerformedIs(c: Config, s: State, slot: Ptr)
    requires Enabled(c, s, Perform(slot))
    ensures Do(c, s, Perform(slot)) == Performed(c, s, slot)
  {
    hide FillGetters, Dispatch, Dispatched;
  }

  /** Where the memory getters' datum comes from: the putter's own slot, or the new one. */
  function Source(c: Config, s: State, slot: Ptr, act: Action): Ptr {
    if IsMemo(c, act.putter) && SlotAt(s, act.putter).Some? then SlotAt(s, act.putter).value else slot
  }

  /** Pointers, slots and counts once the memory getters are filled. */
  lemma FilledState(c: Config, s: State, slot: Ptr, act: Action)
    requires Performs(c, s, slot, act)
    ensures var s1, x := FillGetters(c, s, act, slot), Source(c, s, slot, act);
            && (act.mg == [] ==> s1.ptr == s.ptr && s1.refs == s.refs && s1.store == s.store)
            && (IsMemo(c, act.putter) ==>
                  x in s.refs && s1.store == s.store && s1.refs == s.refs[x := s.refs[x] + |act.mg|])
            && (!IsMemo(c, act.putter) && act.mg != [] ==>
                  Deref(s, act.putter).Some? && s1.store == s.store[slot := Deref(s, act.putter).value]
                  && s1.refs == s.refs[slot := |act.mg|])
            && (forall m :: SlotAt(s1, m) == if m in act.mg then Some(x) else SlotAt(s, m))
  {
    hide Locations, Counts, Slots, Takers, LockOk, ActionsOk, Busy, Kept, FillGetters, Deref, PointAll;
    FillShape(c, s, slot);
    PerformGood(c, s);
    NoCount(c, s, slot);
    var x := Target(c, s, act, slot);
    forall m ensures SlotAt(FillGetters(c, s, act, slot), m) == if m in act.mg then Some(x) else SlotAt(s, m) {
      PointedAt(s.ptr, act.mg, x, m);
    }
    PointNone(s.ptr, x);
    assert act.mg == [] && x in s.refs ==> s.refs[x := s.refs[x] + 0] == s.refs;
  }

  lemma PointNone(ptr: map<Loc, Ref>, x: Ptr)
    ensures PointAll(ptr, [], x) == ptr
  {
  }

  /** With port getters, or a port putter, the rest of the action touches neither slots nor counts. */
  lemma UnemptiedState(c: Config, s: State, slot: Ptr, act: Action)
    requires Performs(c, s, slot, act) && (act.pg != [] || IsPoPu(c, act.putter))
    ensures var s', s1 := Performed(c, s, slot), FillGetters(c, s, act, slot);
            s'.ptr == s1.ptr && s'.refs == s1.refs && s'.store == s1.store
  {
    hide Inv, Kept, FillGetters, MakeEmpty, InScope, DisableMove, Deref;
    FillLeaves(s, [], 0);
    FillGettersFilled(c, s, act, slot);
    PutterKind(c, s);
    if act.pg != [] {
      ArmTransfers(c, FillGetters(c, s, act, slot), act);
    } else {
      PortTransfers(c, FillGetters(c, s, act, slot), act);
    }
  }

  /** Elsewhere nothing moves: stacks, hands and engaged getters' sources. */
  lemma PerformElsewhere(c: Config, s: State, slot: Ptr, act: Action)
    requires Performs(c, s, slot, act)
    ensures var s' := Performed(c, s, slot);
            && s'.call == s.call
            && (forall k, x :: Took(s', k, x) == Took(s, k, x))
            && (forall p :: p != act.putter ==>
                  StackDatum(s', p) == StackDatum(s, p) && Lookup(s'.box, p) == Lookup(s.box, p))
            && (forall p :: p != act.putter && PutWaits(s, p) ==> (p in s'.ptr <==> p in s.ptr))
            && (forall k :: Engaged(s, k).Some? ==> (Engaged(s, k).value in s'.ptr <==> Engaged(s, k).value in s.ptr)
                                                    && SlotAt(s', Engaged(s, k).value)
                                                          == SlotAt(s, Engaged(s, k).value))
  {
    hide Inv, Kept, Performed, Engaged, Busy, InScope;
    PerformFacts(c, s, slot, act);
    PerformTransfers(c, s, slot);
    var s' := Performed(c, s, slot);
    forall p | p in act.mg ensures p !in s.call {
      PerformCell(c, s, p);
    }
    forall k, x ensures Took(s', k, x) == Took(s, k, x) {
      if k !in act.pg && Engaged(s, k).Some? {
        var e := Engaged(s, k).value;
        assert e != act.putter && e !in act.mg;
        assert SlotAt(s', e) == SlotAt(s, e);
      }
    }
  }

  /** A slot keeps its datum unless it is freed or filled. */
  lemma SameSlots(c: Config, s: State, slot: Ptr, act: Action, x: Ptr)
    requires Performs(c, s, slot, act)
    requires var s' := Performed(c, s, slot);
      (x in s'.store <==> x in s.store) && (x in s.store ==> s'.store[x] == s.store[x])
    ensures SlotDatum(Performed(c, s, slot), x) == SlotDatum(s, x)
  {
    hide Linear, AboutToPerform, InScope, Performed, Took, Engaged, StackDatum, SlotAt;
    PerformElsewhere(c, s, slot, act);
  }

  /** A cell that is being drained keeps its slot to itself. */
  lemma StillSole(c: Config, s: State, slot: Ptr, act: Action, k: Loc)
    requires Performs(c, s, slot, act) && Engaged(s, k).Some? && IsMemo(c, Engaged(s, k).value)
    requires var s', x := Performed(c, s, slot), Source(c, s, slot, act);
             forall y :: y != x && y in s.refs ==> y in s'.refs && s'.refs[y] == s.refs[y]
    ensures SoleAt(Performed(c, s, slot), Engaged(s, k).value)
  {
    hide Inv, Kept, Performed, Engaged, InScope, Took, StackDatum;
    PerformElsewhere(c, s, slot, act);
    PerformFacts(c, s, slot, act);
    NoCount(c, s, slot);
    OthersSole(c, s, act.putter, k);
  }

  /** What is left to show for the invariant: counts elsewhere, and the putter itself. */
  lemma PerformKept(c: Config, s: State, slot: Ptr, act: Action)
    requires Performs(c, s, slot, act)
    requires var s', x := Performed(c, s, slot), Source(c, s, slot, act);
             && (forall y :: y != x && y in s.refs ==> y in s'.refs && s'.refs[y] == s.refs[y])
             && (IsMemo(c, act.putter) && act.pg != [] ==> SoleAt(s', act.putter))
             && (IsPoPu(c, act.putter) ==> act.putter in s'.ptr)
    ensures Kept(c, Performed(c, s, slot))
  {
    hide Inv, Performed, Engaged, InScope, Took, StackDatum, SoleAt;
    var s' := Performed(c, s, slot);
    PerformElsewhere(c, s, slot, act);
    PerformFacts(c, s, slot, act);
    forall k | Engaged(s', k).Some? && IsMemo(c, Engaged(s', k).value) ensures SoleAt(s', Engaged(s', k).value) {
      if k !in act.pg {
        StillSole(c, s, slot, act, k);
      }
    }
    forall k | Engaged(s', k).Some? && IsPoPu(c, Engaged(s', k).value)
      ensures Engaged(s', k).value in s'.ptr <==> HandDatum(s', k).None?
    {
      PortKept(c, s, s', act, k);
    }
    forall p | PutWaits(s', p) && Lookup(s'.box, p) == Some(0) ensures p in s'.ptr {
      WaitingPut(c, s, p);
    }
  }

  lemma PortKept(c: Config, s: State, s': State, act: Action, k: Loc)
    requires Kept(c, s) && s'.call == s.call
    requires Engaged(s', k) == (if k in act.pg then Some(act.putter) else Engaged(s, k))
    requires Engaged(s', k).Some? && IsPoPu(c, Engaged(s', k).value)
    requires k in act.pg ==> HandDatum(s, k) == None && act.putter in s'.ptr
    requires Engaged(s, k).Some? ==> (Engaged(s, k).value in s'.ptr <==> Engaged(s, k).value in s.ptr)
    ensures Engaged(s', k).value in s'.ptr <==> HandDatum(s', k).None?
  {
    hide Engaged;
  }

  lemma WaitingPut(c: Config, s: State, p: Loc)
    requires Linear(c, s) && PutWaits(s, p)
    ensures IsPoPu(c, p) && (Lookup(s.box, p) == Some(0) ==> p in s.ptr)
  {
    hide Inv, Engaged, Busy;
    LinearAt(c, s, p);
  }

  /** A port getter is told to fetch the datum: it stays where it is until he does. */
  lemma PerformGetterBalanced(c: Config, s: State, slot: Ptr, act: Action)
    requires Performs(c, s, slot, act) && act.pg != [] && act.mg == [] && Enabled(c, s, Perform(slot))
    ensures Kept(c, Do(c, s, Perform(slot))) && Balanced(c, s, Perform(slot))
  {
    hide Inv, Kept, Busy, Places, SlotDatum, Engaged, FillGetters, Performed, InScope, Took, Deref;
    PerformedIs(c, s, slot);
    PerformFacts(c, s, slot, act);
    FilledState(c, s, slot, act);
    UnemptiedState(c, s, slot, act);
    PerformKept(c, s, slot, act);
    PerformElsewhere(c, s, slot, act);
    ArmedStack(c, s, slot, act);
    forall x ensures SlotDatum(Performed(c, s, slot), x) == SlotDatum(s, x) {
      SameSlots(c, s, slot, act, x);
    }
    QuietBalanced(c, s, Perform(slot), 0);
  }

  lemma ArmedStack(c: Config, s: State, slot: Ptr, act: Action)
    requires Performs(c, s, slot, act) && (act.pg != [] || act.mg == [])
    ensures StackDatum(Performed(c, s, slot), act.putter) == StackDatum(s, act.putter)
  {
    hide Inv, Kept, Busy, Engaged, FillGetters, Performed, InScope, Deref;
    PerformFacts(c, s, slot, act);
    PerformTransfers(c, s, slot);
    if IsPoPu(c, act.putter) {
      FilledState(c, s, slot, act);
      UnemptiedState(c, s, slot, act);
      PutterPointer(c, s, slot, act);
    } else {
      PerformCell(c, s, act.putter);
    }
  }

  lemma PutterPointer(c: Config, s: State, slot: Ptr, act: Action)
    requires Performs(c, s, slot, act) && IsPoPu(c, act.putter)
    ensures act.putter in Performed(c, s, slot).ptr
  {
    hide Inv, Kept, Busy, Engaged, FillGetters, Performed, InScope, Deref;
    PerformFacts(c, s, slot, act);
    UnemptiedState(c, s, slot, act);
    FillGettersFilled(c, s, act, slot);
  }

  /** A put that no one takes is told so. */
  lemma PerformLoneBalanced(c: Config, s: State, slot: Ptr, act: Action)
    requires Performs(c, s, slot, act) && act.pg == [] && act.mg == [] && IsPoPu(c, act.putter)
    requires Enabled(c, s, Perform(slot))
    ensures Kept(c, Do(c, s, Perform(slot))) && Balanced(c, s, Perform(slot))
  {
    hide Inv, Kept, Busy, Places, SlotDatum, Engaged, FillGetters, Performed, InScope, Took, Deref;
    PerformedIs(c, s, slot);
    PerformFacts(c, s, slot, act);
    FilledState(c, s, slot, act);
    UnemptiedState(c, s, slot, act);
    PutterPointer(c, s, slot, act);
    PerformKept(c, s, slot, act);
    PerformElsewhere(c, s, slot, act);
    ArmedStack(c, s, slot, act);
    forall x ensures SlotDatum(Performed(c, s, slot), x) == SlotDatum(s, x) {
      SameSlots(c, s, slot, act, x);
    }
    QuietBalanced(c, s, Perform(slot), 0);
  }

  /** A port's datum goes into a new slot: moved there, or cloned when port getters fetch it as well. */
  lemma StoredSlot(c: Config, s: State, slot: Ptr, act: Action)
    requires Performs(c, s, slot, act) && act.mg != [] && IsPoPu(c, act.putter)
    ensures var s' := Performed(c, s, slot);
            && Kept(c, s') && SlotDatum(s, slot) == None && SlotDatum(s', slot) == Deref(s, act.putter)
            && Deref(s, act.putter).Some?
            && (forall x :: x != slot ==> SlotDatum(s', x) == SlotDatum(s, x))
  {
    hide Inv, Kept, Busy, Engaged, FillGetters, Performed, InScope, Took, Deref;
    var s' := Performed(c, s, slot);
    PerformFacts(c, s, slot, act);
    FilledState(c, s, slot, act);
    UnemptiedState(c, s, slot, act);
    PutterPointer(c, s, slot, act);
    PerformKept(c, s, slot, act);
    PerformElsewhere(c, s, slot, act);
    NoCount(c, s, slot);
    forall k ensures !Took(s, k, slot) {
      NotTook(s, k, slot);
    }
    NewSlot(s', slot);
    FreedSlot(s, slot);
    forall x | x != slot ensures SlotDatum(s', x) == SlotDatum(s, x) {
      SameSlots(c, s, slot, act, x);
    }
  }

  lemma NotTook(s: State, k: Loc, x: Ptr)
    requires forall m :: SlotAt(s, m) != Some(x)
    ensures !Took(s, k, x)
  {
    hide SlotAt, Engaged, HandDatum;
  }

  lemma NewSlot(s: State, x: Ptr)
    requires x in s.store && forall g :: !Took(s, g, x)
    ensures SlotDatum(s, x) == Some(s.store[x])
  {
  }

  lemma PerformStoreBalanced(c: Config, s: State, slot: Ptr, act: Action)
    requires Performs(c, s, slot, act) && act.pg == [] && act.mg != [] && IsPoPu(c, act.putter)
    requires Enabled(c, s, Perform(slot))
    ensures Kept(c, Do(c, s, Perform(slot))) && Balanced(c, s, Perform(slot))
  {
    hide Inv, Kept, Busy, Places, SlotDatum, Engaged, FillGetters, Performed, InScope, Took, Deref;
    var s' := Performed(c, s, slot);
    PerformedIs(c, s, slot);
    PerformFacts(c, s, slot, act);
    PerformElsewhere(c, s, slot, act);
    PerformTransfers(c, s, slot);
    StoredSlot(c, s, slot, act);
    assert StackDatum(s', act.putter) == None;
    forall w {
      Transfer(s, s', {OnStack(act.putter)}, {InSlot(slot)}, Deref(s, act.putter).value, w);
    }
  }

  lemma PerformCloneBalanced(c: Config, s: State, slot: Ptr, act: Action)
    requires Performs(c, s, slot, act) && act.pg != [] && act.mg != [] && Enabled(c, s, Perform(slot))
    ensures Kept(c, Do(c, s, Perform(slot))) && Balanced(c, s, Perform(slot))
  {
    hide Inv, Kept, Busy, Places, SlotDatum, Engaged, FillGetters, Performed, InScope, Took, Deref;
    var s' := Performed(c, s, slot);
    PerformedIs(c, s, slot);
    PerformFacts(c, s, slot, act);
    PerformElsewhere(c, s, slot, act);
    StoredSlot(c, s, slot, act);
    ArmedStack(c, s, slot, act);
    forall w {
      Transfer(s, s', {}, {InSlot(slot)}, Deref(s, act.putter).value, w);
    }
  }

  /** A cell without port getters gives up its slot, which is freed if no other cell has it. */
  lemma EmptiedState(c: Config, s: State, slot: Ptr, act: Action)
    requires Performs(c, s, slot, act) && act.pg == [] && IsMemo(c, act.putter)
    ensures var s', x, n := Performed(c, s, slot), Source(c, s, slot, act),
      At(s.refs, Source(c, s, slot, act), 0) + |act.mg|;
            && x in s.store && x in s.refs && s.refs[x] >= 1
            && (if n == 1 then s'.refs == s.refs - {x} && s'.store == s.store - {x}
                else s'.store == s.store && s'.refs == s.refs[x := n][x := n - 1])
            && FreedDatum(FillGetters(c, s, act, slot), act.putter) == if n == 1 then Some(s.store[x]) else None
  {
    hide Locations, Counts, Takers, LockOk, Holders, Kept, Busy, FillGetters, MakeEmpty, Deref, InScope;
    var s1 := FillGetters(c, s, act, slot);
    FilledState(c, s, slot, act);
    RefinementFiring.FillEffect(c, s, slot);
    PerformFacts(c, s, slot, act);
    MakeEmptyShape(s1, act.putter);
    PerformedEmpty(c, s, slot, act);
    var x, n := Source(c, s, slot, act), At(s.refs, Source(c, s, slot, act), 0) + |act.mg|;
    assert n == 1 ==> s.refs[x := n] - {x} == s.refs - {x};
  }

  lemma PerformedEmpty(c: Config, s: State, slot: Ptr, act: Action)
    requires Performs(c, s, slot, act) && act.pg == [] && IsMemo(c, act.putter)
    ensures var s', s2 := Performed(c, s, slot), MakeEmpty(FillGetters(c, s, act, slot), act.putter);
            s'.ptr == s2.ptr && s'.store == s2.store && s'.refs == s2.refs
  {
    hide Inv, Kept, Busy, FillGetters, MakeEmpty, InScope;
  }

  lemma PerformExit(c: Config, s: State, slot: Ptr, act: Action)
    requires Performs(c, s, slot, act)
    ensures Exit(c, s, Perform(slot)) ==
            if act.pg == [] && IsMemo(c, act.putter) then FreedDatum(FillGetters(c, s, act, slot), act.putter) else None
    ensures Entry(c, s, Perform(slot)) == ClonedDatum(c, s, act)
  {
    hide Linear, Inv, FillGetters, FreedDatum, ClonedDatum, InScope;
  }

  lemma CellStack(c: Config, s: State, slot: Ptr, act: Action)
    requires Performs(c, s, slot, act) && IsMemo(c, act.putter)
    ensures StackDatum(Performed(c, s, slot), act.putter) == StackDatum(s, act.putter)
  {
    hide Inv, Kept, Busy, FillGetters, Performed, InScope;
    PerformCell(c, s, act.putter);
    PerformTransfers(c, s, slot);
  }

  lemma PerformEmptyBalanced(c: Config, s: State, slot: Ptr, act: Action)
    requires Performs(c, s, slot, act) && act.pg == [] && IsMemo(c, act.putter) && Enabled(c, s, Perform(slot))
    ensures Kept(c, Do(c, s, Perform(slot))) && Balanced(c, s, Perform(slot))
  {
    hide Inv, Kept, Busy, Engaged, FillGetters, Performed, InScope, Took, Deref, Places, SlotDatum, StackDatum,
      FreedDatum, Exit, Entry, Balanced;
    var x, n := Source(c, s, slot, act), At(s.refs, Source(c, s, slot, act), 0) + |act.mg|;
    PerformedIs(c, s, slot);
    EmptiedState(c, s, slot, act);
    PerformKept(c, s, slot, act);
    PerformExit(c, s, slot, act);
    CellStack(c, s, slot, act);
    PerformElsewhere(c, s, slot, act);
    if n == 1 {
      PerformDropBalanced(c, s, slot, act);
    } else {
      forall y ensures SlotDatum(Performed(c, s, slot), y) == SlotDatum(s, y) {
        SameSlots(c, s, slot, act, y);
      }
      QuietBalanced(c, s, Perform(slot), 0);
    }
  }

  /** The last cell of a slot, emptied by a rule without getters, drops the value. */
  lemma PerformDropBalanced(c: Config, s: State, slot: Ptr, act: Action)
    requires Performs(c, s, slot, act) && act.pg == [] && IsMemo(c, act.putter) && Enabled(c, s, Perform(slot))
    requires At(s.refs, Source(c, s, slot, act), 0) + |act.mg| == 1
    ensures Balanced(c, s, Perform(slot))
    ensures var x := Source(c, s, slot, act); x in s.store && Exit(c, s, Perform(slot)) == Some(s.store[x])
  {
    hide Inv, Kept, Busy, Engaged, FillGetters, Performed, InScope, Took, Deref, Places, SlotDatum, StackDatum,
      FreedDatum, Exit, Entry;
    var s', x := Performed(c, s, slot), Source(c, s, slot, act);
    PerformedIs(c, s, slot);
    EmptiedState(c, s, slot, act);
    PerformExit(c, s, slot, act);
    PerformFacts(c, s, slot, act);
    CellStack(c, s, slot, act);
    PerformElsewhere(c, s, slot, act);
    SlotFull(c, s, act.putter);
    FreedSlot(s', x);
    forall y ensures y != x ==> SlotDatum(s', y) == SlotDatum(s, y) {
      if y != x {
        SameSlots(c, s, slot, act, y);
      }
    }
    forall w {
      Transfer(s, s', {InSlot(x)}, {}, s.store[x], w);
    }
  }

  // ---------------------------------------------------------------- every step, every run

  lemma PerformBalanced(c: Config, s: State, slot: Ptr)
    requires Linear(c, s) && Enabled(c, s, Perform(slot)) && Scoped(c, s, Perform(slot))
    ensures Kept(c, Do(c, s, Perform(slot))) && Balanced(c, s, Perform(slot))
  {
    hide Inv, Kept, Busy, Balanced, Do, InScope;
    var act := s.lock.rest[0];
    ScopeClonable(c, s, act);
    PerformFacts(c, s, slot, act);
    if act.pg != [] {
      if act.mg == [] {
        PerformGetterBalanced(c, s, slot, act);
      } else {
        PerformCloneBalanced(c, s, slot, act);
      }
    } else if IsMemo(c, act.putter) {
      PerformEmptyBalanced(c, s, slot, act);
    } else if act.mg == [] {
      PerformLoneBalanced(c, s, slot, act);
    } else {
      PerformStoreBalanced(c, s, slot, act);
    }
  }

  lemma FinalizeBalanced(c: Config, s: State, g: Loc)
    requires Linear(c, s) && Enabled(c, s, Finalize(g))
    ensures Kept(c, Do(c, s, Finalize(g))) && Balanced(c, s, Finalize(g))
  {
    hide Inv, Kept, Balanced, Do, Engaged;
    var src := s.call[g].phase.src;
    FinalizingHand(c, s, g, src);
    if IsMemo(c, src) {
      FinalizeCellBalanced(c, s, g, src);
    } else {
      FinalizePortBalanced(c, s, g, src);
    }
  }

  lemma WorkStepBalanced(c: Config, s: State, g: Loc)
    requires Linear(c, s) && Enabled(c, s, Work(g))
    ensures Kept(c, Do(c, s, Work(g))) && Balanced(c, s, Work(g))
  {
    hide Inv, Kept, Balanced, Do, Engaged;
    WorkingGood(c, s, g);
    if s.call[g].phase.Moving? {
      var src := s.call[g].phase.src;
      MessagePutter(c, s, g);
      MovingKind(c, s, g, src);
      if IsMemo(c, src) {
        MovingCellBalanced(c, s, g, src);
      } else {
        MovingPortBalanced(c, s, g, src);
      }
    } else {
      WorkBalanced(c, s, g);
    }
  }

  lemma MovingKind(c: Config, s: State, g: Loc, src: Loc)
    requires Copies(c, s, g, src)
    ensures IsPoPu(c, src) || IsMemo(c, src)
  {
    hide Linear, Inv, DoWork, Engaged;
    MovingShape(c, s, g, src);
  }

  lemma StepLinear(c: Config, s: State, step: Step)
    requires ConfigOk(c) && Linear(c, s) && Enabled(c, s, step) && Scoped(c, s, step)
    ensures Linear(c, Do(c, s, step)) && Balanced(c, s, step)
  {
    StepKept(c, s, step);
    hide Inv, Kept, Do, Enabled, ConfigOk, Balanced;
    StepInv(c, s, step);
  }

  lemma StepKept(c: Config, s: State, step: Step)
    requires Linear(c, s) && Enabled(c, s, step) && Scoped(c, s, step)
    ensures Kept(c, Do(c, s, step)) && Balanced(c, s, step)
  {
    hide Linear, Kept, Do, Enabled, Balanced, Scoped;
    match step
    case BeginPut(p, v, timed) => BeginPutBalanced(c, s, p, v, timed);
    case EnterPut(p) => EnterPutBalanced(c, s, p);
    case EnterGet(g, wants, timed) => EnterGetBalanced(c, s, g, wants, timed);
    case Select(i) => SelectBalanced(c, s, i);
    case Perform(slot) => PerformBalanced(c, s, slot);
    case SendNext => SendNextBalanced(c, s);
    case Release => ReleaseBalanced(c, s);
    case TimeOut(l) => TimeOutBalanced(c, s, l);
    case Revoke(l) => RevokeStepBalanced(c, s, l);
    case Recv(l) => RecvBalanced(c, s, l);
    case Work(g) => WorkStepBalanced(c, s, g);
    case Finalize(g) => FinalizeBalanced(c, s, g);
    case Return(l) => ReturnBalanced(c, s, l);
  }

  lemma RevokeStepBalanced(c: Config, s: State, l: Loc)
    requires Linear(c, s) && Enabled(c, s, Revoke(l))
    ensures Kept(c, Do(c, s, Revoke(l))) && Balanced(c, s, Revoke(l))
  {
    hide Linear, Kept, Do, Enabled, Balanced;
    if l in s.ready {
      RevokedBalanced(c, s, l);
    } else {
      TooLateBalanced(c, s, l);
    }
  }

  /** How often `v` is put or cloned in a run, and how often it leaves: returned to a put or a get, or dropped. */
  function Entries(c: Config, s: State, steps: seq<Step>, v: Val): nat
    requires ValidRun(c, s, steps)
    decreases |steps|
  {
    if steps == [] then 0 else One(Entry(c, s, steps[0]), v) + Entries(c, Do(c, s, steps[0]), steps[1..], v)
  }

  function Exits(c: Config, s: State, steps: seq<Step>, v: Val): nat
    requires ValidRun(c, s, steps)
    decreases |steps|
  {
    if steps == [] then 0 else One(Exit(c, s, steps[0]), v) + Exits(c, Do(c, s, steps[0]), steps[1..], v)
  }

  /** Conservation: in every run a value is in as many places as it was put, less the times it left. */
  lemma {:induction false} Conservation(c: Config, s: State, steps: seq<Step>, v: Val)
    requires ConfigOk(c) && Linear(c, s) && ValidRun(c, s, steps) && ScopedRun(c, s, steps)
    ensures Linear(c, Run(c, s, steps))
    ensures |Places(Run(c, s, steps), v)| + Exits(c, s, steps, v) == |Places(s, v)| + Entries(c, s, steps, v)
    decreases |steps|
  {
    hide Linear, Enabled, Do, ConfigOk, Places, Exit, Entry, One, Scoped;
    if steps != [] {
      StepLinear(c, s, steps[0]);
      Conservation(c, Do(c, s, steps[0]), steps[1..], v);
    }
  }

  lemma InitLinear(c: Config)
    requires !c.isCopy
    ensures Linear(c, Init(c)) && forall v :: Places(Init(c), v) == {}
  {
    InitInv(c);
  }

  /** A value put once is in exactly one place, or has been returned or dropped exactly once. */
  lemma OnePlace(c: Config, steps: seq<Step>, v: Val)
    requires ConfigOk(c) && !c.isCopy && ValidRun(c, Init(c), steps) && ScopedRun(c, Init(c), steps)
    requires Entries(c, Init(c), steps, v) == 1
    ensures var s := Run(c, Init(c), steps);
            || (Exits(c, Init(c), steps, v) == 1 && Places(s, v) == {})
            || (Exits(c, Init(c), steps, v) == 0 && exists q :: Places(s, v) == {q})
  {
    hide Linear, ConfigOk, Places, Exits, Entries, ValidRun, ScopedRun, Run;
    InitLinear(c);
    Conservation(c, Init(c), steps, v);
    var places := Places(Run(c, Init(c), steps), v);
    if |places| == 1 {
      var q :| q in places;
      assert |places - {q}| == 0;
      assert places == {q};
    }
  }
}
