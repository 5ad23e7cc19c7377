/** What the steps of the protocol leave alone, in whatever state they are taken. */
module StepEffects {
  import opened Wrappers
  import opened Protocol

  // ---------------------------------------------------------------- inside acquire_data

  /** Only the getter's own call, and its source's countdown, flags, semaphore and pointer, are touched. */
  ghost predicate OwnCall(s: State, s': State, g: Loc)
    requires g in s.call && s.call[g].Get?
  {
    && g in s'.call && s'.call[g].Get? && s'.call[g].wants == s.call[g].wants && s'.call[g].timed == s.call[g].timed
    && s' == s.(count := s'.count, flags := s'.flags, sema := s'.sema, ptr := s'.ptr, fault := s'.fault,
                call := s.call[g := s'.call[g]])
  }

  lemma SetPhaseOwn(s: State, s1: State, g: Loc, ph: Phase)
    requires g in s.call && s.call[g].Get?
    requires s1 == s.(count := s1.count, flags := s1.flags, sema := s1.sema)
    ensures var s' := SetPhase(s1, g, ph);
            && OwnCall(s, s', g) && s'.call[g].phase == ph && s'.call[g].out == s.call[g].out
            && s'.count == s1.count && s'.flags == s1.flags && s'.sema == s1.sema && s'.ptr == s.ptr
            && s'.fault == s.fault
  {
  }

  lemma CopyOutIs(c: Config, s: State, g: Loc, src: Loc, take: bool, next: Phase)
    requires g in s.call && s.call[g].Get?
    ensures var s' := CopyOut(c, s, g, src, take, next);
            || s' == s.(fault := true)
            || s' == s.(call := s.call[g := s.call[g].(out := Deref(s, src), phase := next)],
                        ptr := if take && IsPoPu(c, src) then s.ptr - {src} else s.ptr)
  {
    hide Deref, IsPoPu;
    if Deref(s, src).None? {
    } else if take && IsPoPu(c, src) {
    } else {
    }
  }

  lemma CopyOutOwn(c: Config, s: State, g: Loc, src: Loc, take: bool, next: Phase)
    requires g in s.call && s.call[g].Get?
    ensures var s' := CopyOut(c, s, g, src, take, next);
            && OwnCall(s, s', g) && s'.count == s.count && s'.flags == s.flags && s'.sema == s.sema
            && (s'.call[g].phase == next || (s'.fault && s' == s.(fault := true)))
            && (forall m :: m != src ==> (m in s'.ptr <==> m in s.ptr) && (m in s.ptr ==> s'.ptr[m] == s.ptr[m]))
            && (!IsPoPu(c, src) || !take ==> s'.ptr == s.ptr)
  {
    hide Deref, CopyOut, IsPoPu;
    CopyOutIs(c, s, g, src, take, next);
    FaultOwn(s, g);
  }

  lemma FaultOwn(s: State, g: Loc)
    requires g in s.call && s.call[g].Get?
    ensures OwnCall(s, s.(fault := true), g)
  {
    assert s.call[g := s.call[g]] == s.call;
  }

  lemma LeaveOwn(s: State, g: Loc, src: Loc, last: Phase, other: Phase)
    requires g in s.call && s.call[g].Get?
    ensures var s' := Leave(s, g, src, last, other);
            && OwnCall(s, s', g) && s'.flags == s.flags && s'.sema == s.sema && s'.ptr == s.ptr
            && s'.call[g].out == s.call[g].out
            && (s'.call[g].phase == last || s'.call[g].phase == other || (s'.fault && s' == s.(fault := true)))
            && (s'.count == s.count || (src in s'.count && s'.count == s.count[src := s'.count[src]]))
  {
    hide OwnCall, SetPhase;
    if At(s.count, src, 0) == 0 {
      FaultOwn(s, g);
    } else {
      SetPhaseOwn(s, s.(count := s.count[src := s.count[src] - 1]), g, if s.count[src] == 1 then last else other);
    }
  }

  /** Where a getter can go from a phase. */
  predicate Follows(ph: Phase, next: Phase) {
    match ph
    case Mark(p) => next == Copying(p)
    case Copying(p) => next == Leaving(p)
    case Leaving(p) => next == Reading(p) || next == Served
    case Reading(p) => next.Finalizing? && next.src == p
    case Asking(p) => next == Cloning(p) || next == WonLeaving(p)
    case WonLeaving(p) => next == Moving(p) || next == Parked(p)
    case Moving(p) => next == Finalizing(p, true)
    case Parked(p) => next == Finalizing(p, true)
    case Cloning(p) => next == LostLeaving(p)
    case LostLeaving(p) => next == Served
    case SignalLeaving(p) => next == AskingLast(p) || next == Served
    case AskingLast(p) => next == Served || next == Finalizing(p, false)
    case _ => false
  }

  predicate CopiesOut(ph: Phase) { ph.Copying? || ph.Moving? || ph.Cloning? }

  /** A getter's step: on to the next phase, or a fault; only copying changes what it has. */
  ghost predicate Proceeds(s: State, s': State, g: Loc)
    requires g in s.call && s.call[g].Get?
  {
    && OwnCall(s, s', g)
    && (Follows(s.call[g].phase, s'.call[g].phase) || (s'.fault && s'.call[g] == s.call[g]))
    && (!CopiesOut(s.call[g].phase) ==> s'.call[g].out == s.call[g].out && s'.ptr == s.ptr)
    && SourceOnly(s, s', s.call[g].phase)
  }

  /** Flags are asked or marked, the countdown decremented, the semaphore used at the source alone. */
  ghost predicate SourceOnly(s: State, s': State, ph: Phase) {
    && (s'.flags == s.flags || (FlagPhase(ph) && ph.src in s'.flags && s'.flags == s.flags[ph.src := s'.flags[ph.src]]
                                && (!ph.Mark? ==>
                                      s'.flags[ph.src].disabled == At(s.flags, ph.src, Flags(false, false)).disabled)))
    && (s'.count == s.count
          || (CountPhase(ph) && ph.src in s'.count && s'.count == s.count[ph.src := s'.count[ph.src]]))
    && (s'.sema == s.sema || (SemaPhase(ph) && ph.src in s'.sema && s'.sema == s.sema[ph.src := s'.sema[ph.src]]))
  }

  predicate FlagPhase(ph: Phase) { ph.Mark? || ph.Asking? || ph.AskingLast? }

  predicate CountPhase(ph: Phase) { ph.Leaving? || ph.WonLeaving? || ph.SignalLeaving? || ph.LostLeaving? }

  predicate SemaPhase(ph: Phase) { ph.Parked? || ph.LostLeaving? || ph.AskingLast? }

  lemma FlagWork(c: Config, s: State, g: Loc)
    requires g in s.call && s.call[g].Get? && Working(s, g)
    requires s.call[g].phase.Mark? || s.call[g].phase.Reading? || s.call[g].phase.Asking?
    ensures Proceeds(s, DoWork(c, s, g), g)
  {
    match s.call[g].phase
    case Mark(_) =>
    case Reading(_) =>
    case Asking(_) =>
  }

  lemma ParkedWork(c: Config, s: State, g: Loc)
    requires g in s.call && s.call[g].Get? && Working(s, g) && s.call[g].phase.Parked?
    ensures Proceeds(s, DoWork(c, s, g), g)
  {
  }

  lemma ReleaseProceeds(s: State, s1: State, g: Loc, p: Loc)
    requires g in s.call && s.call[g].Get? && Proceeds(s, s1, g) && s1.sema == s.sema
    requires s.call[g].phase == LostLeaving(p) || s.call[g].phase == AskingLast(p)
    ensures Proceeds(s, ReleaseSema(s1, p), g)
  {
    hide Follows, FlagPhase, CountPhase;
  }

  lemma MovedProceeds(s: State, g: Loc, p: Loc, next: Phase)
    requires g in s.call && s.call[g].Get? && s.call[g].phase == AskingLast(p)
    requires (next == Served || next == Finalizing(p, false))
    ensures Proceeds(s, SetPhase(SetMoved(s, p), g, next), g) && SetPhase(SetMoved(s, p), g, next).sema == s.sema
  {
  }

  lemma AskingLastWork(c: Config, s: State, g: Loc)
    requires g in s.call && s.call[g].Get? && Working(s, g) && s.call[g].phase.AskingLast?
    ensures Proceeds(s, DoWork(c, s, g), g)
  {
    hide Proceeds, SetPhase, ReleaseSema;
    var p := s.call[g].phase.src;
    MovedProceeds(s, g, p, Served);
    MovedProceeds(s, g, p, Finalizing(p, false));
    ReleaseProceeds(s, SetPhase(SetMoved(s, p), g, Served), g, p);
  }

  lemma CopyOutProceeds(c: Config, s: State, g: Loc, take: bool, next: Phase)
    requires g in s.call && s.call[g].Get? && CopiesOut(s.call[g].phase) && Follows(s.call[g].phase, next)
    ensures Proceeds(s, CopyOut(c, s, g, s.call[g].phase.src, take, next), g)
  {
    hide CopyOut, Follows;
    CopyOutOwn(c, s, g, s.call[g].phase.src, take, next);
  }

  lemma FaultProceeds(s: State, g: Loc)
    requires g in s.call && s.call[g].Get?
    ensures Proceeds(s, s.(fault := true), g)
  {
    FaultOwn(s, g);
  }

  lemma CopyWork(c: Config, s: State, g: Loc)
    requires g in s.call && s.call[g].Get? && Working(s, g) && CopiesOut(s.call[g].phase)
    ensures Proceeds(s, DoWork(c, s, g), g)
  {
    hide CopyOut, Proceeds;
    var p := s.call[g].phase.src;
    match s.call[g].phase
    case Copying(_) => CopyOutProceeds(c, s, g, true, Leaving(p));
    case Moving(_) => CopyOutProceeds(c, s, g, true, Finalizing(p, true));
    case Cloning(_) =>
      CopyOutProceeds(c, s, g, false, LostLeaving(p));
      FaultProceeds(s, g);
  }

  lemma LeaveProceeds(s: State, g: Loc, p: Loc, last: Phase, other: Phase)
    requires g in s.call && s.call[g].Get? && CountPhase(s.call[g].phase) && s.call[g].phase.src == p
    requires Follows(s.call[g].phase, last) && Follows(s.call[g].phase, other)
    ensures Proceeds(s, Leave(s, g, p, last, other), g) && Leave(s, g, p, last, other).sema == s.sema
  {
    hide Leave, Follows;
    LeaveOwn(s, g, p, last, other);
  }

  lemma LeaveWork(c: Config, s: State, g: Loc)
    requires g in s.call && s.call[g].Get? && Working(s, g)
    requires s.call[g].phase.Leaving? || s.call[g].phase.WonLeaving? || s.call[g].phase.SignalLeaving?
    ensures Proceeds(s, DoWork(c, s, g), g)
  {
    hide Leave, Proceeds;
    var p := s.call[g].phase.src;
    match s.call[g].phase
    case Leaving(_) => LeaveProceeds(s, g, p, Reading(p), Served);
    case WonLeaving(_) => LeaveProceeds(s, g, p, Moving(p), Parked(p));
    case SignalLeaving(_) => LeaveProceeds(s, g, p, AskingLast(p), Served);
  }

  lemma LoserWork(c: Config, s: State, g: Loc)
    requires g in s.call && s.call[g].Get? && s.call[g].phase.LostLeaving?
    ensures Proceeds(s, DoWork(c, s, g), g)
  {
    hide Leave, Proceeds, ReleaseSema;
    var p := s.call[g].phase.src;
    LeaveProceeds(s, g, p, Served, Served);
    ReleaseProceeds(s, Leave(s, g, p, Served, Served), g, p);
  }

  lemma WorkProceeds(c: Config, s: State, g: Loc)
    requires g in s.call && s.call[g].Get? && Working(s, g)
    ensures Proceeds(s, DoWork(c, s, g), g)
  {
    hide DoWork, Proceeds;
    match s.call[g].phase
    case Mark(_) => FlagWork(c, s, g);
    case Reading(_) => FlagWork(c, s, g);
    case Asking(_) => FlagWork(c, s, g);
    case Copying(_) => CopyWork(c, s, g);
    case Moving(_) => CopyWork(c, s, g);
    case Cloning(_) => CopyWork(c, s, g);
    case Leaving(_) => LeaveWork(c, s, g);
    case WonLeaving(_) => LeaveWork(c, s, g);
    case SignalLeaving(_) => LeaveWork(c, s, g);
    case LostLeaving(_) => LoserWork(c, s, g);
    case Parked(_) => ParkedWork(c, s, g);
    case AskingLast(_) => AskingLastWork(c, s, g);
  }

  // ---------------------------------------------------------------- the other steps

  lemma RevokeEffect(s: State, l: Loc)
    requires l in s.call
    ensures var s' := DoRevoke(s, l);
            if l in s.ready then s' == s.(ready := s.ready - {l}, call := s.call - {l})
            else s' == s.(call := s.call[l := WithPhase(s.call[l], Late)])
  {
    if l in s.ready {
    } else {
    }
  }

  lemma RecvEffect(c: Config, s: State, l: Loc)
    requires l in s.call && l in s.box
    ensures var s', ph := DoRecv(c, s, l), RecvPhase(c, s.call[l], s.box[l]);
            && s' == s.(box := s.box - {l}, call := s'.call, fault := s'.fault)
            && (ph.Some? ==> s'.fault == s.fault && s'.call == s.call[l := WithPhase(s.call[l], ph.value)])
            && (ph.None? ==> s'.fault && s'.call == s.call)
  {
    hide RecvPhase;
    match RecvPhase(c, s.call[l], s.box[l])
    case Some(ph) =>
    case None =>
  }

  lemma SendLeaves(s: State, to: Loc, msg: int)
    ensures var s' := Send(s, to, msg);
            && s' == s.(box := s'.box, fault := s'.fault)
            && (to !in s.box ==> s'.fault == s.fault && s'.box == s.box[to := msg])
            && (to in s.box ==> s'.fault && s'.box == s.box)
  {
    if to in s.box {
    } else {
    }
  }

  lemma EmptyLeaves(s: State, m: Loc)
    ensures var s' := MakeEmpty(s, m);
            && s' == s.(ptr := s'.ptr, refs := s'.refs, store := s'.store, ready := s'.ready, fault := s'.fault)
            && (CannotEmpty(s, m) ==> s' == s.(fault := true))
            && (!CannotEmpty(s, m) ==> s'.fault == s.fault && s'.ready == s.ready + {m} && s'.ptr == s.ptr - {m})
  {
    hide CannotEmpty;
    EmptyCases(s, m);
  }

  lemma EmptyCases(s: State, m: Loc)
    ensures CannotEmpty(s, m) ==> MakeEmpty(s, m) == s.(fault := true)
    ensures !CannotEmpty(s, m) ==>
              MakeEmpty(s, m) == s.(ptr := s.ptr - {m}, ready := s.ready + {m},
                                    refs := MakeEmpty(s, m).refs, store := MakeEmpty(s, m).store)
  {
    if CannotEmpty(s, m) {
    } else if s.refs[s.ptr[m].at] == 1 {
    } else {
    }
  }

  /** The last getter's finalizer empties a cell and takes the lock, */
  lemma FinalizeCellEffect(c: Config, s: State, g: Loc)
    requires g in s.call && s.call[g].phase.Finalizing? && IsMemo(c, s.call[g].phase.src)
    ensures var s', src := DoFinalize(c, s, g), s.call[g].phase.src;
            && s' == MakeEmpty(SetPhase(s, g, Served), src).(lock := Held(g, 0, [], []))
            && s'.call == s.call[g := WithPhase(s.call[g], Served)] && s'.mem == s.mem && s'.box == s.box
            && s'.count == s.count && s'.flags == s.flags && s'.sema == s.sema
            && (s'.ready == s.ready || s'.ready == s.ready + {src})
  {
    hide MakeEmpty;
    EmptyLeaves(SetPhase(s, g, Served), s.call[g].phase.src);
  }

  /** or reports to a port. */
  lemma FinalizePortEffect(c: Config, s: State, g: Loc)
    requires g in s.call && s.call[g].phase.Finalizing? && !IsMemo(c, s.call[g].phase.src)
    ensures var s', src := DoFinalize(c, s, g), s.call[g].phase.src;
            && s' == s.(call := s.call[g := WithPhase(s.call[g], Served)], box := s'.box, fault := s'.fault)
            && (src !in s.box ==>
                  s'.box == s.box[src := if s.call[g].phase.someoneMoved then 1 else 0] && s'.fault == s.fault)
            && (src in s.box ==> s'.box == s.box && s'.fault)
  {
    hide Send;
    SendLeaves(SetPhase(s, g, Served), s.call[g].phase.src, if s.call[g].phase.someoneMoved then 1 else 0);
  }

  lemma SelectEffect(s: State, r: Rule)
    requires s.lock.Held?
    ensures DoSelect(s, r) == s.(mem := s.mem - r.assignMask + r.assignVals, ready := s.ready - r.guardReady,
                                 lock := s.lock.(rest := r.actions))
  {
  }

  /** Performing an action touches no call, no bit and no semaphore, and makes only its own cells ready. */
  ghost predicate Transfers(c: Config, s: State, s': State, a: Action) {
    && s'.call == s.call && s'.mem == s.mem && s'.sema == s.sema
    && (forall l :: l in s.ready ==> l in s'.ready)
    && (forall l :: l in s'.ready ==> l in s.ready || l in a.mg || (l == a.putter && IsMemo(c, l)))
    && (forall l :: l != a.putter && l !in a.mg ==>
          (l in s'.ptr <==> l in s.ptr) && (l in s.ptr ==> s'.ptr[l] == s.ptr[l]))
    && (forall l :: l != a.putter ==> (l in s'.box <==> l in s.box) && (l in s.box ==> s'.box[l] == s.box[l]))
  }

  lemma FillLeaves(s: State, cells: seq<Loc>, x: Ptr)
    ensures var s' := Fill(s, cells, x);
            || s' == s.(fault := true)
            || s' == s.(ptr := s.ptr + (map m | m in cells :: Slot(x)), ready := s.ready + SetOf(cells))
  {
    hide SetOf;
    if exists m <- cells :: m in s.ptr {
    } else {
    }
  }

  /** Pointers set, cells ready, slots and counts adapted, or a fault. */
  ghost predicate Filled(s: State, s': State, a: Action) {
    && s' == s.(ptr := s'.ptr, ready := s'.ready, refs := s'.refs, store := s'.store, fault := s'.fault)
    && (s'.ready == s.ready || s'.ready == s.ready + SetOf(a.mg))
    && (forall l :: l !in a.mg ==> (l in s'.ptr <==> l in s.ptr) && (l in s.ptr ==> s'.ptr[l] == s.ptr[l]))
  }

  lemma FilledTransfers(c: Config, s: State, s': State, a: Action)
    requires Filled(s, s', a)
    ensures Transfers(c, s, s', a)
  {
  }

  lemma FillFilled(s: State, a: Action, x: Ptr)
    ensures Filled(s, Fill(s, a.mg, x), a)
  {
    hide Fill, SetOf;
    FillLeaves(s, a.mg, x);
  }

  lemma AdaptFilled(s: State, s1: State, s2: State, a: Action)
    requires Filled(s, s1, a) && s2 == s1.(refs := s2.refs, store := s2.store)
    ensures Filled(s, s2, a)
  {
  }

  lemma FaultFilled(s: State, a: Action)
    ensures Filled(s, s.(fault := true), a) && Filled(s, s, a)
  {
  }

  lemma FillGettersFilled(c: Config, s: State, a: Action, slot: Ptr)
    ensures Filled(s, FillGetters(c, s, a, slot), a)
  {
    hide Fill, Deref, Filled;
    FaultFilled(s, a);
    FillFilled(s, a, slot);
    if IsMemo(c, a.putter) {
      if !(a.putter !in s.ptr || !s.ptr[a.putter].Slot? || s.ptr[a.putter].at !in s.refs
        || s.refs[s.ptr[a.putter].at] == 0) {
        FillFilled(s, a, s.ptr[a.putter].at);
        AdaptFilled(s, Fill(s, a.mg, s.ptr[a.putter].at), FillGetters(c, s, a, slot), a);
      }
    } else if a.mg != [] && !(Deref(s, a.putter).None? || slot in s.refs || !Clonable(c, a)) {
      AdaptFilled(s, Fill(s, a.mg, slot), FillGetters(c, s, a, slot), a);
    }
  }

  lemma ArmTransfers(c: Config, s: State, a: Action)
    requires a.pg != []
    ensures var s' := Dispatch(c, s, a);
            && Transfers(c, s, s', a)
            && s' == s.(count := s.count[a.putter := |a.pg|],
                  flags := s.flags[a.putter := Flags(false, !DisableMove(c, s, a.putter))])
  {
    hide DisableMove;
  }

  lemma CellTransfers(c: Config, s: State, a: Action)
    requires a.pg == [] && IsMemo(c, a.putter)
    ensures var s' := Dispatch(c, s, a);
            && Transfers(c, s, s', a) && s'.lock == s.lock && s'.box == s.box && s'.count == s.count
            && s'.flags == s.flags
  {
    hide MakeEmpty;
    EmptyLeaves(s, a.putter);
  }

  lemma PortTransfers(c: Config, s: State, a: Action)
    requires a.pg == [] && !IsMemo(c, a.putter)
    ensures var s' := Dispatch(c, s, a);
            && Transfers(c, s, s', a) && s' == s.(box := s'.box, fault := s'.fault)
            && (a.putter !in s.box ==> s'.box == s.box[a.putter := if a.mg == [] then 0 else 1])
  {
    hide Send;
    SendLeaves(s, a.putter, if a.mg == [] then 0 else 1);
  }

  lemma TransfersThen(c: Config, s: State, s1: State, s2: State, a: Action)
    requires Transfers(c, s, s1, a) && Transfers(c, s1, s2, a)
    ensures Transfers(c, s, s2, a)
  {
  }

  function Performed(c: Config, s: State, slot: Ptr): State
    requires s.lock.Held? && s.lock.rest != []
  {
    Dispatched(Dispatch(c, FillGetters(c, s, s.lock.rest[0], slot), s.lock.rest[0]), s.lock.rest[0], s.lock)
  }

  lemma PerformTransfers(c: Config, s: State, slot: Ptr)
    requires s.lock.Held? && s.lock.rest != []
    ensures var s', a := Performed(c, s, slot), s.lock.rest[0];
            && Transfers(c, s, s', a) && s'.lock == s.lock.(src := a.putter, sends := a.pg, rest := s.lock.rest[1..])
            && (a.pg != [] ==>
                  && s'.box == s.box && s'.count == s.count[a.putter := |a.pg|]
                  && s'.flags == s.flags[a.putter :=
                        Flags(false, !DisableMove(c, FillGetters(c, s, a, slot), a.putter))])
            && (a.pg == [] ==> s'.count == s.count && s'.flags == s.flags && (IsMemo(c, a.putter) ==> s'.box == s.box))
            && (a.pg == [] && !IsMemo(c, a.putter) && a.putter !in s.box ==>
                  s'.box == s.box[a.putter := if a.mg == [] then 0 else 1])
  {
    hide FillGetters, Dispatch, Transfers, Filled, DisableMove;
    var a := s.lock.rest[0];
    var s1 := FillGetters(c, s, a, slot);
    var s2 := Dispatch(c, s1, a);
    FillGettersFilled(c, s, a, slot);
    FilledTransfers(c, s, s1, a);
    FilledRest(s, s1, a);
    if a.pg != [] {
      ArmTransfers(c, s1, a);
    } else if IsMemo(c, a.putter) {
      CellTransfers(c, s1, a);
    } else {
      PortTransfers(c, s1, a);
    }
    TransfersThen(c, s, s1, s2, a);
    SameTransfers(c, s, s2, Dispatched(s2, a, s.lock), a);
  }

  lemma FilledRest(s: State, s': State, a: Action)
    requires Filled(s, s', a)
    ensures s'.lock == s.lock && s'.box == s.box && s'.count == s.count && s'.flags == s.flags
  {
  }

  lemma SameTransfers(c: Config, s: State, s1: State, s2: State, a: Action)
    requires Transfers(c, s, s1, a) && s2 == s1.(lock := s2.lock)
    ensures Transfers(c, s, s2, a)
  {
  }

  // ---------------------------------------------------------------- every step

  /** Steps outside `acquire_data`, messages and firings. */
  predicate Plain(step: Step) {
    step.BeginPut? || step.EnterPut? || step.EnterGet? || step.Release? || step.TimeOut? || step.Return?
  }

  /** How a step changes the call at a location: it begins or ends, it changes phase, or it stays. */
  ghost predicate CallKept(s: State, s': State, l: Loc) {
    l in s'.call ==> l in s.call && (if s.call[l].Put? then s'.call[l].Put? && s'.call[l].datum == s.call[l].datum
                                     else s'.call[l].Get? && s'.call[l].wants == s.call[l].wants)
  }

  predicate Begins(step: Step, l: Loc) { (step.BeginPut? && step.p == l) || (step.EnterGet? && step.g == l) }

  lemma PlainEffect(c: Config, s: State, step: Step)
    requires Enabled(c, s, step) && Plain(step)
    ensures var s' := Do(c, s, step);
            && s' == s.(lock := s'.lock, ready := s'.ready, ptr := s'.ptr, call := s'.call)
            && (s'.lock == s.lock || (s'.lock.Held? && s'.lock.sends == [] && s'.lock.rest == [])
                  || (step.Release? && s'.lock.Free?))
            && forall l :: !Begins(step, l) ==> CallKept(s, s', l)
  {
    hide RuleEnabled, DoWork, DoRecv, DoFinalize, DoRevoke, DoSelect, Send, FillGetters, Dispatch, Working;
  }

  lemma FiringEffect(c: Config, s: State, step: Step)
    requires Enabled(c, s, step) && (step.Select? || step.Perform? || step.SendNext?)
    ensures var s' := Do(c, s, step);
            && s'.call == s.call && s.lock.Held?
            && (step.Select? ==> s'.lock == s.lock.(rest := c.rules[step.i].actions))
            && (step.Perform? ==>
                  s.lock.rest != []
                    && s'.lock == s.lock.(src := s.lock.rest[0].putter, sends := s.lock.rest[0].pg,
                          rest := s.lock.rest[1..]))
            && (step.SendNext? ==> s.lock.sends != [] && s'.lock == s.lock.(sends := s.lock.sends[1..]))
  {
    hide RuleEnabled, DoWork, DoRecv, DoFinalize, DoRevoke, DoSelect, Send, FillGetters, Dispatch, Dispatched, Working;
    match step
    case Select(i) => SelectEffect(s, c.rules[i]);
    case Perform(slot) => PerformTransfers(c, s, slot);
    case SendNext => SendLeaves(s, s.lock.sends[0], s.lock.src);
  }

  ghost predicate After(s: State, s': State) {
    && (s'.lock == s.lock || (s'.lock.Held? && s'.lock.sends == [] && s'.lock.rest == []))
    && s'.mem == s.mem && forall l :: CallKept(s, s', l)
  }

  lemma AfterRevoke(s: State, l: Loc)
    requires l in s.call
    ensures After(s, DoRevoke(s, l))
  {
    if l in s.ready {
    } else {
    }
  }

  lemma AfterRecv(c: Config, s: State, l: Loc)
    requires l in s.call && l in s.box
    ensures After(s, DoRecv(c, s, l))
  {
    hide DoRecv, RecvPhase;
    RecvEffect(c, s, l);
  }

  lemma AfterWork(c: Config, s: State, g: Loc)
    requires g in s.call && s.call[g].Get? && Working(s, g)
    ensures After(s, DoWork(c, s, g))
  {
    hide DoWork, Working;
    WorkProceeds(c, s, g);
  }

  lemma AfterFinalize(c: Config, s: State, g: Loc)
    requires g in s.call && s.call[g].phase.Finalizing?
    ensures After(s, DoFinalize(c, s, g))
  {
    hide DoFinalize, MakeEmpty;
    if IsMemo(c, s.call[g].phase.src) {
      FinalizeCellEffect(c, s, g);
    } else {
      FinalizePortEffect(c, s, g);
    }
  }

  lemma AfterEffect(c: Config, s: State, step: Step)
    requires Enabled(c, s, step) && (step.Revoke? || step.Recv? || step.Work? || step.Finalize?)
    ensures After(s, Do(c, s, step))
  {
    hide DoWork, DoRecv, DoFinalize, DoRevoke, Working, After;
    match step
    case Revoke(l) => AfterRevoke(s, l);
    case Recv(l) => AfterRecv(c, s, l);
    case Work(g) => AfterWork(c, s, g);
    case Finalize(g) => AfterFinalize(c, s, g);
  }

  /** What is left to perform comes from a rule, and nobody's call changes its kind. */
  lemma StepEffect(c: Config, s: State, step: Step)
    requires Enabled(c, s, step)
    ensures forall l :: !Begins(step, l) ==> CallKept(s, Do(c, s, step), l)
    ensures var rest := Rest(Do(c, s, step).lock);
            || rest == [] || rest == Rest(s.lock)
            || (step.Perform? && Rest(s.lock) != [] && rest == Rest(s.lock)[1..])
            || (step.Select? && step.i < |c.rules| && rest == c.rules[step.i].actions)
  {
    hide Do, RuleEnabled, Working;
    if Plain(step) {
      PlainEffect(c, s, step);
    } else if step.Select? || step.Perform? || step.SendNext? {
      FiringEffect(c, s, step);
    } else {
      AfterEffect(c, s, step);
    }
  }

  // ---------------------------------------------------------------- the calls of other threads

  /** The step is one of the thread that calls at `l`. */
  predicate OwnStep(step: Step, l: Loc) {
    match step
    case BeginPut(p, _, _) => p == l
    case EnterPut(p) => p == l
    case EnterGet(g, _, _) => g == l
    case TimeOut(k) => k == l
    case Revoke(k) => k == l
    case Recv(k) => k == l
    case Work(g) => g == l
    case Finalize(g) => g == l
    case Return(k) => k == l
    case _ => false
  }

  lemma OtherCallPlain(c: Config, s: State, step: Step, l: Loc)
    requires Enabled(c, s, step) && Plain(step) && !OwnStep(step, l)
    ensures Lookup(Do(c, s, step).call, l) == Lookup(s.call, l)
  {
    hide RuleEnabled;
  }

  lemma OtherCallRevoke(s: State, k: Loc, l: Loc)
    requires k in s.call && k != l
    ensures Lookup(DoRevoke(s, k).call, l) == Lookup(s.call, l)
  {
    if k in s.ready {
    } else {
    }
  }

  lemma OtherCallRecv(c: Config, s: State, k: Loc, l: Loc)
    requires k in s.call && k in s.box && k != l
    ensures Lookup(DoRecv(c, s, k).call, l) == Lookup(s.call, l)
  {
    hide DoRecv, RecvPhase;
    RecvEffect(c, s, k);
  }

  lemma OtherCallFinalize(c: Config, s: State, g: Loc, l: Loc)
    requires g in s.call && s.call[g].phase.Finalizing? && g != l
    ensures Lookup(DoFinalize(c, s, g).call, l) == Lookup(s.call, l)
  {
    hide DoFinalize, MakeEmpty;
    if IsMemo(c, s.call[g].phase.src) {
      FinalizeCellEffect(c, s, g);
    } else {
      FinalizePortEffect(c, s, g);
    }
  }

  lemma OtherCallWork(c: Config, s: State, g: Loc, l: Loc)
    requires g in s.call && s.call[g].Get? && Working(s, g) && g != l
    ensures Lookup(DoWork(c, s, g).call, l) == Lookup(s.call, l)
  {
    hide DoWork;
    WorkProceeds(c, s, g);
  }

  /** Other threads' steps leave a call alone. */
  lemma OtherCall(c: Config, s: State, step: Step, l: Loc)
    requires Enabled(c, s, step) && !OwnStep(step, l)
    ensures Lookup(Do(c, s, step).call, l) == Lookup(s.call, l)
  {
    hide RuleEnabled, DoWork, DoRecv, DoFinalize, DoRevoke, Working, Dispatched, DoSelect;
    if Plain(step) {
      OtherCallPlain(c, s, step, l);
    } else if step.Select? || step.Perform? || step.SendNext? {
      FiringEffect(c, s, step);
    } else {
      match step
      case Revoke(k) => OtherCallRevoke(s, k, l);
      case Recv(k) => OtherCallRecv(c, s, k, l);
      case Work(g) => OtherCallWork(c, s, g, l);
      case Finalize(g) => OtherCallFinalize(c, s, g, l);
    }
  }
}
