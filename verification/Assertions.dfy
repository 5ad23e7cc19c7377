/** What the coordinator asserts, expects and dereferences, step by step, and that all of it holds in every run in
    scope. It is stated in terms of the state alone: not by way of `fault`. */
module Assertions {
  import opened Wrappers
  import opened Protocol
  import opened StepEffects
  import opened Runs
  import opened ProtocolInvariant
  import opened ProtocolFiring
  import opened ProtocolSafety

  /** A cell's pointer leads to a slot that storage owns and counts. */
  predicate Stored(s: State, m: Loc) {
    && m in s.ptr && s.ptr[m].Slot?
    && s.ptr[m].at in s.store && s.ptr[m].at in s.refs && s.refs[s.ptr[m].at] > 0
  }

  /** A put is under way that has not received its message: the frame with its datum is alive. */
  predicate Alive(s: State, p: Loc) {
    p in s.call && s.call[p].Put? && !s.call[p].phase.Starting? && !s.call[p].phase.Sent?
  }

  predicate Readable(c: Config, s: State, p: Loc) {
    if IsMemo(c, p) then Stored(s, p) else IsPoPu(c, p) && Alive(s, p) && p in s.ptr && s.ptr[p].Stack?
  }

  predicate ChecksPass(c: Config, s: State, step: Step) {
    match step
    case Perform(slot) =>
      s.lock.Held? && s.lock.rest != [] &&
      var a := s.lock.rest[0];
      && Readable(c, s, a.putter) && a.putter !in s.ready && a.putter !in s.box
      && (forall m <- a.mg :: m !in s.ptr && m !in s.ready && m !in s.box)
      && (forall g <- a.pg :: g in s.call && s.call[g].Get? && g !in s.box)
      && (a.mg != [] && a.pg != [] && !IsMemo(c, a.putter) ==> c.isClone)
      && slot !in s.refs
    case SendNext => s.lock.Held? && s.lock.sends != [] && s.lock.sends[0] !in s.box
    case Recv(l) =>
      && l in s.call && l in s.box
      && if s.call[l].Put? then 0 <= s.box[l] <= 1 else IsPoPu(c, s.box[l]) || IsMemo(c, s.box[l])
    case Work(g) =>
      g in s.call && s.call[g].Get? &&
      var ph := s.call[g].phase;
      && (ph.Leaving? || ph.WonLeaving? || ph.LostLeaving? || ph.SignalLeaving? ==>
            ph.src in s.count && s.count[ph.src] > 0)
      && (ph.Copying? || ph.Moving? || ph.Cloning? ==> Readable(c, s, ph.src))
      && (ph.Cloning? ==> c.isClone)
    case Finalize(g) =>
      g in s.call && s.call[g].phase.Finalizing? &&
      var src := s.call[g].phase.src;
      if IsMemo(c, src) then Stored(s, src) && src !in s.ready
      else IsPoPu(c, src) && Alive(s, src) && src !in s.box
    case _ => true
  }

  lemma PerformChecks(c: Config, s: State, slot: Ptr)
    requires Inv(c, s) && Enabled(c, s, Perform(slot)) && Scoped(c, s, Perform(slot))
    ensures ChecksPass(c, s, Perform(slot))
  {
    hide Locations, Counts, Takers, LockOk, TakersOk, Exclusive, Busy;
    var a := s.lock.rest[0];
    PerformGood(c, s);
    PutterKind(c, s);
    GoodAt(c, s, a.putter);
    SlotKnown(s, a.putter);
    forall m <- a.mg ensures m !in s.box {
      GoodAt(c, s, m);
    }
  }

  lemma SlotKnown(s: State, m: Loc)
    requires Slots(s)
    ensures m in s.ptr && s.ptr[m].Slot? ==> Stored(s, m)
  {
    hide Holders;
    assert m in s.ptr && s.ptr[m].Slot? ==> s.ptr[m].at in s.refs.Keys && s.ptr[m].at in s.store.Keys;
  }

  lemma SendChecks(c: Config, s: State)
    requires Inv(c, s) && Enabled(c, s, SendNext)
    ensures ChecksPass(c, s, SendNext)
  {
    hide Counts, Slots, Takers, Busy, Locations;
    SendNextRoles(c, s);
    GoodAt(c, s, s.lock.sends[0]);
  }

  lemma RecvChecks(c: Config, s: State, l: Loc)
    requires Inv(c, s) && Enabled(c, s, Recv(l))
    ensures ChecksPass(c, s, Recv(l))
  {
    hide Counts, Slots, Takers, Busy, Locations, LockOk;
    GoodAt(c, s, l);
    if s.call[l].Get? {
      PledgedToPutter(c, s, l);
    }
  }

  lemma WorkChecks(c: Config, s: State, g: Loc)
    requires Inv(c, s) && Enabled(c, s, Work(g))
    ensures ChecksPass(c, s, Work(g))
  {
    hide Counts, Slots, Locations, LockOk, Working, Deref, Takers;
    var ph := s.call[g].phase;
    GoodAt(c, s, g);
    if AtSource(ph) {
      PledgedToPutter(c, s, g);
      EngagedSource(c, s, g);
    }
  }

  predicate AtSource(ph: Phase) { BeforeLeave(ph) || LastOut(ph) }

  /** A getter at work on a putter: it is counted, and the datum it still has to copy is there. */
  lemma EngagedSource(c: Config, s: State, g: Loc)
    requires Inv(c, s) && g in s.call && s.call[g].Get? && AtSource(s.call[g].phase)
    requires IsPutter(c, s.call[g].phase.src)
    ensures var p := s.call[g].phase.src;
            && (BeforeLeave(s.call[g].phase) ==> p in s.count && s.count[p] > 0)
            && (IsMemo(c, p) ==> Stored(s, p) && p !in s.ready)
            && (!IsMemo(c, p) ==> Alive(s, p) && p !in s.box && (Hungry(s, g) ==> p in s.ptr && s.ptr[p].Stack?))
  {
    hide Slots, Locations, LockOk, Takers;
    var p := s.call[g].phase.src;
    assert BeforeLeave(s.call[g].phase) ==> g in Out(s, p);
    assert LastOut(s.call[g].phase) ==> g in Closers(s, p);
    GoodAt(c, s, p);
    SlotKnown(s, p);
    HungryFinds(c, s, g);
  }

  lemma HungryFinds(c: Config, s: State, g: Loc)
    requires Takers(c, s)
    ensures Engaged(s, g).Some? && IsPoPu(c, Engaged(s, g).value) && Hungry(s, g) ==> Engaged(s, g).value in s.ptr
  {
    hide Engaged, Hungry, Wants;
  }

  lemma FinalizeChecks(c: Config, s: State, g: Loc)
    requires Inv(c, s) && Enabled(c, s, Finalize(g))
    ensures ChecksPass(c, s, Finalize(g))
  {
    hide Counts, Slots, Locations, LockOk, Takers, Busy;
    FinalizeSource(c, s, g);
    EngagedSource(c, s, g);
  }

  lemma StepChecks(c: Config, s: State, step: Step)
    requires Inv(c, s) && Enabled(c, s, step) && Scoped(c, s, step)
    ensures ChecksPass(c, s, step)
  {
    hide Inv, Enabled, Scoped;
    match step
    case Perform(slot) => PerformChecks(c, s, slot);
    case SendNext => SendChecks(c, s);
    case Recv(l) => RecvChecks(c, s, l);
    case Work(g) => WorkChecks(c, s, g);
    case Finalize(g) => FinalizeChecks(c, s, g);
    case _ =>
  }

  /** In every run in scope: what is read is alive or stored, what is counted down is positive, what is emptied is
      stored and not ready, what is filled is empty, every dropbox is empty when a message is sent, every message is
      one that its receiver expects, and only data that can be cloned is cloned. */
  lemma AssertionsHold(c: Config, steps: seq<Step>, k: nat)
    requires ConfigOk(c) && ValidRun(c, Init(c), steps) && ScopedRun(c, Init(c), steps) && k < |steps|
    ensures ValidRun(c, Init(c), steps[..k]) && ChecksPass(c, Run(c, Init(c), steps[..k]), steps[k])
  {
    hide Inv, Enabled, Do, ConfigOk, ChecksPass, ValidRun, ScopedRun, Run, Scoped;
    RunUpTo(c, Init(c), steps, k);
    InitInv(c);
    RunSafe(c, Init(c), steps[..k]);
    StepScoped(c, Init(c), steps, k);
    StepChecks(c, Run(c, Init(c), steps[..k]), steps[k]);
  }

  lemma {:induction false} StepScoped(c: Config, s: State, steps: seq<Step>, k: nat)
    requires ValidRun(c, s, steps) && ScopedRun(c, s, steps) && k < |steps| && ValidRun(c, s, steps[..k])
    ensures Scoped(c, Run(c, s, steps[..k]), steps[k])
    decreases |steps|
  {
    hide Enabled, Do, Scoped;
    if k > 0 {
      assert steps[..k][0] == steps[0] && steps[..k][1..] == steps[1..][..k - 1];
      StepScoped(c, Do(c, s, steps[0]), steps[1..], k - 1);
    }
  }

  // ---------------------------------------------------------------- a failed check raises `fault`

  /** Emptying a cell fails exactly if its pointer is null, not counted, or about to be freed without being owned, or if
      the cell is ready already. */
  lemma EmptyFaults(s: State, m: Loc)
    requires !s.fault
    ensures MakeEmpty(s, m).fault <==>
            || m !in s.ptr || s.ptr[m] == Stack || m in s.ready
            || s.ptr[m].at !in s.refs || s.refs[s.ptr[m].at] == 0
            || (s.refs[s.ptr[m].at] == 1 && s.ptr[m].at !in s.store)
  {
    hide CannotEmpty;
    EmptyLeaves(s, m);
    CannotMeans(s, m);
  }

  lemma CannotMeans(s: State, m: Loc)
    ensures CannotEmpty(s, m) <==>
            || m !in s.ptr || s.ptr[m] == Stack || m in s.ready
            || s.ptr[m].at !in s.refs || s.refs[s.ptr[m].at] == 0
            || (s.refs[s.ptr[m].at] == 1 && s.ptr[m].at !in s.store)
  {
  }

  lemma PointersFault(s: State, cells: seq<Loc>, x: Ptr)
    ensures Fill(s, cells, x).fault <==> s.fault || exists m <- cells :: m in s.ptr
  {
  }

  /** Filling cells from a cell fails exactly if one of them has a pointer already, or the putter's is null or not
      counted; */
  lemma CellFillFaults(c: Config, s: State, a: Action, slot: Ptr)
    requires !s.fault && IsMemo(c, a.putter)
    ensures FillGetters(c, s, a, slot).fault <==>
            || (exists m <- a.mg :: m in s.ptr)
            || a.putter !in s.ptr || s.ptr[a.putter].Stack? || At(s.refs, s.ptr[a.putter].at, 0) == 0
  {
    hide Fill, Deref;
    PointersFault(s, a.mg, if a.putter in s.ptr && s.ptr[a.putter].Slot? then s.ptr[a.putter].at else 0);
  }

  /** from a port, if one of them has a pointer already, the slot is in use, the port's datum is dead, or it would
      have to be cloned and cannot. */
  lemma PortFillFaults(c: Config, s: State, a: Action, slot: Ptr)
    requires !s.fault && !IsMemo(c, a.putter) && (a.putter in s.ptr ==> s.ptr[a.putter] == Stack)
    ensures FillGetters(c, s, a, slot).fault <==>
            a.mg != [] &&
            (|| (exists m <- a.mg :: m in s.ptr)
             || a.putter !in s.ptr || a.putter !in s.call || s.call[a.putter].Get? || s.call[a.putter].phase.Sent?
             || slot in s.refs || (a.pg != [] && !c.isClone))
  {
    hide Fill;
    PointersFault(s, a.mg, slot);
  }

  /** Copying the datum out fails exactly if a cell's slot is not owned, or a port's datum is dead. */
  lemma CopyFaults(c: Config, s: State, g: Loc, src: Loc, take: bool, next: Phase)
    requires !s.fault && g in s.call && s.call[g].Get?
    ensures CopyOut(c, s, g, src, take, next).fault <==>
            || src !in s.ptr
            || (s.ptr[src].Slot? && s.ptr[src].at !in s.store)
            || (s.ptr[src].Stack? && (src !in s.call || s.call[src].Get? || s.call[src].phase.Sent?))
  {
  }
}
