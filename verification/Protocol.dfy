/** The coordinator of src/proto: what one protocol instance holds, and every step its threads can take.

    A thread that calls `put` or `get` takes the lock, raises its readiness and acts as the protocol until no
    rule can fire; data then moves between putters and getters after the lock has been released. Each atomic
    operation of the source is one step here: a critical section is taken apart into its rule selections, data
    transfers and message sends, so that threads outside the lock interleave with a firing in progress.

    A step whose assertion, `expect` or dereference fails in the source raises `fault`. */
module Protocol {
  import opened Wrappers

  type Loc = int
  type Ptr = int
  type Val = int

  /** What a location is. */
  datatype Kind = PoPu | PoGe | Memo

  /** One data movement: a putter, its memory getters and its port getters. */
  datatype Action = Action(putter: Loc, mg: seq<Loc>, pg: seq<Loc>)

  /** A rule at run time, its masks read as sets of locations. The guard is any predicate of the memory bits. */
  datatype Rule = Rule(guardReady: set<Loc>, guardFull: set<Loc>, assignVals: set<Loc>, assignMask: set<Loc>,
                       guard: set<Loc> -> bool, actions: seq<Action>)

  /** A protocol: its locations, its rules, and whether its data type is `Copy`, and whether it is `Clone`. */
  datatype Config = Config(kind: map<Loc, Kind>, rules: seq<Rule>, isCopy: bool, isClone: bool)

  predicate IsPoPu(c: Config, l: Loc) { l in c.kind && c.kind[l] == PoPu }
  predicate IsPoGe(c: Config, l: Loc) { l in c.kind && c.kind[l] == PoGe }
  predicate IsMemo(c: Config, l: Loc) { l in c.kind && c.kind[l] == Memo }

  function SetOf(xs: seq<Loc>): set<Loc> { set x | x in xs }

  function Touched(a: Action): set<Loc> { {a.putter} + SetOf(a.mg) + SetOf(a.pg) }

  function Putters(acts: seq<Action>): set<Loc> {
    if acts == [] then {} else {acts[0].putter} + Putters(acts[1..])
  }

  function Getters(acts: seq<Action>): set<Loc> {
    if acts == [] then {} else SetOf(acts[0].mg) + SetOf(acts[0].pg) + Getters(acts[1..])
  }

  function Locs(acts: seq<Action>): set<Loc> { Putters(acts) + Getters(acts) }

  function Memos(c: Config, ls: set<Loc>): set<Loc> { set l | l in ls && IsMemo(c, l) }

  /** What the rule compiler guarantees of one action; no cell is its own getter. */
  predicate ActionOk(c: Config, a: Action) {
    && (IsPoPu(c, a.putter) || IsMemo(c, a.putter))
    && (forall m <- a.mg :: IsMemo(c, m) && m != a.putter)
    && (forall g <- a.pg :: IsPoGe(c, g))
    && (forall i, j :: 0 <= i < j < |a.mg| ==> a.mg[i] != a.mg[j])
    && (forall i, j :: 0 <= i < j < |a.pg| ==> a.pg[i] != a.pg[j])
  }

  /** Every action is sound and no location takes part in two of them. */
  predicate ActionsOk(c: Config, acts: seq<Action>) {
    acts == [] ||
    (ActionOk(c, acts[0]) && Touched(acts[0]) !! Locs(acts[1..]) && ActionsOk(c, acts[1..]))
  }

  predicate RuleOk(c: Config, r: Rule) {
    && ActionsOk(c, r.actions)
    && r.guardReady == Locs(r.actions)
    && r.guardFull == Memos(c, Putters(r.actions))
    && r.assignVals == Memos(c, Getters(r.actions))
    && r.assignMask == Memos(c, Locs(r.actions))
  }

  /** Every rule is sound. A type that is `Copy` is `Clone`. */
  predicate ConfigOk(c: Config) {
    (c.isCopy ==> c.isClone) && forall i :: 0 <= i < |c.rules| ==> RuleOk(c, c.rules[i])
  }

  // ---------------------------------------------------------------- state

  /** Where a putter's pointer leads: to the datum on the stack of the current call, or to a storage slot. A null
      pointer is an absent entry. */
  datatype Ref = Stack | Slot(at: Ptr)

  /** The two move flags. */
  datatype Flags = Flags(moved: bool, disabled: bool)

  /** How far a call has come. Inside `acquire_data`, `src` is the putter named by the message received. */
  datatype Phase =
    | Starting                                            // put: pointer set, lock not taken yet
    | Waiting | Revoking | Late                           // before the message: waiting, timed out, too late to revoke
    | Mark(src: Loc) | Copying(src: Loc) | Leaving(src: Loc) | Reading(src: Loc)                       // Copy data
    | Asking(src: Loc) | WonLeaving(src: Loc) | Moving(src: Loc) | Parked(src: Loc)                    // other data
    | Cloning(src: Loc) | LostLeaving(src: Loc) | SignalLeaving(src: Loc) | AskingLast(src: Loc)
    | Finalizing(src: Loc, someoneMoved: bool)
    | Sent(moved: bool)                                   // put: the message has been read
    | Served                                              // get: all work done

  datatype Call =
    | Put(datum: Val, timed: bool, phase: Phase)
    | Get(wants: bool, timed: bool, out: Option<Val>, phase: Phase)

  /** Who holds the lock, and what is left of the firing in progress: messages still to send to getters of
      `src`, then further actions. */
  datatype Lock = Free | Held(holder: Loc, src: Loc, sends: seq<Loc>, rest: seq<Action>)

  datatype State = State(
    lock: Lock,
    ready: set<Loc>, mem: set<Loc>, refs: map<Ptr, nat>, store: map<Ptr, Val>,
    ptr: map<Loc, Ref>, count: map<Loc, nat>, flags: map<Loc, Flags>, sema: map<Loc, nat>,
    box: map<Loc, int>,
    call: map<Loc, Call>,
    fault: bool)

  function Rest(k: Lock): seq<Action> { if k.Held? then k.rest else [] }

  function Sends(k: Lock): seq<Loc> { if k.Held? then k.sends else [] }

  /** A fresh protocol whose cells are all uninitialized: they start ready and empty. */
  function Init(c: Config): State {
    State(Free, set m | m in c.kind && c.kind[m] == Memo, {}, map[], map[], map[], map[], map[], map[], map[], map[],
      false)
  }

  function Lookup<T>(m: map<Loc, T>, l: Loc): Option<T> { if l in m then Some(m[l]) else None }

  function At<T>(m: map<Loc, T>, l: Loc, default: T): T { if l in m then m[l] else default }

  /** The datum a putter's pointer leads to; nothing if it is null, freed, or on the stack of a call that has
      read its message. */
  function Deref(s: State, p: Loc): Option<Val> {
    if p !in s.ptr then None
    else match s.ptr[p]
      case Slot(x) => if x in s.store then Some(s.store[x]) else None
      case Stack => if p in s.call && s.call[p].Put? && !s.call[p].phase.Sent? then Some(s.call[p].datum) else None
  }

  /** The getter asked for data, not just for the signal. */
  predicate Wants(s: State, g: Loc) { g in s.call && s.call[g].Get? && s.call[g].wants }

  /** Of a port putter's `Copy` datum at most one getter takes data, since the first copy removes the pointer. A datum
      that is not `Copy` has one getter, or getters that only take the signal. */
  predicate TakersOk(c: Config, s: State, a: Action) {
    if c.isCopy then IsPoPu(c, a.putter) ==> forall g, h :: g in a.pg && h in a.pg && Wants(s, g) && Wants(s, h) ==>
      g == h
    else |a.pg| <= 1 || forall g <- a.pg :: !Wants(s, g)
  }

  /** Once its memory getters are filled, the putter's slot has no other holder. */
  predicate Exclusive(c: Config, s: State, a: Action) {
    IsMemo(c, a.putter) ==>
      a.mg == [] && a.putter in s.ptr && s.ptr[a.putter].Slot? && At(s.refs, s.ptr[a.putter].at, 0) == 1
  }

  /** A port's datum that goes to cells and to port getters is cloned into the cells' slot. */
  predicate Clonable(c: Config, a: Action) { !IsMemo(c, a.putter) && a.mg != [] && a.pg != [] ==> c.isClone }

  /** The firings that the code serves rightly. */
  predicate InScope(c: Config, s: State, a: Action) {
    TakersOk(c, s, a) && (!c.isCopy && a.pg != [] ==> Exclusive(c, s, a)) && Clonable(c, a)
  }

  predicate RuleEnabled(s: State, r: Rule) {
    && (forall l <- r.guardReady :: l in s.ready && (l in s.mem <==> l in r.guardFull))
    && r.guard(s.mem)
  }

  predicate HoldsLock(s: State, l: Loc) { s.lock.Held? && s.lock.holder == l }

  // ---------------------------------------------------------------- effects of a firing

  /** The pointer is null, its reference count missing or zero, the slot not owned, or the cell ready already. */
  predicate CannotEmpty(s: State, m: Loc) {
    || m !in s.ptr || !s.ptr[m].Slot? || s.ptr[m].at !in s.refs || s.refs[s.ptr[m].at] == 0
    || (s.refs[s.ptr[m].at] == 1 && s.ptr[m].at !in s.store) || m in s.ready
  }

  /** A cell gives up its reference; the last reference frees the slot. The cell is ready again. */
  function MakeEmpty(s: State, m: Loc): State {
    if CannotEmpty(s, m) then s.(fault := true)
    else
      var x := s.ptr[m].at;
      if s.refs[x] == 1 then
        s.(ptr := s.ptr - {m}, refs := s.refs - {x}, store := s.store - {x}, ready := s.ready + {m})
      else
        s.(ptr := s.ptr - {m}, refs := s.refs[x := s.refs[x] - 1], ready := s.ready + {m})
  }

  function Send(s: State, to: Loc, msg: int): State {
    if to in s.box then s.(fault := true) else s.(box := s.box[to := msg])
  }

  /** Point all of `cells` at slot `x` and make them ready. */
  function Fill(s: State, cells: seq<Loc>, x: Ptr): State {
    if exists m <- cells :: m in s.ptr then s.(fault := true)
    else s.(ptr := s.ptr + (map m | m in cells :: Slot(x)), ready := s.ready + SetOf(cells))
  }

  /** Assign the rule's memory bits and take away its readiness; its actions are still to be performed. */
  function DoSelect(s: State, r: Rule): State
    requires s.lock.Held?
  {
    s.(mem := s.mem - r.assignMask + r.assignVals, ready := s.ready - r.guardReady, lock := s.lock.(rest := r.actions))
  }

  /** First half of an action: fill the memory getters. A memory putter shares its slot with them; a port
      putter's datum is moved into the fresh slot `slot`, or cloned if port getters are to have it too. */
  function FillGetters(c: Config, s: State, a: Action, slot: Ptr): State {
    if IsMemo(c, a.putter) then
      if a.putter !in s.ptr || !s.ptr[a.putter].Slot? || s.ptr[a.putter].at !in s.refs
        || s.refs[s.ptr[a.putter].at] == 0
      then s.(fault := true)
      else
        var x := s.ptr[a.putter].at;
        var s1 := Fill(s, a.mg, x);
        s1.(refs := s1.refs[x := s.refs[x] + |a.mg|])
    else if a.mg == [] then s
    else if Deref(s, a.putter).None? || slot in s.refs || !Clonable(c, a) then s.(fault := true)
    else
      var s1 := Fill(s, a.mg, slot);
      s1.(store := s1.store[slot := Deref(s, a.putter).value], refs := s1.refs[slot := |a.mg|])
  }

  /** `disable_move`: set for a memory putter whose slot has other holders. */
  predicate DisableMove(c: Config, s: State, p: Loc) {
    IsMemo(c, p) && p in s.ptr && s.ptr[p].Slot? && At(s.refs, s.ptr[p].at, 0) != 1
  }

  /** Second half of an action: with no port getter the putter is finished at once, otherwise the countdown and
      the flags are set and the messages queued. */
  function Dispatch(c: Config, s: State, a: Action): State {
    if a.pg == [] then
      if IsMemo(c, a.putter) then MakeEmpty(s, a.putter)
      else Send(s, a.putter, if a.mg == [] then 0 else 1)
    else
      s.(count := s.count[a.putter := |a.pg|],
         flags := s.flags[a.putter := Flags(false, !DisableMove(c, s, a.putter))])
  }

  /** What the lock holder is left with after an action: its messages, then the other actions. */
  function Dispatched(s: State, a: Action, k: Lock): State
    requires k.Held? && k.rest != []
  {
    s.(lock := k.(src := a.putter, sends := a.pg, rest := k.rest[1..]))
  }

  // ---------------------------------------------------------------- steps

  datatype Step =
    | BeginPut(p: Loc, v: Val, timed: bool)
    | EnterPut(p: Loc)
    | EnterGet(g: Loc, wants: bool, timed: bool)
    | Select(i: nat)
    | Perform(slot: Ptr)
    | SendNext
    | Release
    | TimeOut(l: Loc)
    | Revoke(l: Loc)
    | Recv(l: Loc)
    | Work(g: Loc)
    | Finalize(g: Loc)
    | Return(l: Loc)

  predicate InCall(s: State, l: Loc) { l in s.call && !HoldsLock(s, l) }

  predicate Enabled(c: Config, s: State, step: Step) {
    match step
    case BeginPut(p, _, _) => IsPoPu(c, p) && p !in s.call
    case EnterPut(p) => s.lock.Free? && p in s.call && s.call[p].phase.Starting?
    case EnterGet(g, _, _) => s.lock.Free? && IsPoGe(c, g) && g !in s.call
    case Select(i) =>
      && s.lock.Held? && s.lock.sends == [] && s.lock.rest == []
      && i < |c.rules| && RuleEnabled(s, c.rules[i])
      && forall j :: 0 <= j < i ==> !RuleEnabled(s, c.rules[j])
    case Perform(slot) => s.lock.Held? && s.lock.sends == [] && s.lock.rest != [] && slot !in s.store
    case SendNext => s.lock.Held? && s.lock.sends != []
    case Release =>
      && s.lock.Held? && s.lock.sends == [] && s.lock.rest == []
      && forall j :: 0 <= j < |c.rules| ==> !RuleEnabled(s, c.rules[j])
    case TimeOut(l) => InCall(s, l) && s.call[l].timed && s.call[l].phase.Waiting? && l !in s.box
    case Revoke(l) => s.lock.Free? && l in s.call && s.call[l].phase.Revoking?
    case Recv(l) => InCall(s, l) && (s.call[l].phase.Waiting? || s.call[l].phase.Late?) && l in s.box
    case Work(g) => InCall(s, g) && s.call[g].Get? && Working(s, g)
    case Finalize(g) =>
      && InCall(s, g) && s.call[g].Get? && s.call[g].phase.Finalizing?
      && (IsMemo(c, s.call[g].phase.src) ==> s.lock.Free?)
    case Return(l) => InCall(s, l) && (s.call[l].phase.Sent? || s.call[l].phase.Served?)
  }

  /** The getter has a lock-free operation to run; a parked getter waits for the semaphore. */
  predicate Working(s: State, g: Loc)
    requires g in s.call
  {
    var ph := s.call[g].phase;
    || ph.Mark? || ph.Copying? || ph.Leaving? || ph.Reading? || ph.Asking? || ph.WonLeaving? || ph.Moving?
    || ph.Cloning? || ph.LostLeaving? || ph.SignalLeaving? || ph.AskingLast?
    || (ph.Parked? && At(s.sema, ph.src, 0) > 0)
  }

  function WithPhase(call: Call, ph: Phase): Call { call.(phase := ph) }

  function SetPhase(s: State, l: Loc, ph: Phase): State
    requires l in s.call
  {
    s.(call := s.call[l := WithPhase(s.call[l], ph)])
  }

  function AfterMessage(c: Config, wants: bool, src: Loc): Phase {
    if c.isCopy then (if wants then Mark(src) else Leaving(src))
    else if wants then Asking(src) else SignalLeaving(src)
  }

  /** The getter copies the datum out. A port putter's pointer is taken, a cell's is only read. */
  function CopyOut(c: Config, s: State, g: Loc, src: Loc, take: bool, next: Phase): State
    requires g in s.call && s.call[g].Get?
  {
    if Deref(s, src).None? then s.(fault := true)
    else s.(call := s.call[g := s.call[g].(out := Some(Deref(s, src).value), phase := next)],
            ptr := if take && IsPoPu(c, src) then s.ptr - {src} else s.ptr)
  }

  /** `cloner_countdown.fetch_sub(1)`; the last one out goes on as `last`. */
  function Leave(s: State, g: Loc, src: Loc, last: Phase, other: Phase): State
    requires g in s.call
  {
    if At(s.count, src, 0) == 0 then s.(fault := true)
    else SetPhase(s.(count := s.count[src := s.count[src] - 1]), g, if s.count[src] == 1 then last else other)
  }

  function ReleaseSema(s: State, src: Loc): State { s.(sema := s.sema[src := At(s.sema, src, 0) + 1]) }

  /** `ask_for_move_permission` is true iff no flag was set before. */
  function SetMoved(s: State, src: Loc): State {
    s.(flags := s.flags[src := Flags(true, At(s.flags, src, Flags(false, false)).disabled)])
  }

  function DoWork(c: Config, s: State, g: Loc): State
    requires g in s.call && s.call[g].Get? && Working(s, g)
  {
    var src := s.call[g].phase.src;
    var fl := At(s.flags, src, Flags(false, false));
    var asked := fl == Flags(false, false);
    match s.call[g].phase
    case Mark(_) => SetPhase(s.(flags := s.flags[src := Flags(true, false)]), g, Copying(src))
    case Copying(_) => CopyOut(c, s, g, src, true, Leaving(src))
    case Leaving(_) => Leave(s, g, src, Reading(src), Served)
    case Reading(_) => SetPhase(s, g, Finalizing(src, fl.moved && !fl.disabled))
    case Asking(_) => SetPhase(SetMoved(s, src), g, if asked then Cloning(src) else WonLeaving(src))
    case WonLeaving(_) => Leave(s, g, src, Moving(src), Parked(src))
    case Moving(_) => CopyOut(c, s, g, src, true, Finalizing(src, true))
    case Parked(_) => SetPhase(s.(sema := s.sema[src := s.sema[src] - 1]), g, Finalizing(src, true))
    case Cloning(_) => if c.isClone then CopyOut(c, s, g, src, false, LostLeaving(src)) else s.(fault := true)
    case LostLeaving(_) =>
      var s1 := Leave(s, g, src, Served, Served);
      if At(s.count, src, 0) == 1 then ReleaseSema(s1, src) else s1
    case SignalLeaving(_) => Leave(s, g, src, AskingLast(src), Served)
    case AskingLast(_) =>
      if asked then ReleaseSema(SetPhase(SetMoved(s, src), g, Served), src)
      else SetPhase(SetMoved(s, src), g, Finalizing(src, false))
  }

  /** After a timeout: take readiness back and give up, unless a rule has consumed it. */
  function DoRevoke(s: State, l: Loc): State
    requires l in s.call
  {
    if l in s.ready then s.(ready := s.ready - {l}, call := s.call - {l}) else SetPhase(s, l, Late)
  }

  /** Where a message leads; a putter expects 0 or 1, a getter the name of a putter. */
  function RecvPhase(c: Config, call: Call, msg: int): Option<Phase> {
    if call.Put? then (if msg == 0 || msg == 1 then Some(Sent(msg == 1)) else None)
    else if IsPoPu(c, msg) || IsMemo(c, msg) then Some(AfterMessage(c, call.wants, msg))
    else None
  }

  function DoRecv(c: Config, s: State, l: Loc): State
    requires l in s.call && l in s.box
  {
    var s1 := s.(box := s.box - {l});
    match RecvPhase(c, s.call[l], s.box[l])
    case Some(ph) => SetPhase(s1, l, ph)
    case None => s1.(fault := true)
  }

  function DoFinalize(c: Config, s: State, g: Loc): State
    requires g in s.call && s.call[g].phase.Finalizing?
  {
    var src := s.call[g].phase.src;
    if IsMemo(c, src) then MakeEmpty(SetPhase(s, g, Served), src).(lock := Held(g, 0, [], []))
    else Send(SetPhase(s, g, Served), src, if s.call[g].phase.someoneMoved then 1 else 0)
  }

  function Do(c: Config, s: State, step: Step): State
    requires Enabled(c, s, step)
  {
    match step
    case BeginPut(p, v, timed) => s.(call := s.call[p := Put(v, timed, Starting)], ptr := s.ptr[p := Stack])
    case EnterPut(p) => SetPhase(s, p, Waiting).(ready := s.ready + {p}, lock := Held(p, 0, [], []))
    case EnterGet(g, wants, timed) =>
      s.(call := s.call[g := Get(wants, timed, None, Waiting)], ready := s.ready + {g}, lock := Held(g, 0, [], []))
    case Select(i) => DoSelect(s, c.rules[i])
    case Perform(slot) =>
      var a := s.lock.rest[0];
      Dispatched(Dispatch(c, FillGetters(c, s, a, slot), a), a, s.lock)
    case SendNext => Send(s, s.lock.sends[0], s.lock.src).(lock := s.lock.(sends := s.lock.sends[1..]))
    case Release => s.(lock := Free)
    case TimeOut(l) => SetPhase(s, l, Revoking)
    case Revoke(l) => DoRevoke(s, l)
    case Recv(l) => DoRecv(c, s, l)
    case Work(g) => DoWork(c, s, g)
    case Finalize(g) => DoFinalize(c, s, g)
    case Return(l) => s.(call := s.call - {l})
  }

  /** A finite run of the protocol: the steps taken, in order. */
  predicate ValidRun(c: Config, s: State, steps: seq<Step>)
    decreases |steps|
  {
    steps == [] || (Enabled(c, s, steps[0]) && ValidRun(c, Do(c, s, steps[0]), steps[1..]))
  }

  function Run(c: Config, s: State, steps: seq<Step>): State
    requires ValidRun(c, s, steps)
    decreases |steps|
  {
    if steps == [] then s else Run(c, Do(c, s, steps[0]), steps[1..])
  }

  /** The lock holder performs no action out of scope. */
  predicate Scoped(c: Config, s: State, step: Step) {
    step.Perform? && s.lock.Held? && s.lock.rest != [] ==> InScope(c, s, s.lock.rest[0])
  }

  predicate ScopedRun(c: Config, s: State, steps: seq<Step>)
    requires ValidRun(c, s, steps)
    decreases |steps|
  {
    steps == [] || (Scoped(c, s, steps[0]) && ScopedRun(c, Do(c, s, steps[0]), steps[1..]))
  }
}
