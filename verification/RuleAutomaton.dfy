/** The atomic rule automaton a protocol stands for: firing a rule hands every putter's value to all its getters
    at once. It knows no threads, locks, pointers, flags or countdowns. */
module RuleAutomaton {
  import opened Wrappers
  import opened Protocol

  /** What a port is doing: offering a value or waiting for one, or done and about to return. */
  datatype APort = Offer(v: Val) | Want(wants: bool) | Released(moved: bool) | Given(out: Option<Val>)

  /** The ports in a call, and the full cells with their values. */
  datatype AState = AState(port: map<Loc, APort>, cell: map<Loc, Val>)

  function AInit(): AState { AState(map[], map[]) }

  datatype Event =
    | DidPut(p: Loc, v: Val)
    | DidGet(g: Loc, wants: bool)
    | Fired(i: nat)
    | TimedOut(l: Loc)
    | PutReturned(p: Loc, moved: bool)
    | GetReturned(g: Loc, out: Option<Val>)

  predicate AWaiting(c: Config, a: AState, l: Loc) {
    l in a.port && (if IsPoPu(c, l) then a.port[l].Offer? else a.port[l].Want?)
  }

  /** All ports of the rule wait, its memory putters are full, its memory getters empty, its guard holds. */
  predicate AEnabled(c: Config, a: AState, r: Rule) {
    && (forall l <- Putters(r.actions) :: if IsMemo(c, l) then l in a.cell else AWaiting(c, a, l))
    && (forall l <- Getters(r.actions) :: if IsMemo(c, l) then l !in a.cell else AWaiting(c, a, l))
    && r.guard(a.cell.Keys)
  }

  function Feeder(acts: seq<Action>, l: Loc): Option<Action> {
    if acts == [] then None
    else if l in Touched(acts[0]) then Some(acts[0])
    else Feeder(acts[1..], l)
  }

  /** The value a putter holds. */
  function SourceValue(c: Config, a: AState, p: Loc): Val {
    if IsMemo(c, p) && p in a.cell then a.cell[p]
    else if p in a.port && a.port[p].Offer? then a.port[p].v
    else 0
  }

  predicate Taking(a: AState, g: Loc) { g in a.port && a.port[g] == Want(true) }

  /** The datum leaves its putter iff a port getter takes it or, with no port getter, a cell does. */
  predicate MovedBy(a: AState, act: Action) {
    if act.pg == [] then act.mg != [] else exists g <- act.pg :: Taking(a, g)
  }

  function FiredPort(c: Config, a: AState, acts: seq<Action>, l: Loc): APort
    requires l in a.port
  {
    match Feeder(acts, l)
    case None => a.port[l]
    case Some(act) =>
      if l == act.putter then Released(MovedBy(a, act))
      else Given(if Taking(a, l) then Some(SourceValue(c, a, act.putter)) else None)
  }

  function FiredCell(c: Config, a: AState, acts: seq<Action>, m: Loc): Val
    requires m in a.cell || m in Getters(acts)
  {
    match Feeder(acts, m)
    case Some(act) => if m in Getters(acts) then SourceValue(c, a, act.putter) else if m in a.cell then a.cell[m] else 0
    case None => if m in a.cell then a.cell[m] else 0
  }

  /** Every location gets its new content from the state before the firing. */
  function AFire(c: Config, a: AState, r: Rule): AState {
    AState(map l | l in a.port :: FiredPort(c, a, r.actions, l),
           map m | m in a.cell.Keys - Memos(c, Putters(r.actions)) + Memos(c, Getters(r.actions)) ::
             FiredCell(c, a, r.actions, m))
  }

  predicate ACan(c: Config, a: AState, ev: Event) {
    match ev
    case DidPut(p, _) => IsPoPu(c, p) && p !in a.port
    case DidGet(g, _) => IsPoGe(c, g) && g !in a.port
    case Fired(i) => i < |c.rules| && AEnabled(c, a, c.rules[i])
    case TimedOut(l) => AWaiting(c, a, l)
    case PutReturned(p, moved) => p in a.port && a.port[p] == Released(moved)
    case GetReturned(g, out) => g in a.port && a.port[g] == Given(out)
  }

  function ADo(c: Config, a: AState, ev: Event): AState
    requires ACan(c, a, ev)
  {
    match ev
    case DidPut(p, v) => a.(port := a.port[p := Offer(v)])
    case DidGet(g, wants) => a.(port := a.port[g := Want(wants)])
    case Fired(i) => AFire(c, a, c.rules[i])
    case TimedOut(l) => a.(port := a.port - {l})
    case PutReturned(p, _) => a.(port := a.port - {p})
    case GetReturned(g, _) => a.(port := a.port - {g})
  }

  /** The automaton accepts a sequence of events. */
  predicate Accepts(c: Config, a: AState, evs: seq<Event>)
    decreases |evs|
  {
    evs == [] || (ACan(c, a, evs[0]) && Accepts(c, ADo(c, a, evs[0]), evs[1..]))
  }

  function ARun(c: Config, a: AState, evs: seq<Event>): AState
    requires Accepts(c, a, evs)
    decreases |evs|
  {
    if evs == [] then a else ARun(c, ADo(c, a, evs[0]), evs[1..])
  }
}
