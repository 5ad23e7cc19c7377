/** A put and a get that meet at two barriers (graveyard2/reo.rs): in between, the getter may use the pointer to the
    datum on the putter's stack. The barrier is a channel without capacity, so a signal is sent and received in one
    step. A wrong signal or a stale pointer raises `fault`. */
module Rendezvous {
  import opened Wrappers

  type Val = int

  /** What the getter believes the putter is doing. */
  datatype PutterState = StateA | StateBUnpeeked | StateBPeeked

  datatype Signal = AToB | BToAGot | BToAThaw

  /** The putter: outside a call, waiting at the first or second barrier of call `id`, or dropped. */
  datatype Putter = Out | First(id: nat, timed: bool) | Second(id: nat, timed: bool) | PutterGone

  /** The getter: outside a call, blocked at the first barrier in `get` or a peek, past it and about to use the pointer,
      about to send the second signal, or dropped. */
  datatype Getter =
    | Resting
    | Meeting(peek: bool, timed: bool)
    | Fetching | Peeking
    | Handing(datum: Val) | Thawing
    | GetterGone

  /** `puts[id]` is the datum of call `id`; `received` and `returned` are the calls whose datum a get has returned, and
      whose put has given it back. */
  datatype State = State(putter: Putter, getter: Getter, believed: PutterState, shared: Option<nat>,
                         puts: seq<Val>, received: seq<(nat, Val)>, returned: seq<(nat, Val)>, fault: bool)

  function Init(): State { State(Out, Resting, StateA, None, [], [], [], false) }

  datatype Step =
    | Put(v: Val, timed: bool) | PutTimeOut | PutPeerGone | DropPutter
    | Get | Peek(timed: bool) | Meet | MeetFails | TryPeek(met: bool) | Fetch | UsePeek | Hand
    | Freeze(met: bool) | Thaw | SendThaw(late: bool)
    | DropGetter

  predicate Waiting(p: Putter) { p.First? || p.Second? }

  predicate Enabled(s: State, step: Step) {
    match step
    case Put(_, _) => s.putter.Out?
    case PutTimeOut => s.putter.First? && s.putter.timed
    case PutPeerGone => Waiting(s.putter) && s.getter.GetterGone?
    case DropPutter => s.putter.Out?
    case Get => s.getter.Resting?
    case Peek(_) => s.getter.Resting?
    case Meet => s.getter.Meeting? && Waiting(s.putter)
    case MeetFails => s.getter.Meeting? && (s.putter.PutterGone? || s.getter.timed)
    case TryPeek(met) => s.getter.Resting? && (met && s.believed.StateA? ==> Waiting(s.putter))
    case Fetch => s.getter.Fetching?
    case UsePeek => s.getter.Peeking?
    case Hand => s.getter.Handing? && !s.putter.Out?
    case Freeze(met) => s.getter.Resting? && (met && s.believed.StateA? ==> Waiting(s.putter))
    case Thaw => s.getter.Resting? && s.believed.StateBUnpeeked?
    case SendThaw(late) => s.getter.Thawing? && !s.putter.Out? && (late ==> s.putter.Second? && s.putter.timed)
    case DropGetter => s.getter.Resting?
  }

  /** The putter receives a signal at the barrier it waits at. A late thaw ends a timed put. */
  function Receive(s: State, signal: Signal, late: bool): State
    requires Waiting(s.putter)
  {
    var p := s.putter;
    match signal
    case AToB => if p.First? then s.(putter := Second(p.id, p.timed)) else s.(fault := true)
    case BToAGot => if p.Second? then s.(putter := Out) else s.(fault := true)
    case BToAThaw =>
      if !p.Second? then s.(fault := true)
      else if late then GiveBack(s)
      else s.(putter := First(p.id, p.timed))
  }

  /** The put returns its datum to the caller. */
  function GiveBack(s: State): State
    requires Waiting(s.putter)
  {
    if s.putter.id < |s.puts| then s.(putter := Out, returned := s.returned + [(s.putter.id, s.puts[s.putter.id])])
    else s.(fault := true)
  }

  /** The datum the shared pointer leads to: that of the put call which set it, while that call lasts. */
  function Deref(s: State): Option<Val> {
    if Waiting(s.putter) && s.shared == Some(s.putter.id) && s.putter.id < |s.puts| then Some(s.puts[s.putter.id])
      else None
  }

  function Do(s: State, step: Step): State
    requires Enabled(s, step)
  {
    match step
    case Put(v, timed) => s.(putter := First(|s.puts|, timed), shared := Some(|s.puts|), puts := s.puts + [v])
    case PutTimeOut => GiveBack(s)
    case PutPeerGone => GiveBack(s)
    case DropPutter => s.(putter := PutterGone)
    case Get => s.(getter := if s.believed.StateA? then Meeting(false, false) else Fetching)
    case Peek(timed) => if s.believed.StateA? then s.(getter := Meeting(true, timed))
      else s.(believed := StateBPeeked, getter := Peeking)
    case Meet =>
      var s1 := Receive(s, AToB, false);
      if s.getter.peek then s1.(believed := StateBPeeked, getter := Peeking) else s1.(getter := Fetching)
    case MeetFails => s.(getter := Resting)
    case TryPeek(met) =>
      if !s.believed.StateA? then s.(believed := StateBPeeked, getter := Peeking)
      else if met then Receive(s, AToB, false).(believed := StateBPeeked, getter := Peeking)
      else s
    case Fetch => if Deref(s).Some? then s.(getter := Handing(Deref(s).value)) else s.(fault := true)
    case UsePeek => if Deref(s).Some? then s.(getter := Resting) else s.(fault := true)
    case Hand =>
      if Waiting(s.putter) then
        var s1 := Receive(s, BToAGot, false);
        s1.(getter := Resting, believed := StateA, received := s.received + [(s.putter.id, s.getter.datum)])
      else s.(getter := Resting, believed := StateA, received := s.received + [(|s.puts|, s.getter.datum)])
    case Freeze(met) => if s.believed.StateA? && met then Receive(s, AToB, false).(believed := StateBUnpeeked) else s
    case Thaw => s.(getter := Thawing)
    case SendThaw(late) =>
      if Waiting(s.putter) then Receive(s, BToAThaw, late).(getter := Resting, believed := StateA)
      else s.(getter := Resting, believed := StateA)
    case DropGetter => s.(getter := GetterGone)
  }

  predicate ValidRun(s: State, steps: seq<Step>)
    decreases |steps|
  {
    steps == [] || (Enabled(s, steps[0]) && ValidRun(Do(s, steps[0]), steps[1..]))
  }

  function Run(s: State, steps: seq<Step>): State
    requires ValidRun(s, steps)
    decreases |steps|
  {
    if steps == [] then s else Run(Do(s, steps[0]), steps[1..])
  }

  // ---------------------------------------------------------------- the barriers

  /** The getter's operation has met the putter's call: it is between the two barriers. */
  predicate Between(s: State) {
    match s.getter
    case Resting => !s.believed.StateA?
    case Meeting(_, _) => false
    case Fetching => true
    case Peeking => true
    case Handing(_) => true
    case Thawing => true
    case GetterGone => s.putter.Second?
  }

  /** Getter and putter agree on which barrier comes next, and the pointer is that of the call in between. */
  predicate Agree(s: State) {
    && !s.fault
    && (s.putter.Second? <==> Between(s))
    && (s.getter.Meeting? ==> s.believed.StateA?)
    && (s.getter.Peeking? ==> s.believed.StateBPeeked?) && (s.getter.Thawing? ==> s.believed.StateBUnpeeked?)
    && (Waiting(s.putter) ==> s.shared == Some(s.putter.id) && s.putter.id == |s.puts| - 1)
    && (s.getter.Handing? ==> Deref(s) == Some(s.getter.datum))
  }

  lemma StepAgrees(s: State, step: Step)
    requires Agree(s) && Enabled(s, step)
    ensures Agree(Do(s, step))
  {
  }

  // ---------------------------------------------------------------- the data

  predicate Ascending(ds: seq<(nat, Val)>) { forall i, j :: 0 <= i < j < |ds| ==> ds[i].0 < ds[j].0 }

  /** Calls that are over, with the data they put. */
  predicate Over(s: State, ds: seq<(nat, Val)>) {
    && Ascending(ds)
    && forall i :: 0 <= i < |ds| ==>
          ds[i].0 < |s.puts| && ds[i].1 == s.puts[ds[i].0] && !(Waiting(s.putter) && s.putter.id == ds[i].0)
  }

  predicate Has(ds: seq<(nat, Val)>, id: nat) { exists i :: 0 <= i < |ds| && ds[i].0 == id }

  /** Every datum put is with its put, with exactly one get, or has been given back, once. */
  ghost predicate Accounted(s: State) {
    && Over(s, s.received) && Over(s, s.returned)
    && (forall id: nat :: !(Has(s.received, id) && Has(s.returned, id)))
    && (forall id: nat :: id < |s.puts| ==>
          Has(s.received, id) || Has(s.returned, id) || (Waiting(s.putter) && s.putter.id == id))
  }

  lemma Appended(ds: seq<(nat, Val)>, d: (nat, Val))
    ensures forall id: nat :: Has(ds + [d], id) <==> Has(ds, id) || id == d.0
  {
    forall id: nat ensures Has(ds + [d], id) <==> Has(ds, id) || id == d.0 {
      if Has(ds, id) {
        var i :| 0 <= i < |ds| && ds[i].0 == id;
        assert (ds + [d])[i].0 == id;
      }
      assert (ds + [d])[|ds|].0 == d.0;
    }
  }

  lemma NotOver(s: State, ds: seq<(nat, Val)>)
    requires Over(s, ds) && Waiting(s.putter)
    ensures !Has(ds, s.putter.id)
  {
  }

  /** Calls that are over stay over: a new call has a new number. */
  lemma OverSame(s: State, s': State, ds: seq<(nat, Val)>)
    requires Over(s, ds) && s.puts <= s'.puts
    requires Waiting(s'.putter) ==> (Waiting(s.putter) && s'.putter.id == s.putter.id) || s'.putter.id >= |s.puts|
    ensures Over(s', ds)
  {
  }

  lemma OverMore(s: State, s': State, ds: seq<(nat, Val)>)
    requires Agree(s) && Over(s, ds) && Waiting(s.putter) && s'.puts == s.puts && !Waiting(s'.putter)
    ensures s.putter.id < |s.puts| && Over(s', ds + [(s.putter.id, s.puts[s.putter.id])])
  {
  }

  /** What a step does to the calls that are over. */
  lemma StepMoves(s: State, step: Step)
    requires Agree(s) && Enabled(s, step)
    ensures var s' := Do(s, step);
            && s.puts <= s'.puts && |s'.puts| <= |s.puts| + 1
            && (s'.puts != s.puts ==>
                  !Waiting(s.putter) && Waiting(s'.putter) && s'.putter.id == |s.puts| && s'.received == s.received
                    && s'.returned == s.returned)
            && (Waiting(s'.putter) && s'.puts == s.puts ==>
                  Waiting(s.putter) && s'.putter.id == s.putter.id && s'.received == s.received
                    && s'.returned == s.returned)
            && (Waiting(s.putter) && !Waiting(s'.putter) ==>
                 && s.putter.id == |s.puts| - 1
                 && (if step.Hand? then
                       s'.received == s.received + [(s.putter.id, s.puts[s.putter.id])] && s'.returned == s.returned
                     else
                       s'.received == s.received && s'.returned == s.returned + [(s.putter.id, s.puts[s.putter.id])]))
            && (!Waiting(s.putter) ==> s'.received == s.received && s'.returned == s.returned)
  {
  }

  lemma StepAccounted(s: State, step: Step)
    requires Agree(s) && Accounted(s) && Enabled(s, step)
    ensures Accounted(Do(s, step))
  {
    hide Has, Over, Do, Enabled;
    var s' := Do(s, step);
    StepMoves(s, step);
    if Waiting(s.putter) && !Waiting(s'.putter) {
      var d := (s.putter.id, s.puts[s.putter.id]);
      NotOver(s, s.received);
      NotOver(s, s.returned);
      Appended(s.received, d);
      Appended(s.returned, d);
      OverSame(s, s', s.received);
      OverSame(s, s', s.returned);
      OverMore(s, s', s.received);
      OverMore(s, s', s.returned);
    } else {
      OverSame(s, s', s.received);
      OverSame(s, s', s.returned);
    }
  }

  /** In every run: no wrong signal, no stale pointer, and every datum in exactly one place. */
  lemma {:induction false} RunSafe(s: State, steps: seq<Step>)
    requires Agree(s) && Accounted(s) && ValidRun(s, steps)
    ensures Agree(Run(s, steps)) && Accounted(Run(s, steps)) && !Run(s, steps).fault
    decreases |steps|
  {
    hide Accounted;
    if steps != [] {
      StepAgrees(s, steps[0]);
      StepAccounted(s, steps[0]);
      RunSafe(Do(s, steps[0]), steps[1..]);
    }
  }

  lemma Safe(steps: seq<Step>)
    requires ValidRun(Init(), steps)
    ensures Agree(Run(Init(), steps)) && Accounted(Run(Init(), steps)) && !Run(Init(), steps).fault
  {
    RunSafe(Init(), steps);
  }

  /** A put is told that its datum was taken exactly when a get receives it. */
  lemma TakenIffReceived(s: State, step: Step)
    requires Agree(s) && Accounted(s) && Enabled(s, step) && Waiting(s.putter) && Do(s, step).putter.Out?
    ensures var s', id := Do(s, step), s.putter.id;
            && (step.Hand? <==> Has(s'.received, id))
            && (!step.Hand? <==> Has(s'.returned, id))
            && (step.Hand? ==> s'.received == s.received + [(id, s.puts[id])])
  {
    var d := (s.putter.id, s.puts[s.putter.id]);
    NotOver(s, s.received);
    NotOver(s, s.returned);
    Appended(s.received, d);
    Appended(s.returned, d);
  }

  // ---------------------------------------------------------------- calls and what becomes of them

  /** The data put, in order. */
  function Values(steps: seq<Step>): seq<Val>
    decreases |steps|
  {
    if steps == [] then []
    else if steps[0].Put? then [steps[0].v] + Values(steps[1..])
    else Values(steps[1..])
  }

  /** The latest put. */
  function LastPut(steps: seq<Step>): Option<Step>
    decreases |steps|
  {
    if steps == [] then None
    else
      var last := steps[|steps| - 1];
      if last.Put? then Some(last) else LastPut(steps[..|steps| - 1])
  }

  /** The latest get, or the latest peek. */
  function LastGet(steps: seq<Step>): Option<Step>
    decreases |steps|
  {
    if steps == [] then None
    else
      var last := steps[|steps| - 1];
      if last.Get? || last.Peek? then Some(last) else LastGet(steps[..|steps| - 1])
  }

  lemma {:induction false} RunParts(s: State, steps: seq<Step>, k: nat)
    requires ValidRun(s, steps) && k <= |steps|
    ensures ValidRun(s, steps[..k]) && ValidRun(Run(s, steps[..k]), steps[k..])
    ensures Run(s, steps) == Run(Run(s, steps[..k]), steps[k..])
    decreases |steps|
  {
    if k > 0 {
      RunParts(Do(s, steps[0]), steps[1..], k - 1);
      assert steps[..k][1..] == steps[1..][..k - 1] && steps[k..] == steps[1..][k - 1..];
    } else {
      assert steps[..0] == [] && steps[0..] == steps;
    }
  }

  lemma {:induction false} PutsAre(s: State, steps: seq<Step>)
    requires ValidRun(s, steps)
    ensures Run(s, steps).puts == s.puts + Values(steps)
    decreases |steps|
  {
    if steps != [] {
      PutsAre(Do(s, steps[0]), steps[1..]);
      assert steps[0].Put? ==> Do(s, steps[0]).puts == s.puts + [steps[0].v];
      assert !steps[0].Put? ==> Do(s, steps[0]).puts == s.puts;
    }
  }

  /** In every run each datum a get has received, and each that a put has given back, is the argument of its own put:
      the pairs are of calls in order, and no put has both. */
  lemma OwnDatum(steps: seq<Step>)
    requires ValidRun(Init(), steps)
    ensures var s, vs := Run(Init(), steps), Values(steps);
            && (forall d <- s.received + s.returned :: d.0 < |vs| && d.1 == vs[d.0])
            && (forall i, j :: 0 <= i < j < |s.received| ==> s.received[i].0 < s.received[j].0)
            && (forall i, j :: 0 <= i < j < |s.returned| ==> s.returned[i].0 < s.returned[j].0)
            && (forall i, j :: 0 <= i < |s.received| && 0 <= j < |s.returned| ==> s.received[i].0 != s.returned[j].0)
  {
    Safe(steps);
    PutsAre(Init(), steps);
    var s := Run(Init(), steps);
    forall i, j | 0 <= i < |s.received| && 0 <= j < |s.returned| ensures s.received[i].0 != s.returned[j].0 {
      assert Has(s.received, s.received[i].0) && Has(s.returned, s.returned[j].0);
    }
  }

  /** The state agrees with the calls made. */
  predicate Knows(s: State, steps: seq<Step>) {
    && (Waiting(s.putter) ==>
          LastPut(steps).Some? && LastPut(steps).value.Put? && s.putter.timed == LastPut(steps).value.timed)
    && (s.getter.Meeting? ==> LastGet(steps) == Some(if s.getter.peek then Peek(s.getter.timed) else Get))
    && (s.getter.Meeting? && !s.getter.peek ==> !s.getter.timed)
    && (s.putter.PutterGone? <==> DropPutter in steps) && (s.getter.GetterGone? <==> DropGetter in steps)
  }

  lemma StepKnows(s: State, steps: seq<Step>, step: Step)
    requires Agree(s) && Knows(s, steps) && Enabled(s, step)
    ensures Knows(Do(s, step), steps + [step])
  {
    var steps' := steps + [step];
    assert steps'[..|steps'| - 1] == steps && steps'[|steps'| - 1] == step;
    assert DropPutter in steps' <==> DropPutter in steps || step == DropPutter;
    assert DropGetter in steps' <==> DropGetter in steps || step == DropGetter;
  }

  lemma {:induction false} RunKnows(steps: seq<Step>)
    requires ValidRun(Init(), steps)
    ensures Agree(Run(Init(), steps)) && Knows(Run(Init(), steps), steps)
    decreases |steps|
  {
    hide Agree, Knows, Do, Enabled, Init;
    if steps == [] {
      InitKnows();
    } else {
      var k := |steps| - 1;
      RunParts(Init(), steps, k);
      RunKnows(steps[..k]);
      assert steps[k..][0] == steps[k] && steps[k..][1..] == [] && steps == steps[..k] + [steps[k]];
      StepKnows(Run(Init(), steps[..k]), steps[..k], steps[k]);
      StepAgrees(Run(Init(), steps[..k]), steps[k]);
    }
  }

  lemma InitKnows()
    ensures Agree(Init()) && Knows(Init(), [])
  {
  }

  /** Only a timed put gives up, or one whose getter was dropped; only a timed peek fails, or an operation whose
      putter was dropped. */
  lemma WhoGivesUp(steps: seq<Step>, k: nat)
    requires ValidRun(Init(), steps) && k < |steps|
    ensures steps[k] == PutTimeOut || steps[k] == SendThaw(true) ==>
              LastPut(steps[..k]).Some? && LastPut(steps[..k]).value.Put? && LastPut(steps[..k]).value.timed
    ensures steps[k] == PutPeerGone ==> DropGetter in steps[..k]
    ensures steps[k] == MeetFails ==> DropPutter in steps[..k] || LastGet(steps[..k]) == Some(Peek(true))
  {
    hide Do;
    RunParts(Init(), steps, k);
    RunKnows(steps[..k]);
    assert steps[k..][0] == steps[k];
  }

  /** In every run the getter finds the putter at the barrier it signals to: at the first when it meets it, at the
      second when it ends the meeting. Whenever it uses the shared pointer, the put that set it is the latest and is
      held at its second barrier. */
  lemma RightBarrier(steps: seq<Step>, k: nat)
    requires ValidRun(Init(), steps) && k < |steps|
    ensures ValidRun(Init(), steps[..k])
    ensures var s, step := Run(Init(), steps[..k]), steps[k];
            && (step == Meet ==> s.putter.First?)
            && (step == TryPeek(true) || step == Freeze(true) ==> if s.believed.StateA? then s.putter.First?
                                                                  else s.putter.Second?)
            && (step.Hand? || step.SendThaw? ==> s.putter.Second?)
            && (step.Fetch? || step.UsePeek? ==>
                  s.putter.Second? && s.shared == Some(s.putter.id) && s.putter.id == |Values(steps[..k])| - 1)
  {
    hide Do;
    RunParts(Init(), steps, k);
    RunKnows(steps[..k]);
    PutsAre(Init(), steps[..k]);
    assert steps[k..][0] == steps[k];
  }

  /** Whenever a put waits and the getter is free, a get runs through and receives the datum of that put. */
  lemma GetCompletes(steps: seq<Step>)
    requires ValidRun(Init(), steps)
    requires Waiting(Run(Init(), steps).putter) && Run(Init(), steps).getter.Resting?
    ensures var s, vs := Run(Init(), steps), Values(steps);
            var gets := if s.putter.First? then [Get, Meet, Fetch, Hand] else [Get, Fetch, Hand];
            && vs != [] && ValidRun(s, gets)
            && Run(s, gets).received == s.received + [(|vs| - 1, vs[|vs| - 1])]
            && Run(s, gets).putter.Out? && Run(s, gets).getter.Resting?
  {
    Safe(steps);
    PutsAre(Init(), steps);
    var s := Run(Init(), steps);
    if s.putter.First? {
      FirstGet(s);
    } else {
      SecondGet(s);
    }
  }

  lemma FirstGet(s: State)
    requires Agree(s) && s.putter.First? && s.getter.Resting?
    ensures s.putter.id == |s.puts| - 1 && ValidRun(s, [Get, Meet, Fetch, Hand])
    ensures var s' := Run(s, [Get, Meet, Fetch, Hand]);
            s'.putter.Out? && s'.getter.Resting? && s'.received == s.received + [(s.putter.id, s.puts[s.putter.id])]
  {
    var s1 := Do(s, Get);
    var s2 := Do(s1, Meet);
    SecondFetch(s2);
    assert [Get, Meet, Fetch, Hand][1..] == [Meet, Fetch, Hand] && [Meet, Fetch, Hand][1..] == [Fetch, Hand];
    assert ValidRun(s1, [Meet, Fetch, Hand]) && Run(s1, [Meet, Fetch, Hand]) == Run(s2, [Fetch, Hand]);
  }

  lemma SecondGet(s: State)
    requires Agree(s) && s.putter.Second? && s.getter.Resting?
    ensures s.putter.id == |s.puts| - 1 && ValidRun(s, [Get, Fetch, Hand])
    ensures var s' := Run(s, [Get, Fetch, Hand]);
            s'.putter.Out? && s'.getter.Resting? && s'.received == s.received + [(s.putter.id, s.puts[s.putter.id])]
  {
    SecondFetch(Do(s, Get));
    assert [Get, Fetch, Hand][1..] == [Fetch, Hand];
  }

  lemma SecondFetch(s: State)
    requires Agree(s) && s.putter.Second? && s.getter.Fetching?
    ensures s.putter.id == |s.puts| - 1 && ValidRun(s, [Fetch, Hand])
    ensures var s' := Run(s, [Fetch, Hand]);
            s'.putter.Out? && s'.getter.Resting? && s'.received == s.received + [(s.putter.id, s.puts[s.putter.id])]
  {
    var s1 := Do(s, Fetch);
    assert [Fetch, Hand][1..] == [Hand] && [Hand][1..] == [];
    assert ValidRun(Do(s1, Hand), []) && ValidRun(s1, [Hand]) && Run(s1, [Hand]) == Do(s1, Hand);
  }

  /** A timed put that has not been met can give up and has its datum back. */
  lemma PutGivesUp(steps: seq<Step>)
    requires ValidRun(Init(), steps) && Run(Init(), steps).putter.First?
    ensures var s, vs := Run(Init(), steps), Values(steps);
            LastPut(steps).Some? && LastPut(steps).value.Put? && (LastPut(steps).value.timed ==>
              && vs != [] && Enabled(s, PutTimeOut) && Do(s, PutTimeOut).putter.Out?
              && Do(s, PutTimeOut).returned == s.returned + [(|vs| - 1, vs[|vs| - 1])])
  {
    RunKnows(steps);
    PutsAre(Init(), steps);
  }

  /** Freezing a waiting put and thawing it again changes nothing. */
  lemma FreezeThaw(steps: seq<Step>)
    requires ValidRun(Init(), steps)
    requires Run(Init(), steps).putter.First? && Run(Init(), steps).getter.Resting?
    ensures var s, frozen := Run(Init(), steps), [Freeze(true), Thaw, SendThaw(false)];
            ValidRun(s, frozen) && Run(s, frozen) == s
  {
    Safe(steps);
    var s := Run(Init(), steps);
    var s1 := Do(s, Freeze(true));
    var s2 := Do(s1, Thaw);
    assert Do(s2, SendThaw(false)) == s;
    assert [Freeze(true), Thaw, SendThaw(false)][1..] == [Thaw, SendThaw(false)];
    assert [Thaw, SendThaw(false)][1..] == [SendThaw(false)] && [SendThaw(false)][1..] == [];
    assert ValidRun(s2, [SendThaw(false)]) && Run(s2, [SendThaw(false)]) == s;
    assert ValidRun(s1, [Thaw, SendThaw(false)]) && Run(s1, [Thaw, SendThaw(false)]) == s;
  }

  lemma RunTwo(s: State, a: Step, b: Step)
    ensures ValidRun(s, [a, b]) <==> Enabled(s, a) && Enabled(Do(s, a), b)
    ensures ValidRun(s, [a, b]) ==> Run(s, [a, b]) == Do(Do(s, a), b)
    ensures ValidRun(s, [a]) <==> Enabled(s, a)
    ensures ValidRun(s, [a]) ==> Run(s, [a]) == Do(s, a)
  {
    hide Enabled, Do;
    assert [a, b][1..] == [b] && [b][1..] == [] && [a][1..] == [];
    if Enabled(s, a) {
      assert ValidRun(Do(s, a), [b]) <==> Enabled(Do(s, a), b);
      assert Enabled(Do(s, a), b) ==> Run(Do(s, a), [b]) == Do(Do(s, a), b);
    }
  }

  lemma RunThree(s: State, a: Step, b: Step, c: Step)
    ensures ValidRun(s, [a, b, c]) <==> Enabled(s, a) && ValidRun(Do(s, a), [b, c])
    ensures ValidRun(s, [a, b, c]) ==> Run(s, [a, b, c]) == Run(Do(s, a), [b, c])
  {
    hide Enabled, Do;
    assert [a, b, c][1..] == [b, c];
  }

  /** Whenever a put waits and the getter is free, a peek of either kind runs through. It holds the put at its second
      barrier and leaves the datum with it. */
  lemma PeekCompletes(steps: seq<Step>, timed: bool)
    requires ValidRun(Init(), steps)
    requires Waiting(Run(Init(), steps).putter) && Run(Init(), steps).getter.Resting?
    ensures var s := Run(Init(), steps);
            var peeked := s.(putter := Second(s.putter.id, s.putter.timed), believed := StateBPeeked);
            var peek := if s.putter.First? then [Peek(timed), Meet, UsePeek] else [Peek(timed), UsePeek];
            && ValidRun(s, peek) && Run(s, peek) == peeked
            && ValidRun(s, [TryPeek(true), UsePeek]) && Run(s, [TryPeek(true), UsePeek]) == peeked
  {
    Safe(steps);
    var s := Run(Init(), steps);
    RunThree(s, Peek(timed), Meet, UsePeek);
    RunTwo(Do(s, Peek(timed)), Meet, UsePeek);
    RunTwo(s, Peek(timed), UsePeek);
    RunTwo(s, TryPeek(true), UsePeek);
  }

  /** A free getter that meets no put is as before; freezing what is met already changes nothing. */
  lemma NothingMet(steps: seq<Step>)
    requires ValidRun(Init(), steps) && Run(Init(), steps).getter.Resting?
    ensures var s := Run(Init(), steps);
            if s.putter.Second? then
              forall met :: ValidRun(s, [Freeze(met)]) && Run(s, [Freeze(met)]) == s
            else
              && ValidRun(s, [TryPeek(false)]) && Run(s, [TryPeek(false)]) == s
              && ValidRun(s, [Freeze(false)]) && Run(s, [Freeze(false)]) == s
              && ValidRun(s, [Peek(true), MeetFails]) && Run(s, [Peek(true), MeetFails]) == s
              && (ValidRun(s, [TryPeek(true)]) <==> s.putter.First?)
              && (ValidRun(s, [Freeze(true)]) <==> s.putter.First?)
  {
    Safe(steps);
    var s := Run(Init(), steps);
    RunTwo(s, Freeze(true), Thaw);
    RunTwo(s, Freeze(false), Thaw);
    RunTwo(s, TryPeek(true), UsePeek);
    RunTwo(s, TryPeek(false), UsePeek);
    RunTwo(s, Peek(true), MeetFails);
  }
}
