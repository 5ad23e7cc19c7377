/** Every call of a port gets the one message of the one firing that involves it, or, timed out in time, none. */
module Deliveries {
  import opened Wrappers
  import opened Protocol
  import opened StepEffects
  import opened ProtocolInvariant
  import opened ProtocolFiring
  import opened ProtocolSafety
  import opened RefinementFiring

  predicate IsPort(c: Config, l: Loc) { IsPoPu(c, l) || IsPoGe(c, l) }

  /** The step fires a rule that involves the port. */
  predicate FiresAt(c: Config, step: Step, l: Loc) {
    step.Select? && step.i < |c.rules| && l in c.rules[step.i].guardReady
  }

  /** The step puts a message into the port's dropbox: the lock holder's, or a finalizer's. */
  predicate SendsTo(c: Config, s: State, step: Step, l: Loc) {
    || (step.SendNext? && s.lock.Held? && s.lock.sends != [] && s.lock.sends[0] == l)
    || (step.Perform? && s.lock.Held? && s.lock.rest != [] && s.lock.rest[0].pg == [] && s.lock.rest[0].putter == l
          && !IsMemo(c, l))
    || (step.Finalize? && step.g in s.call && s.call[step.g].phase.Finalizing? && s.call[step.g].phase.src == l
          && !IsMemo(c, l))
  }

  predicate ReceivesAt(step: Step, l: Loc) { step.Recv? && step.l == l }

  /** Firings, messages sent and messages received since the port's call began. */
  datatype Tally = Tally(fired: nat, sent: nat, received: nat)

  function Next(c: Config, s: State, step: Step, l: Loc, t: Tally): Tally {
    if Begins(step, l) then Tally(0, 0, 0)
    else Tally(t.fired + (if FiresAt(c, step, l) then 1 else 0),
               t.sent + (if SendsTo(c, s, step, l) then 1 else 0),
               t.received + (if ReceivesAt(step, l) then 1 else 0))
  }

  function Since(c: Config, s: State, steps: seq<Step>, l: Loc, t: Tally): Tally
    requires ValidRun(c, s, steps)
    decreases |steps|
  {
    if steps == [] then t else Since(c, Do(c, s, steps[0]), steps[1..], l, Next(c, s, steps[0], l, t))
  }

  /** Ready: nothing yet. Fired: one message, sent or to come. Past the message: one of each. */
  predicate Tallied(s: State, l: Loc, t: Tally) {
    l in s.call ==>
      if s.call[l].phase.Starting? || l in s.ready then t == Tally(0, 0, 0)
      else if BeforeMessage(s.call[l].phase) then t == Tally(1, if l in s.box then 1 else 0, 0)
      else t == Tally(1, 1, 1)
  }

  // ---------------------------------------------------------------- steps

  /** What the invariant says of a port's call. */
  lemma PortAt(c: Config, s: State, l: Loc)
    requires Inv(c, s) && IsPort(c, l)
    ensures l in s.ready ==> l in s.call && BeforeMessage(s.call[l].phase) && l !in s.box
    ensures l in s.box ==> l in s.call && BeforeMessage(s.call[l].phase)
    ensures l in s.call && s.call[l].phase.Starting? ==> l !in s.ready
  {
    hide Counts, Slots, Takers, LockOk, Busy, Locations;
    GoodAt(c, s, l);
  }

  lemma SentPort(c: Config, s: State, step: Step, l: Loc)
    requires Inv(c, s) && Enabled(c, s, step) && SendsTo(c, s, step, l)
    ensures IsPort(c, l) && l in s.call && BeforeMessage(s.call[l].phase) && l !in s.box && l !in s.ready
  {
    hide Counts, Slots, Takers, LockOk, Busy, Locations, RuleEnabled;
    match step
    case SendNext =>
      GoodAt(c, s, l);
      SendNextRoles(c, s);
    case Perform(slot) =>
      PutterKind(c, s);
      PerformGood(c, s);
    case Finalize(g) =>
      FinalizeSource(c, s, g);
      FinalizingBusy(c, s, g);
      GoodAt(c, s, l);
  }

  /** What a step does to the port's dropbox, its readiness and its call, when it does not begin one. */
  ghost predicate PortStep(c: Config, s: State, step: Step, l: Loc, s': State) {
    && (SendsTo(c, s, step, l) ==> l in s'.box)
    && (ReceivesAt(step, l) ==> l in s.box && l !in s'.box)
    && (!SendsTo(c, s, step, l) && !ReceivesAt(step, l) ==> (l in s'.box <==> l in s.box))
    && (l in s'.call ==> l in s.call && CallMoves(s.call[l].phase, s'.call[l].phase, ReceivesAt(step, l)))
    && (l in s'.call && l in s.ready ==> (l in s'.ready <==> !FiresAt(c, step, l)))
    && (l in s'.call && l !in s.ready ==> !FiresAt(c, step, l) && (l in s'.ready <==> step.EnterPut? && step.p == l))
    && (l in s.call && l in s'.call && s.call[l].phase.Starting? && !s'.call[l].phase.Starting? ==> l in s'.ready)
  }

  /** A call goes past its message by receiving it, and in no other way. */
  predicate CallMoves(ph: Phase, ph': Phase, receives: bool) {
    if receives then BeforeMessage(ph) && !BeforeMessage(ph') && !ph'.Starting?
    else if ph.Starting? then ph'.Starting? || BeforeMessage(ph')
    else !ph'.Starting? && (BeforeMessage(ph') <==> BeforeMessage(ph))
  }

  lemma PlainPort(c: Config, s: State, step: Step, l: Loc)
    requires Inv(c, s) && IsPort(c, l) && Enabled(c, s, step) && Plain(step) && !Begins(step, l)
    ensures PortStep(c, s, step, l, Do(c, s, step))
  {
    hide Inv, RuleEnabled;
    PortAt(c, s, l);
  }

  lemma SelectPort(c: Config, s: State, i: nat, l: Loc)
    requires Inv(c, s) && IsPort(c, l) && Enabled(c, s, Select(i))
    ensures PortStep(c, s, Select(i), l, Do(c, s, Select(i)))
  {
    hide Inv, DoSelect;
    SelectEffect(s, c.rules[i]);
  }

  lemma SendPort(c: Config, s: State, l: Loc)
    requires Inv(c, s) && IsPort(c, l) && Enabled(c, s, SendNext)
    ensures PortStep(c, s, SendNext, l, Do(c, s, SendNext))
  {
    hide Inv, Send;
    var to := s.lock.sends[0];
    SentPort(c, s, SendNext, to);
    SendLeaves(s, to, s.lock.src);
  }

  lemma PerformPort(c: Config, s: State, slot: Ptr, l: Loc)
    requires Inv(c, s) && IsPort(c, l) && Enabled(c, s, Perform(slot))
    ensures PortStep(c, s, Perform(slot), l, Do(c, s, Perform(slot)))
  {
    hide Inv, FillGetters, Dispatch, Dispatched, Performed;
    var a := s.lock.rest[0];
    PerformTransfers(c, s, slot);
    PerformGood(c, s);
    PutterKind(c, s);
    PerformDoes(c, s, slot);
    if SendsTo(c, s, Perform(slot), l) {
      SentPort(c, s, Perform(slot), l);
    }
  }

  lemma PerformDoes(c: Config, s: State, slot: Ptr)
    requires Enabled(c, s, Perform(slot))
    ensures Do(c, s, Perform(slot)) == Performed(c, s, slot)
  {
    hide FillGetters, Dispatch, Dispatched;
  }

  lemma RevokePort(c: Config, s: State, k: Loc, l: Loc)
    requires Inv(c, s) && IsPort(c, l) && Enabled(c, s, Revoke(k))
    ensures PortStep(c, s, Revoke(k), l, DoRevoke(s, k))
  {
    hide Inv, DoRevoke;
    PortAt(c, s, l);
    RevokeEffect(s, k);
    if k in s.ready {
      GoneMoves(c, s, k, l);
    } else {
      LateMoves(c, s, k, l);
    }
  }

  lemma GoneMoves(c: Config, s: State, k: Loc, l: Loc)
    requires k in s.call && s.call[k].phase.Revoking? && (l in s.ready ==> l in s.call)
    ensures PortStep(c, s, Revoke(k), l, s.(ready := s.ready - {k}, call := s.call - {k}))
  {
  }

  lemma LateMoves(c: Config, s: State, k: Loc, l: Loc)
    requires k in s.call && s.call[k].phase.Revoking?
    ensures PortStep(c, s, Revoke(k), l, s.(call := s.call[k := WithPhase(s.call[k], Late)]))
  {
  }

  lemma RecvPort(c: Config, s: State, k: Loc, l: Loc)
    requires Inv(c, s) && IsPort(c, l) && Enabled(c, s, Recv(k))
    ensures PortStep(c, s, Recv(k), l, DoRecv(c, s, k))
  {
    hide Inv, DoRecv;
    PortAt(c, s, l);
    RecvEffect(c, s, k);
    RecvNoFault(c, s, k);
    MessagePhase(c, s.call[k], s.box[k]);
  }

  lemma RecvNoFault(c: Config, s: State, k: Loc)
    requires Inv(c, s) && Enabled(c, s, Recv(k))
    ensures !DoRecv(c, s, k).fault
  {
    hide Inv, DoRecv;
    RecvInv(c, s, k);
    NoFault(c, DoRecv(c, s, k));
  }

  lemma MessagePhase(c: Config, call: Call, msg: int)
    ensures var ph := RecvPhase(c, call, msg); ph.Some? ==> !BeforeMessage(ph.value) && !ph.value.Starting?
  {
  }

  lemma WorkPort(c: Config, s: State, g: Loc, l: Loc)
    requires Inv(c, s) && IsPort(c, l) && Enabled(c, s, Work(g))
    ensures PortStep(c, s, Work(g), l, DoWork(c, s, g))
  {
    hide Inv, DoWork;
    PortAt(c, s, l);
    WorkProceeds(c, s, g);
  }

  lemma FinalizePort(c: Config, s: State, g: Loc, l: Loc)
    requires Inv(c, s) && IsPort(c, l) && Enabled(c, s, Finalize(g))
    ensures PortStep(c, s, Finalize(g), l, DoFinalize(c, s, g))
  {
    hide Inv, DoFinalize, MakeEmpty, PortStep;
    if IsMemo(c, s.call[g].phase.src) {
      FinalizeCellEffect(c, s, g);
      FinalizedMoves(c, s, g, l, DoFinalize(c, s, g));
    } else {
      FinalizePortEffect(c, s, g);
      SentPort(c, s, Finalize(g), s.call[g].phase.src);
      FinalizedMoves(c, s, g, l, DoFinalize(c, s, g));
    }
  }

  lemma FinalizedMoves(c: Config, s: State, g: Loc, l: Loc, s': State)
    requires g in s.call && s.call[g].phase.Finalizing? && IsPort(c, l)
    requires s'.call == s.call[g := WithPhase(s.call[g], Served)]
    requires var src := s.call[g].phase.src;
             if IsMemo(c, src) then s'.box == s.box && (s'.ready == s.ready || s'.ready == s.ready + {src})
             else s'.box.Keys == s.box.Keys + {src} && s'.ready == s.ready
    ensures PortStep(c, s, Finalize(g), l, s')
  {
    assert l in s'.box <==> l in s'.box.Keys;
  }

  lemma PortSteps(c: Config, s: State, step: Step, l: Loc)
    requires Inv(c, s) && IsPort(c, l) && Enabled(c, s, step) && !Begins(step, l)
    ensures PortStep(c, s, step, l, Do(c, s, step))
  {
    hide Inv, PortStep, DoRecv, DoRevoke, DoFinalize, DoWork, DoSelect, Dispatched, RuleEnabled;
    if Plain(step) {
      PlainPort(c, s, step, l);
    } else {
      match step
      case Select(i) => SelectPort(c, s, i, l);
      case SendNext => SendPort(c, s, l);
      case Perform(slot) => PerformPort(c, s, slot, l);
      case Revoke(k) => RevokePort(c, s, k, l);
      case Recv(k) => RecvPort(c, s, k, l);
      case Work(g) => WorkPort(c, s, g, l);
      case Finalize(g) => FinalizePort(c, s, g, l);
    }
  }

  lemma BeginTallied(c: Config, s: State, step: Step, l: Loc)
    requires Enabled(c, s, step) && Begins(step, l)
    ensures Tallied(Do(c, s, step), l, Tally(0, 0, 0))
  {
  }

  lemma StepTallied(c: Config, s: State, step: Step, l: Loc, t: Tally)
    requires Inv(c, s) && IsPort(c, l) && Enabled(c, s, step) && Tallied(s, l, t)
    ensures Tallied(Do(c, s, step), l, Next(c, s, step, l, t))
  {
    hide Inv, Do, Enabled;
    if Begins(step, l) {
      BeginTallied(c, s, step, l);
    } else {
      PortSteps(c, s, step, l);
      PortAt(c, s, l);
      if SendsTo(c, s, step, l) {
        SentPort(c, s, step, l);
      }
      OneKind(c, s, step, l);
      EnterStarts(c, s, step);
      TallyMoves(c, s, step, l, t, Do(c, s, step));
    }
  }

  lemma EnterStarts(c: Config, s: State, step: Step)
    requires Enabled(c, s, step)
    ensures step.EnterPut? ==> step.p in s.call && s.call[step.p].phase.Starting?
  {
  }

  lemma TallyMoves(c: Config, s: State, step: Step, l: Loc, t: Tally, s': State)
    requires Tallied(s, l, t) && PortStep(c, s, step, l, s') && !Begins(step, l)
    requires l in s.ready ==> l in s.call && BeforeMessage(s.call[l].phase) && l !in s.box
    requires l in s.call && s.call[l].phase.Starting? ==> l !in s.ready
    requires l in s.box ==> l in s.call && BeforeMessage(s.call[l].phase)
    requires SendsTo(c, s, step, l) ==> l in s.call && BeforeMessage(s.call[l].phase) && l !in s.box && l !in s.ready
    requires FiresAt(c, step, l) ==> !SendsTo(c, s, step, l)
    requires ReceivesAt(step, l) ==> !SendsTo(c, s, step, l) && !FiresAt(c, step, l)
    requires step.EnterPut? ==> !FiresAt(c, step, l) && !SendsTo(c, s, step, l) && !ReceivesAt(step, l)
    requires step.EnterPut? ==> step.p in s.call && s.call[step.p].phase.Starting?
    ensures Tallied(s', l, Next(c, s, step, l, t))
  {
    hide SendsTo, FiresAt, ReceivesAt;
  }

  lemma OneKind(c: Config, s: State, step: Step, l: Loc)
    ensures (FiresAt(c, step, l) ==> !SendsTo(c, s, step, l))
    ensures (ReceivesAt(step, l) ==> !SendsTo(c, s, step, l) && !FiresAt(c, step, l))
    ensures step.EnterPut? ==> !FiresAt(c, step, l) && !SendsTo(c, s, step, l) && !ReceivesAt(step, l)
  {
  }

  // ---------------------------------------------------------------- every run

  lemma {:induction false} RunTallied(c: Config, s: State, steps: seq<Step>, l: Loc, t: Tally)
    requires ConfigOk(c) && Inv(c, s) && IsPort(c, l) && ValidRun(c, s, steps) && ScopedRun(c, s, steps)
    requires Tallied(s, l, t)
    ensures Tallied(Run(c, s, steps), l, Since(c, s, steps, l, t)) && Inv(c, Run(c, s, steps))
    decreases |steps|
  {
    hide Inv, Enabled, Do, ConfigOk, Tallied, Next, Scoped;
    if steps != [] {
      StepTallied(c, s, steps[0], l, t);
      StepInv(c, s, steps[0]);
      RunTallied(c, Do(c, s, steps[0]), steps[1..], l, Next(c, s, steps[0], l, t));
    }
  }

  /** A timed-out call that takes its readiness back was in no firing, and no message was sent to it. One that is too
      late was in exactly one firing, whose message it still has to receive. A call that returns was in exactly one
      firing, and has received its one message. */
  lemma OneMessage(c: Config, steps: seq<Step>, l: Loc)
    requires ConfigOk(c) && IsPort(c, l) && ValidRun(c, Init(c), steps) && ScopedRun(c, Init(c), steps)
    ensures var s, t := Run(c, Init(c), steps), Since(c, Init(c), steps, l, Tally(0, 0, 0));
            && (Enabled(c, s, Revoke(l)) && l in s.ready ==>
                  t == Tally(0, 0, 0) && l !in s.box && l !in DoRevoke(s, l).call)
            && (Enabled(c, s, Revoke(l)) && l !in s.ready ==> t == Tally(1, if l in s.box then 1 else 0, 0))
            && (Enabled(c, s, Return(l)) ==> t == Tally(1, 1, 1) && l !in s.box)
  {
    hide Inv, ValidRun, ScopedRun, Run, Since, ConfigOk, DoRevoke;
    var s := Run(c, Init(c), steps);
    InitInv(c);
    RunTallied(c, Init(c), steps, l, Tally(0, 0, 0));
    PortAt(c, s, l);
    if l in s.call {
      RevokeEffect(s, l);
    }
  }

  // ---------------------------------------------------------------- the dropbox, over whole runs

  function Sent(c: Config, s: State, steps: seq<Step>, l: Loc): nat
    requires ValidRun(c, s, steps)
    decreases |steps|
  {
    if steps == [] then 0
      else (if SendsTo(c, s, steps[0], l) then 1 else 0) + Sent(c, Do(c, s, steps[0]), steps[1..], l)
  }

  function Received(steps: seq<Step>, l: Loc): nat {
    if steps == [] then 0 else (if ReceivesAt(steps[0], l) then 1 else 0) + Received(steps[1..], l)
  }

  function InBox(s: State, l: Loc): nat { if l in s.box then 1 else 0 }

  lemma StepBox(c: Config, s: State, step: Step, l: Loc)
    requires Inv(c, s) && IsPort(c, l) && Enabled(c, s, step)
    ensures InBox(s, l) + (if SendsTo(c, s, step, l) then 1 else 0) ==
            InBox(Do(c, s, step), l) + (if ReceivesAt(step, l) then 1 else 0)
  {
    hide Inv, Do, Enabled;
    OneKind(c, s, step, l);
    if SendsTo(c, s, step, l) {
      SentPort(c, s, step, l);
    }
    if Begins(step, l) {
      BeginBox(c, s, step, l);
    } else {
      PortSteps(c, s, step, l);
    }
  }

  lemma BeginBox(c: Config, s: State, step: Step, l: Loc)
    requires Enabled(c, s, step) && Begins(step, l)
    ensures Do(c, s, step).box == s.box && !SendsTo(c, s, step, l) && !ReceivesAt(step, l)
  {
  }

  /** Every message sent to a port is received, or is the one in its dropbox. */
  lemma {:induction false} NoMessageLost(c: Config, s: State, steps: seq<Step>, l: Loc)
    requires ConfigOk(c) && Inv(c, s) && IsPort(c, l) && ValidRun(c, s, steps) && ScopedRun(c, s, steps)
    ensures InBox(s, l) + Sent(c, s, steps, l) == Received(steps, l) + InBox(Run(c, s, steps), l)
    decreases |steps|
  {
    hide Inv, Enabled, Do, ConfigOk, SendsTo, Scoped, InBox;
    if steps != [] {
      StepBox(c, s, steps[0], l);
      StepInv(c, s, steps[0]);
      NoMessageLost(c, Do(c, s, steps[0]), steps[1..], l);
    }
  }

  /** A message is in the port's dropbox, or is bound to come. */
  predicate MessageDue(s: State, l: Loc) {
    l in s.box || RoleOf(s.lock, l) != Idle || Busy(s, l)
  }

  /** A call that times out gives up iff its readiness is still unused: then no message is there or on its way,
      and none will be until it calls again. Otherwise its one message is there or on its way. */
  lemma TimeoutAtomic(c: Config, s: State, l: Loc, s': State)
    requires Inv(c, s) && Enabled(c, s, Revoke(l)) && s' == Do(c, s, Revoke(l))
    ensures l in s.ready <==> !MessageDue(s, l)
    ensures l in s.ready ==> l !in s'.call && l !in s'.ready && !MessageDue(s', l)
    ensures l !in s.ready ==> l in s'.call && s'.call[l].phase.Late? && MessageDue(s', l)
  {
    hide Inv, DoRevoke, MessageDue, RuleEnabled;
    DueUnlessReady(c, s, l);
    RevokedDue(c, s, l);
    RevokeShape(s, l);
  }

  /** A call whose readiness is gone has its message, or it is on its way. */
  lemma DueUnlessReady(c: Config, s: State, l: Loc)
    requires Inv(c, s) && l in s.call && s.call[l].phase.Revoking?
    ensures l in s.ready <==> !MessageDue(s, l)
  {
    hide Locations, Counts, Slots, Takers, LockOk, Busy, RoleOf;
    GoodAt(c, s, l);
  }

  /** Taking readiness back, or not, changes nothing about messages. */
  lemma RevokedDue(c: Config, s: State, l: Loc)
    requires Inv(c, s) && l in s.call && s.call[l].phase.Revoking?
    ensures MessageDue(DoRevoke(s, l), l) == MessageDue(s, l)
  {
    hide Inv, Busy, RoleOf, DoRevoke;
    RevokeInv(c, s, l);
    RevokeShape(s, l);
    assert Busy(DoRevoke(s, l), l) == Busy(s, l);
  }

  lemma RevokeShape(s: State, l: Loc)
    requires l in s.call
    ensures DoRevoke(s, l).lock == s.lock && DoRevoke(s, l).box == s.box
    ensures l in s.ready ==> l !in DoRevoke(s, l).call && l !in DoRevoke(s, l).ready
    ensures l !in s.ready ==> l in DoRevoke(s, l).call && DoRevoke(s, l).call[l].phase == Late
  {
    if l in s.ready {
    } else {
    }
  }

  /** A port outside any call gets no message, and its dropbox stays empty until it has been fired again. */
  lemma IdlePortUntouched(c: Config, s: State, l: Loc)
    requires Inv(c, s) && l !in s.call && !IsMemo(c, l)
    ensures !MessageDue(s, l) && l !in s.ready
  {
    hide Counts, Slots, Takers, LockOk, Busy, RoleOf, Locations;
    GoodAt(c, s, l);
  }
}
