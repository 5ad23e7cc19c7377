# A verified model of reo_rs

`reo_rs` runs Reo coordination protocols. Threads call `put` and `get` on ports; whoever holds the protocol's lock acts
as the protocol and fires synchronous rules that move data between ports and memory cells. This project models the
coordinator with its lock-free data transfer, the rule compiler and its bit masks, the elimination of silent rules from
port automata, and three smaller cores, and proves what they are for.

Check everything with `dafny verify dfyconfig.toml` (Dafny 4.11).

## How it is built

**The coordinator** (`src/proto/mod.rs`, `src/proto/traits.rs`). `Protocol` is a state machine with one step per atomic
operation of the code. A critical section is taken apart into selecting a rule, performing one action, sending one
message and releasing the lock, so that threads that hold no lock run in between. A getter's way through
`acquire_data` is one step per atomic operation: set the flag, copy, count down, read the flags, finalize, ask for the
move, wait for the semaphore. Timing out is a step, and so is taking readiness back or finding it too late. Where the
code asserts, expects, dereferences, clones or sends into a one-slot dropbox, a failure raises `fault`; what the machine does
after that claims nothing about the code.

- `ProtocolInvariant`, `ProtocolFiring` and `ProtocolSafety` prove the invariant `Inv` of every reachable state: readiness,
  memory bits, pointers and reference counts of cells; the countdown as the number of getters still to leave; who
  may take the datum; where each call's message is. No run raises `fault`. `StepEffects` and `Runs` say what each step
  leaves alone in any state, and put runs together.
- `RuleAutomaton` is the atomic meaning of a protocol: a rule hands every putter's value to all its getters at once. It
  knows no threads, locks, pointers, flags or countdowns. `Refinement` and `RefinementFiring` prove that every run of
  the threads is, event for event, a run of this automaton; in particular each get returns the value its putter held
  when the rule fired, and each put is told "moved" exactly if the automaton moved the value.
- `Scripts` reads off the steps of a run alone what each thread does: the order of a call's own steps, that a call is what it was
  begun with and that only timed calls give up, that critical sections do not overlap, that a firing's actions and messages
  come in order, and exactly when a thread may begin, time out, receive and return. `Assertions` states everything that the
  code asserts, expects or dereferences as a property of the state and proves that it holds at every step.
- `Progress` proves that no wake-up is lost and that threads get stuck only where the automaton allows no firing.
  `Liveness` bounds every run without new calls and proves that fired calls return. `Finalizers` counts finalizers and
  `FinalReports` proves what they report, for ports and cells and any number of getters. `Deliveries` counts the firings and
  messages of one call, timed out or not. `Alternator` proves the alternator of the test suite right over all schedules,
  through the automaton, its rules being those compiled from its definition. `Linear` is the bookkeeping of values that are not `Copy`, and `PutReports` says where a value is
  when its put is told.
- `Coordinator` is the lock holder's code as a class with in-place fields. Its loops are proved to be runs of the step
  machine and to end; how many firings they make is bounded by what the step machine allows, at most one per ready port
  if every rule involves a port.

The scope of the data guarantees is a condition on the firings of a run, `Protocol.InScope`: of a port putter's `Copy` datum at
most one port getter takes data (the others only take the signal); a datum that is not `Copy` and goes to port getters goes
to one of them, or to any number that only take the signal, and if it comes from a cell then no other cell shares its slot;
a port's datum that goes to cells and to port getters, so that it has to be cloned, is of a type that is `Clone`.
Cells of `Copy` data have any number of getters. Guards are arbitrary predicates of the memory bits. `StaticScope` gives
conditions on the rules and on who calls `get_signal` under which every run is in scope.

The scope is exact. `Outcomes` defines what goes wrong otherwise (a getter that has stopped looking for the datum it asked
for, a cell that nobody will empty) and proves that it stays so for ever. `OutOfScope` proves that from every reachable state
in which an action out of scope is next, some run ends in a null dereference, a panic, such a getter or such a cell, provided
the holder can release the lock. `Boundary` has the concrete runs from the start, and rules between cells alone for which the
holder never releases it.

**The rule compiler** (`src/proto/definition.rs`, `src/bitset.rs`, the chunk loops of `src/proto/mod.rs`). `Bits` and
`BitSets` refine growable chunk vectors of 64-bit words to finite sets. `RuleCompiler` builds the four masks in place, one
`set_to` at a time as the code does, and accepts exactly the acceptable rules. `RuleRuntime` has the chunk loops that test and
apply masks, and says exactly when they mean what the masks mean. `CompiledRules` gives the masks their meaning and
proves that accepted rules are the ones `Protocol` assumes.

**Silent-rule elimination** (`graveyard6/rbpa.rs`). `StateSets` and `AbstractRules` have ternary predicates, application and
composition; `RbpaElimination` the proof that removing a silent rule changes no visible trace; `RbpaMerging` what `try_merge`
merges rightly and wrongly; `RbpaNormalization` whole rounds, elimination and then merging; `RbpaTermination` rules for which
the rounds never end, and when they do; `RbpaMasking` masking and hiding; `PortAutomaton` the class that edits its rules in place.

**Smaller cores.** `Storage` is the recycling allocator of `src/proto/memory.rs`, `Rendezvous` the two-barrier put and get of
`graveyard2/reo.rs`, `Closure` the worklist closure of `graveyard4/rba_builder.rs`.

Calls into the operating system became parameters: the address the system allocator answers, the storage slot a firing
takes, whether a timeout strikes before a message, whether a rendezvous partner is found waiting. A word is 64 bits.

## Model

| member | source | states |
|---|---|---|
| ProtocolSafety.RunSafe | src/proto/mod.rs:293-383 | In every run whose firings are in scope, over all interleavings, the invariant holds and no assertion, `expect`, clone, dropbox or dereference fails. |
| ProtocolSafety.StepInv | src/proto/mod.rs:1052-1143 | Every step of every thread keeps the whole invariant of cells, ports, countdowns, reference counts and move rights. |
| Assertions.AssertionsHold | src/proto/mod.rs:1052-1143 | At every step of every run in scope: what is read is a stored slot or the frame of a put still waiting, what is counted down is positive, what is filled is empty, what is emptied is stored and not ready, the dropbox is empty when a message is sent, the message received is one its receiver expects, and only what can be cloned is. |
| Assertions.EmptyFaults | src/proto/mod.rs:134-153 | Emptying a cell fails in the model exactly if its pointer is null or not counted, its last slot not owned, or the cell already ready. |
| Assertions.CellFillFaults | src/proto/mod.rs:1066-1125 | Filling cells from a cell fails in the model exactly if one has a pointer, or the putter's is null or not counted. |
| Assertions.PortFillFaults | src/proto/mod.rs:1091-1125 | Filling cells from a port fails in the model exactly if one has a pointer, the slot is in use, the put's frame is gone, or a clone is needed and impossible. |
| Assertions.CopyFaults | src/proto/traits.rs:319-337 | Copying out fails in the model exactly if the slot is not owned or the put's frame is gone. |
| StaticScope.TameRunsScoped | src/proto/mod.rs:1066-1090 | If of each port's `Copy` datum at most one getter ever asks for data, or the data is not `Copy` and actions have one getter, every run is in scope, and slots of such data keep a single holder. |
| ProtocolInvariant.InitInv | src/proto/definition.rs:234-245 | A fresh protocol with empty, ready cells satisfies the invariant. |
| ProtocolSafety.PerformInv | src/proto/mod.rs:1053-1143 | Performing any action of a firing, with transfers, countdown, flags and readiness, keeps the invariant. |
| ProtocolSafety.WorkInv | src/proto/traits.rs:235-295 | Every lock-free operation of `acquire_data` keeps the invariant and touches nothing that the lock protects. |
| ProtocolSafety.FinalizeInv | src/proto/traits.rs:347-353 | The last getter's finalizer, from outside or inside the lock, keeps the invariant. |
| ProtocolSafety.MoveEnabled | src/proto/mod.rs:1084-1090 | When port getters of data that is not `Copy` are dispatched in scope, the putter's slot has no other holder and the move flag is set accordingly. |
| ProtocolFiring.SelectInv | src/proto/mod.rs:354-364 | Assigning memory bits and subtracting readiness when a rule is selected keeps the invariant. |
| ProtocolFiring.FillInv | src/proto/mod.rs:1066-1125 | Filling memory getters keeps reference counts equal to the number of cells holding each pointer. |
| ProtocolFiring.MakeEmptySlots | src/proto/mod.rs:134-153 | Emptying a cell keeps counts exact and leaves every other cell's datum in storage. |
| ProtocolFiring.DispatchGettersInv | src/proto/mod.rs:1133-1142 | Setting countdown, flags and messages finds no getter of an earlier firing still at work on the putter. |
| ProtocolInvariant.CopyOutInv | src/proto/traits.rs:319-337 | Copying the datum out, taking a port's pointer, keeps every other getter's source intact. |
| ProtocolInvariant.LeaveInv | src/proto/traits.rs:249-253 | Counting down keeps the countdown equal to the getters still to leave; only the last one goes on to finalize. |
| ProtocolInvariant.FinalizePortInv | src/proto/traits.rs:327-331 | Reporting to a port putter finds its dropbox empty and its call waiting. |
| ProtocolInvariant.RevokeInv | src/proto/traits.rs:19-34 | Taking readiness back after a timeout, or finding it used, keeps the invariant. |
| Refinement.WorkSim | src/proto/traits.rs:235-295 | Every operation of `acquire_data` is invisible to the automaton and copies exactly what the automaton gave. |
| RefinementFiring.SelectSim | src/proto/mod.rs:324-383 | Selecting an enabled rule is one atomic firing of the automaton: all data reach all getters at once. |
| RefinementFiring.PerformSim | src/proto/mod.rs:1053-1143 | Performing the actions later carries out what the atomic firing decided and changes nothing visible. |
| RefinementFiring.FinalMessage | src/proto/traits.rs:327-331 | The finalizer's message is the automaton's decision whether the datum moved. |
| RefinementFiring.StepRefines | src/proto/mod.rs:324-383 | Each step of a thread is one event of the automaton or none, and the simulation is kept. |
| RefinementFiring.RunRefines | src/proto/mod.rs:293-383 | Whatever the threads do from related states, the automaton accepts the same events and ends related. |
| RefinementFiring.EveryRunRefines | src/proto/mod.rs:293-383 | Every interleaving of put, get, get_signal and timeouts from the start is a run of the atomic rule automaton. |
| RefinementFiring.FireMeans | src/proto/mod.rs:1052-1143 | What the automaton's firing means, action by action: the putter's value reaches all cells and the getters that asked for data, a cell putter is emptied, a port putter learns whether its datum left, all else stays. |
| Progress.NoLostWakeup | src/proto/mod.rs:293-383 | Whenever the lock is free, no rule has its masks and its guard satisfied. |
| Progress.StuckWaits | src/proto/mod.rs:819-846 | When no thread can step, all cells are ready and every call is a port waiting to be fired. |
| Progress.DeadlockIsTheProtocols | src/proto/mod.rs:324-383 | The threads are stuck only where the automaton has no enabled rule: the coordinator adds no deadlock. |
| Liveness.RunsBounded | src/proto/mod.rs:293-383 | If every rule involves a port, a run without new calls has at most as many steps as a measure of its first state: no livelock. |
| Liveness.FiredReturns | src/proto/mod.rs:819-846 | When such a run can go no further, every call that a rule has fired has returned. |
| Liveness.RunsOut | src/proto/mod.rs:293-383 | If every run is in scope by its rules, the threads can always go on until only new calls and timeouts are left. |
| Finalizers.ExactlyOnce | src/proto/traits.rs:242-253 | In every run the firings that engage port getters of a putter and its finalizers alternate, one finalizer per firing. |
| Finalizers.StepBusy | src/proto/mod.rs:1133-1142 | A putter's countdown is set only when nobody is engaged with it; only finalizing ends the engagement. |
| FinalReports.FinalizerReports | src/proto/traits.rs:242-293 | In every run, for ports and cells and any number of getters: when a finalizer runs all others have left, and it reports moved exactly if a getter has taken the datum since the firing; for `Copy` data, exactly if one has set the flag. |
| Deliveries.OneMessage | src/proto/mod.rs:976-1004 | In every run a timed-out call that takes its readiness back was in no firing and was sent nothing; one that is too late was in exactly one, whose message is there or still to come; a call that returns was in exactly one and has received its one message. |
| Scripts.UntimedReturns | src/proto/mod.rs:818-846 | In every run, in scope or not: after a call was begun without a timeout, no timeout and no revocation follows at its port before the next call, and the call ends by returning only. |
| Scripts.CallAsBegun | src/proto/mod.rs:958-1004 | In every run a call in progress is the one begun last at its port, with the value, the wish for data and the timeout it was begun with, and only a timed one has timed out. |
| Scripts.FollowsScript | src/proto/traits.rs:19-34 | In every run each thread's own steps follow the order of the code: begin, take the lock, wait, perhaps time out and try to revoke, receive one message, do the getter's work, finalize or not, return. |
| Scripts.MutualExclusion | src/proto/mod.rs:293-322 | In every run critical sections do not overlap: rules fire and the lock is released only by whoever took it last, who does nothing else meanwhile; taking it or revoking readiness finds it released by all before. |
| Scripts.FiringInOrder | src/proto/mod.rs:353-376 | In every run, whatever other threads do meanwhile: after a rule is selected its actions are carried out in order, each followed by its getters' messages in order, and no rule is selected nor the lock released before all is done. |
| Scripts.MayBegin | src/proto/mod.rs:958-966 | After any run a call can begin exactly at an idle port of the right direction, and the lock is taken exactly when free. |
| Scripts.MayTimeOut | src/proto/mod.rs:989-998 | After any run a call can time out exactly if it is timed, waits, holds no lock and has no message; it can revoke exactly after that, the lock being free. |
| Scripts.MayReceive | src/proto/traits.rs:19-34 | After any run a call can receive exactly if it waits or was too late and its message is there; it can return exactly when done. |
| StepEffects.WorkProceeds | src/proto/traits.rs:235-295 | From any state a getter's operation goes to the phase that follows in the code, touches its own call and its source's flags, countdown and semaphore only, and changes what the getter has only by copying. |
| Deliveries.NoMessageLost | src/proto/traits.rs:327-331 | Messages sent to a port are the messages it received, plus the one in its dropbox. |
| Deliveries.TimeoutAtomic | src/proto/mod.rs:989-998 | After a timeout readiness is taken back exactly if no message is there or on its way, and this does not change by it. |
| Deliveries.IdlePortUntouched | src/proto/mod.rs:643-645 | A port outside any call is not ready, has an empty dropbox and no message on its way. |
| Alternator.Alternates | src/proto/tests.rs:33-46 | Over all schedules the values got at port 2 strictly alternate between the puts of ports 0 and 1, each in put order. |
| Alternator.AltOk | src/proto/tests.rs:33-46 | The alternator's two rules satisfy the model's conditions on rules, for data that is `Copy` or not. |
| Alternator.AltCompiled | src/proto/tests.rs:33-46 | The alternator's definition is accepted by the rule compiler, and the two rules, masks, actions and kinds of locations included, are what it is compiled to; their guards always hold. |
| Linear.Conservation | src/proto/mod.rs:1010-1032 | For data that is not `Copy`, a value is in as many places as it came in, by a put or as a clone, less the times it was returned or dropped. |
| Linear.OnePlace | src/proto/mod.rs:1010-1032 | A value that came in once is on one stack, in one slot or with one getter, or has left exactly once. |
| PutReports.PutReportsWhere | src/proto/mod.rs:958-972 | A put told "not moved" has its datum, which is nowhere else; a put told "moved" has lost it to exactly one slot or getter, or a get has returned it or it was dropped, once. |
| Linear.StepLinear | src/proto/traits.rs:254-293 | Each step of each thread balances values that come, stay, move and leave. |
| Linear.FinalizeCellBalanced | src/proto/mod.rs:134-153 | Emptying a cell drops its value exactly if no getter has taken it. |
| Linear.PerformDropBalanced | src/proto/mod.rs:1128-1131 | A cell emptied by a rule without getters drops its value once. |
| Linear.PerformEmptyBalanced | src/proto/mod.rs:1066-1131 | Emptying a cell by a rule without port getters balances the books, whether the slot passes to filled cells, stays with cells that share it, or is freed. |
| Linear.PerformCloneBalanced | src/proto/mod.rs:1091-1118 | When a port's datum goes to a port getter and to cells, of a type that is `Clone`, the books balance with one clone as an entry. |
| Coordinator.ProtoW.ExhaustRules | src/proto/mod.rs:324-383 | The rule loop is a run of firing steps that leaves no rule enabled; it is always the first enabled rule that fires. It ends whenever the step machine allows only a bounded number of firings in scope, and makes no more than that. |
| Runs.FirstRuleFires | src/proto/mod.rs:324-338 | In every run, whenever a rule is selected it is enabled and no rule before it is. |
| Runs.EnabledMeans | src/proto/mod.rs:441-468 | A rule is enabled exactly if its guard holds, all locations of its actions are ready, the cells it takes from full and the cells it fills empty. |
| Coordinator.ProtoW.SelectAndFire | src/proto/mod.rs:353-368 | Firing one rule in place is a run with one selection, and leaves one firing less to the bound. |
| Coordinator.ProtoW.Fire | src/proto/mod.rs:753-759 | Performing the rule's actions in order is a run of the step machine and makes no port ready. |
| Coordinator.ProtoW.PerformAction | src/proto/mod.rs:1053-1143 | One action, loops over cells and getters included, is a run of the step machine. |
| Coordinator.ProtoW.Transfer | src/proto/mod.rs:1066-1125 | Pointers, readiness, storage and counts after the transfers are those of the step machine. |
| Coordinator.ProtoW.Deliver | src/proto/mod.rs:1128-1138 | Finishing a putter without port getters, or setting countdown and flags, is the step machine's. |
| Coordinator.ProtoW.SendAll | src/proto/mod.rs:1139-1141 | The message loop finds every dropbox empty and sends in order. |
| Coordinator.ProtoW.MakeEmpty | src/proto/mod.rs:134-153 | Emptying in place gives the step machine's state. |
| Coordinator.ProtoW.ReadySetCoordinate | src/proto/mod.rs:293-322 | Raising readiness and exhausting rules: with the step that entered and the release, a run from lock-free to lock-free state. |
| Coordinator.ProtoW.EnterPut | src/proto/mod.rs:958-966 | The critical section of a put is a run from lock-free to lock-free state, within the bound. |
| Coordinator.ProtoW.EnterGet | src/proto/mod.rs:818-827 | The critical section of a get is a run, within the bound. |
| Coordinator.ProtoW.FinalizeCell | src/proto/traits.rs:347-353 | The last getter's critical section, emptying the cell and coordinating, is a run, within the bound. |
| Coordinator.ProtoW.RevokeReadiness | src/proto/mod.rs:989-998 | After a timeout readiness is taken back exactly if no rule has used it. |
| Runs.PortsBound | src/proto/mod.rs:324-383 | If every rule involves a port, the lock holder fires at most as many rules as there are ready ports, each firing using one up. |
| StaticScope.TameTractable | src/proto/mod.rs:324-383 | Protocols in scope by their rules, each of which involves a port, have that bound. |
| OutOfScope.ScopeIsExact | src/proto/traits.rs:235-295 | If every rule involves a port: no run of the protocol faults, panics of `clone_in` included, leaves a getter without the datum it asked for or abandons a cell, if and only if no run performs an action out of scope. |
| OutOfScope.OutOfScopeGoesWrong | src/proto/traits.rs:235-295 | From any state satisfying the invariant in which an action out of scope is next and the lock can be released, some run faults, leaves a getter without its datum or abandons a cell. |
| OutOfScope.ScopedSound | src/proto/traits.rs:235-295 | A run in scope never comes to any of these. |
| OutOfScope.TwoTakersCanFault | src/proto/traits.rs:319-322 | Wherever a port putter's `Copy` datum is about to go to two getters that take data, some run dereferences null. |
| OutOfScope.UnclonableWrong | src/proto/reflection.rs:32-38 | Wherever a port's datum of a type that is not `Clone` is about to go to cells and to port getters, performing the action panics. |
| OutOfScope.TakerIsStuck | src/proto/traits.rs:255-268 | Wherever a datum that is not `Copy`, its slot not shared, is about to go to several getters, any one that takes data can end up parked without it; if the datum is a port's whose semaphore has no permit, nobody can release the getter. |
| OutOfScope.TakerIsStuckForever | src/proto/traits.rs:255-268 | In every state reached in scope, if a port's datum that is not `Copy` is about to go to several getters, any one that takes data can end up parked in every continuation. |
| OutOfScope.NoPermits | src/proto/traits.rs:264-289 | In runs in scope no semaphore is ever released. |
| OutOfScope.SecondIsStuck | src/proto/traits.rs:255-281 | If the slot is shared and two getters take data, one of them can end up parked without. |
| OutOfScope.CellIsForsaken | src/proto/traits.rs:255-293 | If the slot is shared and at most one getter takes data, nobody finalizes the cell. |
| OutOfScope.PortRulesRelease | src/proto/mod.rs:324-383 | If every rule involves a port, the holder can always come to release the lock. |
| Outcomes.EmptyHandedForever | src/proto/traits.rs:255-268 | A getter that has stopped looking for its datum never has it: it has not returned, or has returned without. |
| Outcomes.ParkedForever | src/proto/traits.rs:264-268 | A getter parked at a port whose semaphore nobody can release never returns. |
| Outcomes.ParkedMeans | src/proto/traits.rs:264-268 | From any state a parked getter goes on exactly when its source's semaphore has a permit, which it takes, and then finalizes. |
| Outcomes.LoserLeaves | src/proto/traits.rs:269-281 | From any state the getter that has cloned counts down, and gives a permit exactly if it is the last to leave. |
| Outcomes.SignalLeaves | src/proto/traits.rs:282-293 | From any state the last of those that only take the signal, being first to ask for the move, gives a permit and leaves. |
| Outcomes.SignalFinalizes | src/proto/traits.rs:282-293 | If it is not the first to ask, or the move is disabled, it finalizes itself. |
| Outcomes.AbandonedForever | src/proto/mod.rs:134-153 | An abandoned cell is never ready again, so no rule involves it. |
| Boundary.TwoTakersFault | src/proto/traits.rs:319-322 | From the start, one put and two gets of `Copy` data for the rule `0=>1,2` dereference null. |
| Boundary.GetterParkedForever | src/proto/traits.rs:255-268 | From the start, the same calls with data that is not `Copy` leave the first getter without its datum, parked in every continuation. |
| Boundary.CellLostForever | src/proto/traits.rs:269-281 | From the start, with a put into two cells and a get from one of them, a run leaves that cell unready in every continuation. |
| Boundary.UnclonableFault | src/proto/mod.rs:1091-1096 | From the start, one put and one get for the rule `0=>1,2` with a cell 1 and a get port 2, of a type that is not `Clone`, panic while the lock is held. |
| Boundary.MixedOk | src/proto/definition.rs:266-363 | That rule satisfies every condition on rules: only its firings are out of scope. |
| Boundary.OnlyOutOfScope | src/proto/definition.rs:266-363 | The rule `0=>1,2` satisfies every condition on rules, masks included, and involves a port: only its firings are out of scope. |
| Boundary.CellsFireForever | src/proto/mod.rs:324-383 | With rules between cells alone the rule loop can fire any number of times without releasing the lock: termination needs its condition. |
| Boundary.PutFillsCell | src/proto/mod.rs:1091-1118 | One put reaches the state from which cells fire for ever. |
| BitSets.BitSet.SetTo | src/bitset.rs:147-167 | Inserts or removes one element and reports whether it was there; chunks grow only when inserting. |
| BitSets.BitSet.Test | src/bitset.rs:168-175 | Membership, beyond the last chunk included. |
| BitSets.BitSet.IsSuperset | src/bitset.rs:184-196 | True exactly for supersets with at least as many chunks; exact if the other set has no zero chunk at its end. |
| BitSets.BitSet.IntersectsWith | src/bitset.rs:176-183 | True exactly if the sets meet. |
| BitSets.BitSet.DifferenceWith | src/bitset.rs:223-228 | Set difference, same number of chunks. |
| BitSets.BitSet.StripTrailingZeroes | src/bitset.rs:213-222 | Removes exactly the zero chunks at the end and no member. |
| BitSets.BitSet.PadTrailingZeroes | src/bitset.rs:208-212 | Adds chunks and no member. |
| BitSets.SupersetLength | src/bitset.rs:184-187 | A subset without zero chunks at its end is never longer, so the length test loses nothing. |
| BitSets.SparseIter.Next | src/bitset.rs:18-36 | Yields the least member not visited, none exactly if all have been. |
| BitSets.Sparse | src/bitset.rs:101-108 | Iteration yields every member exactly once, ascending. |
| RuleCompiler.MaskBuilder.AddGetters | src/proto/definition.rs:302-342 | The bit operations for an action's getters, a cell feeding itself included, amount to the intended set updates; the error is about the first getter at fault. |
| RuleCompiler.MaskBuilder.AddAction | src/proto/definition.rs:274-343 | An action is accepted exactly if it is well formed and uses no location used before. |
| RuleCompiler.BuildRule | src/proto/definition.rs:266-363 | A rule compiles exactly if it is acceptable; its masks are the sets of its involved, drained, filled and changed locations, and its guard is the formula as it was given, as the code clones it. |
| RuleCompiler.AcceptableMeans | src/proto/definition.rs:92-105 | Acceptable are exactly the rules whose putters are known and no getter ports, whose getters are known, of the putter's type and no putter ports, and in which no location takes part in two actions. |
| RuleCompiler.BlamedFor | src/proto/definition.rs:277-340 | Which error an action gets, in the order of the code: its putter unknown, a getter port or used before; its first getter at fault unknown, of another type, a putter port or used before. |
| RuleCompiler.RunMeans | src/proto/definition.rs:302-325 | The action's cells and ports at run time are its getters sorted by kind, each once, in the order they first occur in. |
| RuleCompiler.MaxLocId | src/proto/definition.rs:249-256 | The greatest location of a known kind, or 0 if there is none. |
| RuleCompiler.BuildRules | src/proto/definition.rs:258-365 | All rules compile, or the error is that of the first unacceptable one; undefined functions are no error, since the code drops that result. |
| RuleCompiler.BlamesMeans | src/proto/definition.rs:277-340 | A reported error implies that the rule is not acceptable. |
| RuleRuntime.IsReady | src/proto/mod.rs:441-468 | The chunk loop tests readiness and fullness of the rule's locations as far as all four vectors reach. |
| RuleRuntime.AssignMemoryBits | src/proto/mod.rs:478-490 | The chunk loop unsets the masked bits and sets the assigned ones as far as the vectors reach, no others. |
| RuleRuntime.SubtractReadiness | src/proto/mod.rs:427-436 | The chunk loop subtracts the rule's locations from readiness, for vectors of any lengths. |
| RuleRuntime.GuardExact | src/proto/mod.rs:441-468 | For vectors of given lengths the loop is the set-level guard, whatever the contents, exactly if it reaches all the rule's locations. |
| RuleRuntime.AssignExact | src/proto/mod.rs:478-490 | If the vectors reach the mask, assignment is the set-level update. |
| CompiledRules.GuardMeans | src/proto/definition.rs:290-341 | The compiled guard, in terms of the definition: every putter and getter ready, every putter that is no port full, every getter that is no port and does not feed itself empty. |
| CompiledRules.AssignMeans | src/proto/definition.rs:290-341 | The compiled assignment: putters become empty, getters full, a cell feeding itself stays full, nothing else changes. |
| CompiledRules.RuntimeFaithful | src/proto/definition.rs:345-349 | With the greatest location not a multiple of 64 the padded masks are long enough for guard and assignment. |
| CompiledRules.LastLocation | src/proto/definition.rs:146 | A rule on the greatest location is tested faithfully exactly if that location is not a multiple of 64, padding being short by one otherwise. |
| CompiledRules.LocationZeroIsNeverTested | src/proto/definition.rs:249-256 | A protocol with the single location 0 gets no memory chunk, and its rules always seem ready. |
| CompiledRules.CompiledRuleOk | src/proto/definition.rs:266-363 | Every accepted rule without self-feeding cells satisfies the coordinator model's assumptions on rules. |
| StateSets.PartialCmp | graveyard6/rbpa.rs:162-181 | The loop returns less, equal, greater or none exactly as one set of concrete states contains, equals, is contained in or is incomparable to the other. |
| StateSets.ComparesUnique | graveyard6/rbpa.rs:162-181 | No two answers describe the same pair of predicates, so the loop's answer is the only right one. |
| AbstractRules.Apply | graveyard6/rbpa.rs:228-247 | The loop computes the specification function. |
| AbstractRules.AppliedMeans | graveyard6/rbpa.rs:228-247 | On a concrete state a rule fires exactly if the guard's specific variables have their values there; it sets the assignment's specific variables and leaves the others. |
| AbstractRules.ApplyExact | graveyard6/rbpa.rs:228-247 | A rule applied to a set of states stands for exactly the successors of the states that can fire. |
| AbstractRules.NewRuleSteps | graveyard6/rbpa.rs:342-355 | Making the assignment specific where the guard is changes no step. |
| AbstractRules.Compose | graveyard6/rbpa.rs:304-341 | The loops compute the specification function, including its refusals; the composition has the one port of the two and the identifiers of the second. |
| AbstractRules.ComposeExact | graveyard6/rbpa.rs:304-341 | The composed rule does, on every set of states, what the two do in sequence, undefinedness included. |
| AbstractRules.ComposesIff | graveyard6/rbpa.rs:359-371 | A silent rule composes with another exactly if some concrete state can run both. |
| AbstractRules.NoEffect | graveyard6/rbpa.rs:248-258 | The loop decides the specification predicate. |
| AbstractRules.EffectlessExact | graveyard6/rbpa.rs:248-258 | A silent rule is found without effect exactly if it changes no concrete state that it can fire on. |
| AbstractRules.Idempotent | graveyard6/rbpa.rs:228-247 | Where a rule can fire twice in a row, that is firing it once. |
| RbpaElimination.Contract | graveyard6/rbpa.rs:107-121 | Every run of the old rules is a run of the new ones with the same end, the eliminated rule composed away. |
| RbpaElimination.Expand | graveyard6/rbpa.rs:107-121 | Every run of the new rules is a run of the old ones. |
| RbpaElimination.EliminationExact | graveyard6/rbpa.rs:107-121 | Eliminating a silent rule leaves the relation "silent rules, then a rule on port p" unchanged. |
| RbpaElimination.TracesPreserved | graveyard6/rbpa.rs:107-121 | Eliminating a silent rule leaves all sequences of visible ports, between any two states, unchanged. |
| RbpaElimination.ReductionPreserves | graveyard6/rbpa.rs:107-121 | Any number of eliminations, without merging, preserves all visible traces. |
| RbpaNormalization.NormalizationPreserves | graveyard6/rbpa.rs:105-125 | Any number of rounds, each an elimination and then merging, preserves all visible traces if the pairs merged are ones that may be merged. |
| RbpaNormalization.SameTraces | graveyard6/rbpa.rs:139-156 | Rules with the same steps have the same visible traces. |
| RbpaNormalization.JoinedSteps | graveyard6/rbpa.rs:139-156 | Replacing two rules that may be merged by one changes no step. |
| RbpaNormalization.MergeAllMeans | graveyard6/rbpa.rs:139-156 | Merging replaces the first pair that can be merged, row by row, at the place of its first rule, and goes on. |
| RbpaNormalization.MergeNone | graveyard6/rbpa.rs:139-156 | It stops where no pair can be merged. |
| RbpaTermination.NeverEnds | graveyard6/rbpa.rs:105-125 | The rounds need not end: two silent rules that turn each other into themselves leave a silent rule after any number of rounds, merging included. |
| RbpaTermination.AnyRounds | graveyard6/rbpa.rs:105-125 | For these two rules any number of rounds can be made. |
| RbpaTermination.NormalizationEnds | graveyard6/rbpa.rs:105-125 | If no two silent rules follow each other in a circle, the rounds end, provided they merge no wrong pair; a rule that may follow itself does no harm. |
| RbpaTermination.RankedEnds | graveyard6/rbpa.rs:105-125 | If moreover no silent rule may follow itself, the number of rounds has a bound that can be computed beforehand. |
| RbpaTermination.EliminatedOrdered | graveyard6/rbpa.rs:107-121 | Eliminating the first silent rule keeps the others in order and moves them forward; the compositions behind them never follow themselves. |
| RbpaTermination.CircleEnds | graveyard6/rbpa.rs:105-125 | A circle need not go on for ever: the rules [F]->[T] and [T]->[F] follow each other, and at most two rounds can be made. |
| RbpaTermination.EliminatedWeighted | graveyard6/rbpa.rs:107-121 | Eliminating a silent rule makes the silent rules lighter: its compositions weigh less than it did. |
| RbpaElimination.WeakIsOneRule | graveyard6/rbpa.rs:105-106 | Without silent rules a visible step is a single rule. |
| RbpaMerging.TryMerge | graveyard6/rbpa.rs:261-301 | When two rules are merged and into what, by the sets of states of guards and assignments: the rule whose guard contains the other's is kept exactly if the assignments are equal or contain each other strictly the same way round; rules with incomparable guards become one exactly if the assignments are equal and the guards are opposed in a single variable. |
| RbpaMerging.MergedExact | graveyard6/rbpa.rs:261-301 | Rules are merged whenever one covers the other or both are halves of one; the result has the steps of both exactly in these cases. |
| RbpaMerging.HalvesUnite | graveyard6/rbpa.rs:275-299 | Two rules split at one variable are united exactly if they share their port. |
| RbpaMerging.Subsumed | graveyard6/rbpa.rs:267-274 | Keeping the more generic rule is right exactly if it covers the other, port and assignments included. |
| RbpaMerging.MergesTooMuch | graveyard6/rbpa.rs:267-274 | The subsumption test accepts rules of different ports, and rules whose steps differ. |
| RbpaMasking.MaskingExact | graveyard6/rbpa.rs:83-104 | Masking variables that no guard reads changes no sequence of ports that is possible from any state. |
| RbpaMasking.HidingExact | graveyard6/rbpa.rs:392-403 | After hiding ports, a visible step is one on a kept port after any number of hidden or silent steps. |
| PortAutomaton.Rbpa.EliminateSilent | graveyard6/rbpa.rs:105-125 | One round in place: removes the first silent rule, adds its compositions and merges, or only removes it if it has no effect. |
| PortAutomaton.Rbpa.EliminateAll | graveyard6/rbpa.rs:105-125 | The elimination loop, cut off after any number of rounds: these are the rounds specified, it stops early only without silent rules, and it keeps all visible traces unless a wrong pair was merged. |
| PortAutomaton.Rbpa.MergeRules | graveyard6/rbpa.rs:139-156 | Merges first pairs until no two rules can be merged, and keeps all visible traces unless a wrong pair was merged. |
| PortAutomaton.Rbpa.FirstMerge | graveyard6/rbpa.rs:141-153 | The scan finds the first pair, row by row, that can be merged, or that there is none. |
| PortAutomaton.Rbpa.MaskIrrelevantVars | graveyard6/rbpa.rs:83-104 | A variable stays in use exactly if some guard reads it; in every rule those put out of use become generic and everything else stays; reports whether there were any; what is possible from every state is kept. |
| PortAutomaton.Rbpa.HidePorts | graveyard6/rbpa.rs:392-403 | Makes exactly the rules of other ports silent. |
| Storage.Storage.Alloc | src/proto/memory.rs:69-88 | Never returns an owned pointer; reuses a free slot of the same layout if there is one. |
| Storage.Storage.MoveIn | src/proto/memory.rs:35-39 | Adds the value at a new pointer; all other values stay. |
| Storage.Storage.CloneIn | src/proto/memory.rs:40-44 | Adds the clone at a new pointer, all other values stay; if the type cannot be cloned it fails, and the slot stays owned with what it held. |
| Storage.Storage.MoveOut | src/proto/memory.rs:45-48 | Returns the value and frees its slot under its own layout. |
| Storage.Storage.ForgetInside | src/proto/memory.rs:52-54 | Frees the slot without dropping. |
| Storage.Storage.DropInside | src/proto/memory.rs:55-58 | Drops the value once and frees the slot. |
| Storage.Storage.InnerFree | src/proto/memory.rs:90-96 | Keeps the allocator invariant: owned and free disjoint, free lists duplicate-free and sorted by layout, types known. |
| Storage.Storage.Drop | src/proto/memory.rs:98-113 | Drops every value at rest exactly once and deallocates every allocation, none twice. |
| Storage.Storage.ShrinkToFit | src/proto/memory.rs:59-67 | Deallocates every free slot once and nothing that is owned, and forgets all layouts. |
| Storage.NothingLost | src/proto/memory.rs:35-58 | Over any sequence of operations a value is stored as often as it was put in, less the times it was taken, forgotten or dropped. |
| Storage.Serve | src/proto/memory.rs:35-96 | Any sequence of requests to a storage: each is served as asked, up to the first that clones a type without clone or names a pointer that is not owned; every value that was there or came in was handed out, dropped, forgotten, or is still there. |
| Storage.ServesMeans | src/proto/memory.rs:35-58 | What serving a request means for the values at rest: put as it is, put as its clone, taken, forgotten or dropped. |
| Rendezvous.RunSafe | graveyard2/reo.rs:121-278 | In every run of all operations the two sides agree on the next barrier, no wrong signal or stale pointer occurs, and each datum is accounted for. |
| Rendezvous.Safe | graveyard2/reo.rs:296-317 | The same from a new port. |
| Rendezvous.TakenIffReceived | graveyard2/reo.rs:198-228 | A put ends without its datum exactly if a get receives it, and is given it back otherwise. |
| Rendezvous.OwnDatum | graveyard2/reo.rs:162-228 | In every run each datum a get has received, and each a put has given back, is the argument of its own put; puts are received and given back in order, none twice and none both. |
| Rendezvous.GetCompletes | graveyard2/reo.rs:162-181 | After any run in which a put waits and the getter is free, a get runs through, receives the argument of that put and ends it. |
| Rendezvous.PeekCompletes | graveyard2/reo.rs:121-161 | In the same situation a peek of either kind runs through, holds the put at its second barrier and leaves the datum with it. |
| Rendezvous.NothingMet | graveyard2/reo.rs:337-351 | A free getter that meets no put is as before, and what is frozen already can be frozen again without effect. |
| Rendezvous.FreezeThaw | graveyard2/reo.rs:337-366 | Freezing a waiting put and thawing it again changes nothing. |
| Rendezvous.WhoGivesUp | graveyard2/reo.rs:229-278 | In every run only a timed put, or one whose getter is gone, gives up; only a timed peek, or an operation whose putter is gone, fails. |
| Rendezvous.PutGivesUp | graveyard2/reo.rs:229-278 | After any run in which a put waits at its first barrier, if it was begun with a timeout it can give up and has its argument back. |
| Rendezvous.RightBarrier | graveyard2/reo.rs:198-228 | In every run the getter finds the put at the barrier it signals to, and uses the shared pointer only while the latest put, which set it, is held at its second barrier. |
| Closure.TestCompatible | graveyard4/rba_builder.rs:57-64 | The loop decides whether some concrete state is described by both. |
| Closure.InternalClose | graveyard4/rba_builder.rs:247-263 | Terminates, for any number of variables, with exactly the partial states reachable in one or more steps; this is the least set with all successors of the start and of its own members. |
| Closure.AllReached | graveyard4/rba_builder.rs:247-263 | Every set closed under the rules that has the start's successors contains all reachable states: the closure is the least. |
| Closure.ClosureSound | graveyard4/rba_builder.rs:96-107 | Every concrete state reachable from one that the start describes is described by some member. |
| Closure.StepExact | graveyard4/rba_builder.rs:96-107 | A step describes only what can happen exactly if everything the guard teaches is known or reassigned. |

## Left out

- Port groups, tentative readiness and commitments: unfinished in the source and without effect while no port is tentative.
- Memory cells that start full: their reference counts are seeded with location numbers. In the coordinator all cells start empty.
- Cells that feed themselves are modelled by the compiler and its masks, not in the coordinator: their firing counts the cell
  as its own holder and never raises its readiness again.
- RunSafe, EveryRunRefines, Conservation: hold of runs in scope; `ScopeIsExact` proves that the others go wrong, and how.
- OutOfScopeGoesWrong: asks that the lock holder can release the lock, which it always can if every rule involves a port;
  `Boundary` shows rules between cells alone with which it can go on for ever.
- Several data types in one protocol: the coordinator's model has one. Type mismatches are caught by the compiler, which is modelled.
- Guards are predicates of the memory bits: formula evaluation (whose conjunction is negated), equality of values, temporaries
  and function guards are not modelled.
- The coordinator's storage is a map in which any unused slot may be taken; `Storage` models recycling by itself.
- Channels, the mutex, atomics and the semaphore are single steps; a weaker memory order than sequential consistency is not
  modelled, and the code asks for none.
- `put_timeout` with its moved case, which does not forget the datum: the model's timed put follows `put_timeout_lossy`.
- The lock-free half of a getter's work stays a step machine: a sequential method could not show the interleavings. `Coordinator`
  covers the lock holder's code.
- ExhaustRules: termination is claimed only where the step machine has a bound on the firings, as it does if every rule
  involves a port; `Boundary` shows rules between cells alone that fire for ever.
- BuildRules: registering the functions that a formula names is a side effect on the builder and is not modelled.
- RuntimeFaithful: asks readiness to have enough chunks. Readiness is not padded in the source, so above 64 locations a rule can be
  tested on too few chunks; `GuardExact` gives the exact condition.
- EliminateAll: the source's loop has no cut-off and, as `NeverEnds` proves, need not end.
- NormalizationEnds: the condition is sufficient. It is not necessary: `CircleEnds` and `NeverEnds` are two circles of two rules,
  and whether a circle ends depends on what all later compositions and merges turn out to be.
- The last loop of `normalize`, which alternates masking and merging, is not one method; both of its operations are modelled.
- `AndIter`, `or_with`, capacities and debug printing of bit sets.
- ShrinkToFit: says nothing of the allocator invariant when values are still owned. Their layouts have no free list any more, so
  the code's next `inner_free` of such a layout would fail; the code calls it on dropping only.
- Claiming and dropping ports, and threads that wait for a protocol state.
- Readiness registration with `mio` in the rendezvous, and its memory cells.
- `src/rbpa.rs` is not part of the build; the other prototypes in the graveyard directories are not modelled.
