# Tessera: runtime protocol, parser and evaluator

A Dafny model of three parts of the Tessera language implementation, and proofs of what they promise.

**The thread runtime.** Each Tessera thread is an event loop that selects between a terminate signal, its
body, a mailbox of handler requests and a "gate changed" wakeup, while handlers run as tasks of their own
and other threads dispatch and terminate concurrently. `ThreadProtocol` is that system as a step relation,
one step from one await to the next; `ThreadInvariants` is what every step keeps, `ThreadTheorems` what
follows for every interleaving, and `EventLoop` the loop in its own imperative form, proved to be a run of
the protocol whatever the others do. The primitives it rests on are modelled down to tokio's `Notify`
(`Notify`), each as a step relation and as an object: contracts (`ContractMachine`, `Contracts`), signals
(`SignalMachine`, `Signals`), permits (`Permits`), locked values (`LockedMachine`, `LockedValue`), the two
futures (`FutureMachine`, `HandlerFutureMachine`, `Futures`), and the ownership that breaks primitives
with their thread (`OwnershipMachine`, `OwnedPrimitives`).

**The parser.** `Grammar` and `GrammarStmts` say, as functions of the tokens left and the errors so far,
what tree, errors and rest every sub-parser computes on every token sequence; `Parsers` is the parser
object, each method proved to terminate and to compute that. `Precedence` says which operator binds
tighter without binding powers, and `ParserFacts` what is told by the spelling of a name. `RoundTrip` and `RoundTripStmts` print
expressions and whole programs and prove that parsing inverts printing; `ErrorFree` that whatever is
read without an error can be printed, so that printing picks one spelling of every program.
`Unescape` is the lexer's treatment of escapes.

**The evaluator and its lints.** `Values` and `Evaluator` are the evaluator as functions of one task's
state, `Interpreters` the same as the objects of the source, proved equal; `Fuel` shows that the bound on
steps does not matter (`Cutoff` is its part about expressions). `EvalFacts`, `OperatorFacts`, `HeapFacts` and `CallFacts` say
what the helpers mean: names, operators and types, what a script builds, calls and the order of things.
`Reference` is an independent semantics with explicit outcomes for `break`, `continue` and `return`. The
evaluator writes `break` as the value `Never`; `Faithful` proves that encoding right for every program that
obeys the rule of the loop lint (`LoopRule`), on every run but those that stray: that come to a `for`
whose clause is left, or to statements behind a `continue`. A guarded reference run stops there, `Guard`
shows that it is the reference run otherwise, `LoopTheorems` has the exact conditions, and `Tasks` what
follows for threads and for what tasks deliver to one another. `BreakLint` and `ReturnLint` are the two
control-flow lints and what the programs they accept gain from it, `ConstFold` proves that the constant
folder agrees with the evaluator, and `ScopeDiscipline` what is left of the scope chain after a run.

## How to read the model

- Tasks are cooperative: a step runs from one await to the next. Taking an uncontended lock counts as an
  await. `Notify`, `watch`, one-shot and bounded channels and the semaphore follow their documentation.
- The exclusive flag is a cell that the thread's user code may set to anything at any time. This covers
  the code as it is, where `set_exclusive` sends on a `watch` that may have no receiver and such a send
  is discarded, and the code as its comments intend. `handler_in_flight` has a live receiver while the
  loop runs, and its discarded sends afterwards are modelled.
- In `EventLoop` the script of what callers, user code and the scheduler do is a field; in `Evaluator` the
  answers of other tasks to an operation that leaves the task (a method call, an await, a spawn) are a
  list in the state, with the heap they leave behind. Theorems about the event loop hold for every script,
  and those about fuel, scopes, constants and the objects of the evaluator for every list. Those about
  `Never` (`PlainValues`, `Faithful`, `LoopTheorems`, `Tasks` and both lints) assume that values, heap and
  answers are plain, that is free of `Never`; `NobodyDeliversNever` shows that tasks that obey the loop
  rule, and are started plain, give one another no other answers.
- Tokens are grouped by what the parser does with them. Every token of the lexer is one of: an infix
  operator, a type keyword, a literal, an identifier, or a mark told apart by number.
- A writable tree is one the grammar has a spelling for: literals in range, calls of names that are not
  constructors, hooks that bear their names. `WritableIffParsed` shows that these are exactly the trees
  that are read without an error. The printer parenthesises an operand only where it binds less
  tightly than its place, and always the left operand of `<`, because a name before `<` may look like
  a constructor with type arguments.

## Where code and documentation differ

The model follows the code. Each item has a lemma in the table.

- The loop reads the exclusive flag once per turn, and the end of an exclusive block wakes nobody: a
  queued request then waits for the body (`StaleExclusiveSnapshotSleeps`, `WakesIff`), and so does a
  deferred termination (`DeferredTerminationSleeps`, `DeferredTerminationWaits`).
- `continue` does nothing (`ContinueIsSkipped`), which shows exactly when something follows it
  (`ListIsFaithfulIff`). What a clause of a `for` gives is dropped: a `return` (`ForDropsAReturn`), and a
  `break` or `continue` of the loop around, which parser and lint allow there (`ForDropsABreak`); the
  first clause shows it exactly when it is left (`ForIsFaithfulIff`), an update exactly when it is left
  from some state (`UpdateIsFaithfulIff`).
- A caught error of a call leaves scopes behind (`TryLeaksAScope`), exactly when the call accepts its
  arguments (`CaughtCallLeaksIff`).
- The lint on assertions speaks of provably constant conditions, but orders characters and strings, which
  the evaluator rejects (`OrderedCharsDoNotRun`).
- The arity check lets an argument be left out for a default, but no default is ever evaluated: the name
  is then not bound (`DefaultsAreNotBound`).
- The lookahead for type arguments takes a comparison of names such as `a < b > c` for a constructor
  (`NameTakenForAConstructor`); these are the only chains `ChainReads` leaves out.
- A scope block with an anonymous template cannot be written at the top level
  (`AnonymousScopeBlockIsLostAtTheTop`).
- A resolver dropped while it waits for the channel makes every later `resolve` of that future panic
  (`PolledTwiceIffCancelledMidWait`, `PolledTwiceHappens`).

## Model

| member | source | states |
|---|---|---|
| `ThreadInvariants.StepKeepsInv` | crates/tessera-interp/src/event_loop.rs:28-322 | every step of the loop task, of a handler task, of a caller or of `terminate` keeps the request, handler, gate, lifecycle and hook invariants |
| `ThreadInvariants.RunInv` | crates/tessera-interp/src/event_loop.rs:28-322 | so they hold after every finite interleaving from the start of a thread |
| `ThreadTheorems.HandlersRunOneAtATimeInOrder` | crates/tessera-interp/src/event_loop.rs:309-383 | R-HANDLER-2: in every interleaving the trace of handler bodies is start, end, start, end, …, and the j-th pair belongs to a request placed in the mailbox before that of the next |
| `ThreadTheorems.GateMeansOneHandler` | crates/tessera-runtime/src/thread_state.rs:231-243 | while the loop runs, the gate flag is set exactly when one handler is outstanding; there is never a second, not even after the loop has returned |
| `ThreadTheorems.StartsOnlyWhenAllowed` | crates/tessera-interp/src/event_loop.rs:353-373 | a handler body never starts while the thread is exclusive, and only for a request that was accepted while the status was Running, for a declared handler with its number of arguments |
| `ThreadTheorems.DispatchFollowsTheTemplate` | crates/tessera-interp/src/event_loop.rs:339-390 | the handler arm accepts the oldest request and spawns its task behind the gate exactly if the template declares the handler; otherwise the answer is TargetCrashed |
| `ThreadTheorems.BodiesGetTheirArguments` | crates/tessera-interp/src/eval.rs:1048-1057 | a spawned handler starts its body exactly if it was given as many arguments as it declares; otherwise it never starts and the gate is free again |
| `ThreadTheorems.DispatchLearnsTheStatus` | crates/tessera-runtime/src/thread_state.rs:172-191 | a call of a thread that is not running ends with the error of exactly its status; a running one answers a ping at once and is sent any other request |
| `ThreadTheorems.LaterCallsAreToldTheEnd` | crates/tessera-runtime/src/thread_state.rs:172-182 | in every continuation after the task has returned, each later call is told TargetTerminated if the result was Ok, and TargetCrashed if it was a failure |
| `ThreadTheorems.DrainedRequestsLearnTheStatus` | crates/tessera-interp/src/event_loop.rs:432-436 | a drained request is refused with the error of the status the thread has just taken; the only other refusal is that of an undeclared handler |
| `ThreadTheorems.CallersLearnTheFate` | crates/tessera-runtime/src/thread_state.rs:194-206 | a caller goes away with what became of its request: a future if it was dispatched, the error it was rejected with, TargetCrashed if it was dropped |
| `ThreadTheorems.SendersWaitForRoom` | crates/tessera-runtime/src/thread_state.rs:197-199 | sending waits exactly while the mailbox of a living thread holds 64 requests, and puts the request at its end |
| `ThreadTheorems.RequestsAreConserved` | crates/tessera-interp/src/event_loop.rs:339-390 | a request ever placed is in exactly one of queued, dispatched, rejected and dropped; its answer channel was used once in the middle two cases and never otherwise; the mailbox holds at most 64 |
| `ThreadTheorems.SettledIsFinal` | crates/tessera-interp/src/event_loop.rs:345-388 | a dispatched, rejected or dropped request is never answered again or moved by any step |
| `ThreadTheorems.NobodyWaitsForADeadThread` | crates/tessera-runtime/src/thread_state.rs:171-206 | once the task has returned, every caller waiting for its dispatch answer can go on, and every caller still sending gets TargetCrashed |
| `ThreadTheorems.NoLostWakeup` | crates/tessera-interp/src/event_loop.rs:163-171 | with a fresh exclusive snapshot and no deferred termination, a queued request and a free gate leave the handler arm or the gate arm enabled, however stale the busy snapshot is |
| `ThreadTheorems.WakesIff` | crates/tessera-interp/src/event_loop.rs:309-319 | the exact condition for a suspended body and an unterminated thread: an arm is enabled if and only if the loop slept non-exclusive or behind a running handler |
| `ThreadTheorems.StaleExclusiveSnapshotSleeps` | crates/tessera-interp/src/event_loop.rs:170 | the other case is reachable: the exclusive block has ended, a request is queued, nothing runs, and only the body can wake the loop |
| `ThreadTheorems.DeferredTerminationWaits` | crates/tessera-interp/src/event_loop.rs:170-230 | a sleeping loop with a deferred termination hears neither the terminate signal nor requests, and without a running handler wakes for the gate if and only if one was running when it fell asleep |
| `ThreadTheorems.DeferredTerminationSleeps` | crates/tessera-interp/src/event_loop.rs:170-230 | such a loop is reachable after the exclusive block has ended, with nothing but the body to wake it |
| `ThreadTheorems.StatusOnlyMovesForward` | crates/tessera-runtime/src/thread_state.rs:118-134 | the status never returns to Running and never leaves a terminal status |
| `ThreadTheorems.LifecycleAgreement` | crates/tessera-interp/src/event_loop.rs:75-304 | on every exit path the termination result is sent exactly once; it is Ok if and only if the final status is Terminated, and Failed(m) if and only if it is Crashed(m) |
| `ThreadTheorems.HooksRunOnceInOrder` | crates/tessera-interp/src/event_loop.rs:394-429 | every hook runs at most once and in the order enter, terminate, exit, and the terminate receiver is never polled after it has fired |
| `ThreadTheorems.HooksAreTheTemplates` | crates/tessera-interp/src/event_loop.rs:394-405 | only hooks the template declares ever run, and inside the loop its enter hook has run, without an error, if it has one |
| `ThreadTheorems.TerminationRunsBothHooks` | crates/tessera-interp/src/event_loop.rs:274-293 | once termination was observed, both teardown hooks have run when the task returns, even if the first failed or the body had crashed, and the outcome is the first hook error |
| `ThreadTheorems.OrdinaryEnd` | crates/tessera-interp/src/event_loop.rs:255-300 | without termination `__on_terminate__` never runs and `__on_exit__` runs exactly when the body ended without an error |
| `ThreadTheorems.EndOfTheBody` | crates/tessera-interp/src/event_loop.rs:233-303 | a crash of the body ends the thread unless somebody has asked it to terminate, in which case it is torn down; an ordinary end behind a deferred termination is torn down too |
| `EventLoop.ThreadTask.RunThreadTask` | crates/tessera-interp/src/event_loop.rs:28-322 | every execution of the loop, whatever the others do in between, is a run of the protocol; a finished one has reported once, Ok exactly when Terminated, and left no request behind |
| `EventLoop.ThreadTask.Start` | crates/tessera-interp/src/event_loop.rs:37-148 | field initialisers, arity check, `__on_enter__` and the terminate bundle, with the crash path of each |
| `EventLoop.ThreadTask.Loop` | crates/tessera-interp/src/event_loop.rs:169-321 | the select loop follows the protocol turn by turn until the task has returned or waits |
| `EventLoop.ThreadTask.Turn` | crates/tessera-interp/src/event_loop.rs:169-319 | one turn: the snapshots, the deferred teardown, and the arm that fires |
| `EventLoop.ThreadTask.EnabledIsAccepted` | crates/tessera-interp/src/event_loop.rs:193-319 | the loop misses nothing: every step the protocol enables for it where it sits is one it accepts |
| `EventLoop.ThreadTask.OnTerminateSignal` | crates/tessera-interp/src/event_loop.rs:206-230 | the terminate arm: Terminating, an emptied mailbox, and teardown now or deferred by the stale snapshot |
| `EventLoop.ThreadTask.OnBody` | crates/tessera-interp/src/event_loop.rs:233-303 | the body arm: teardown over a crash when termination was asked for, `__on_exit__` otherwise |
| `EventLoop.ThreadTask.DispatchInline` | crates/tessera-interp/src/event_loop.rs:339-390 | the oldest request is answered and, if its handler exists, gets a task behind the claimed gate |
| `EventLoop.ThreadTask.DrainHandlers` | crates/tessera-interp/src/event_loop.rs:432-436 | every queued request is answered with the error, each once, and the mailbox is empty |
| `EventLoop.ThreadTask.Teardown` | crates/tessera-interp/src/event_loop.rs:411-429 | both teardown hooks run, and the first error is the one reported |
| `EventLoop.ThreadTask.HandlerTurn` | crates/tessera-interp/src/event_loop.rs:362-382 | a handler task waits while the thread is exclusive, runs, and releases the gate before its outcome is delivered |
| `EventLoop.ThreadTask.CallerTurn` | crates/tessera-runtime/src/thread_state.rs:171-206 | one segment of a dispatch: the status check, the send, and the answer |
| `EventLoop.ThreadTask.ReportAndReturn` | crates/tessera-interp/src/event_loop.rs:178-190 | the final status, the drained mailbox and the one termination result |
| `OwnershipMachine.StepKeepsInv` | crates/tessera-interp/src/eval.rs:1016-1039 | exposing, breaking a scope and changing a status keep the ownership invariant |
| `OwnershipMachine.OwnedByAtMostOneThread` | crates/tessera-runtime/src/signal.rs:43-51 | in every run each primitive is in the owned list of at most one thread, once |
| `OwnershipMachine.DeadThreadsBreakWhatTheyOwned` | crates/tessera-runtime/src/thread_state.rs:118-134 | everything a terminated or crashed thread owned at that moment is broken |
| `OwnershipMachine.FirstReasonStays` | crates/tessera-runtime/src/signal.rs:169-177 | a broken reason never changes, and it is the fate of the owner or of the scope that broke the primitive |
| `OwnedPrimitives.BreakEach` | crates/tessera-runtime/src/thread_state.rs:118-134 | every primitive of the list is broken afterwards, the first reason of each unchanged |
| `OwnedPrimitives.BreakScope` | crates/tessera-interp/src/eval.rs:438-453 | a scope breaks its primitives with ScopeCrashed exactly when its body crashed |
| `OwnedPrimitives.ThreadState.SetStatus` | crates/tessera-runtime/src/thread_state.rs:118-134 | a terminal status breaks all owned primitives with the reason it stands for, and no other status breaks any |
| `OwnedPrimitives.ThreadState.Expose` | crates/tessera-interp/src/eval.rs:1027-1038 | a primitive joins the owned list exactly when this exposure claims it |
| `ContractMachine.StepKeepsInv` | crates/tessera-runtime/src/signal.rs:222-279 | every step of fulfil, break, wait and cancellation keeps the invariant of waiters, permit and pending flag |
| `ContractMachine.NotificationsAreLinear` | crates/tessera-runtime/src/signal.rs:222-269 | over every run, fulfils that set `pending` = waits that consumed it + (1 if pending) |
| `ContractMachine.NoStuckWaiter` | crates/tessera-runtime/src/signal.rs:245-269 | between two turns a waiter is parked beside a pending notification only if another holds an undelivered wakeup, and nobody is parked on a broken contract |
| `ContractMachine.PendingOnlyConsumed` | crates/tessera-runtime/src/signal.rs:251-279 | only a successful wait clears `pending`; breaking does not, and the first reason stays |
| `ContractMachine.FailsOnlyWhenBroken` | crates/tessera-runtime/src/signal.rs:251-269 | a wait fails only on a broken contract without a pending notification, with the recorded reason |
| `Contracts.Contract.Fulfill` | crates/tessera-runtime/src/signal.rs:222-228 | sets `pending` unless broken, and notifies one waiter only when it set it |
| `Contracts.Contract.BreakWith` | crates/tessera-runtime/src/signal.rs:271-279 | keeps the first reason and the pending notification, and wakes every parked waiter |
| `Contracts.Contract.IsPending` | crates/tessera-runtime/src/signal.rs:231-234 | true after a `fulfill` exactly on a contract that is not broken, and never on a broken one |
| `Contracts.Contract.PollWait` | crates/tessera-runtime/src/signal.rs:251-269 | one turn of a wait: a waiter still parked stays where it is; any other consumes, fails, or parks without missing a notification |
| `Contracts.Contract.CancelWait` | crates/tessera-runtime/src/signal.rs:251-269 | dropping a waiter hands an undelivered wakeup on and loses none |
| `Contracts.Contract.TryClaimOwnership` | crates/tessera-runtime/src/signal.rs:243 | only the first claim wins |
| `SignalMachine.NoSleeperOnRaisedOrBroken` | crates/tessera-runtime/src/signal.rs:121-177 | between two turns no waiter is parked while the signal is raised or broken |
| `SignalMachine.WaitOutcome` | crates/tessera-runtime/src/signal.rs:155-166 | a wait succeeds exactly on a raised signal, broken or not, and fails exactly on one that is broken and not raised |
| `SignalMachine.StepKeepsInv` | crates/tessera-runtime/src/signal.rs:121-177 | every step of raise, reset, break and wait keeps the invariant of flag and waiters |
| `Signals.Signal.Raise` | crates/tessera-runtime/src/signal.rs:121-127 | raises and wakes all, unless broken |
| `Signals.Signal.Reset` | crates/tessera-runtime/src/signal.rs:130-135 | lowers the flag, unless broken |
| `Signals.Signal.BreakWith` | crates/tessera-runtime/src/signal.rs:169-177 | the first break records its reason and wakes all; a later one does nothing |
| `Signals.Signal.IsRaised` | crates/tessera-runtime/src/signal.rs:138-141 | true after a `raise` exactly on a signal that is not broken, never after a `reset` or on a broken one |
| `Signals.Signal.PollWait` | crates/tessera-runtime/src/signal.rs:155-166 | one turn of a wait: raised wins over broken, and otherwise the waiter parks, once |
| `Permits.AddPermitsServesOldest` | crates/tessera-runtime/src/signal.rs:315-326 | n released permits go to the n oldest waiters, and only the rest is stored |
| `Permits.AddPermitsConserves` | crates/tessera-runtime/src/signal.rs:315-326 | no permit is lost or made, and no waiter sleeps beside a free one |
| `Permits.Permit.ReleaseN` | crates/tessera-runtime/src/signal.rs:321-326 | adds the permits unless closed, and accounts for them |
| `Permits.Permit.BreakWith` | crates/tessera-runtime/src/signal.rs:357-365 | closes the semaphore with a recorded reason, the first one |
| `Permits.Permit.Count` | crates/tessera-runtime/src/signal.rs:328-331 | nothing on a closed semaphore; when it is not zero the next acquirer gets a permit |
| `Permits.Permit.PollAcquire` | crates/tessera-runtime/src/signal.rs:344-354 | one turn of an acquire: a permit, the recorded reason of a closed semaphore, or a place in the queue, which is kept at the next turn |
| `Permits.Permit.CancelAcquire` | crates/tessera-runtime/src/signal.rs:344-354 | dropping an acquirer returns what it was granted |
| `LockedMachine.StepKeepsInv` | crates/tessera-runtime/src/locked.rs:51-126 | every step of the cooperative scheduler keeps the invariant of owner and waiters |
| `LockedMachine.NoSleeperOnFreeLock` | crates/tessera-runtime/src/locked.rs:51-126 | in every cooperative run nobody is parked while the lock is free |
| `LockedMachine.PreemptionLosesTheWakeup` | crates/tessera-runtime/src/locked.rs:51-66 | without the cooperative scheduler the check and the park can be separated, and the waiter sleeps on a free lock |
| `LockedMachine.HeldValueIsStable` | crates/tessera-runtime/src/locked.rs:102-126 | while the lock has an owner the value does not change and only its owner releases it |
| `LockedValue.TesseraLocked.TryLock` | crates/tessera-runtime/src/locked.rs:68-77 | takes a free lock, refuses a held one, and reports a reentrant attempt |
| `LockedValue.TesseraLocked.Unlock` | crates/tessera-runtime/src/locked.rs:79-89 | only the owner frees the lock, and then all waiters are woken |
| `LockedValue.TesseraLocked.PollOp` | crates/tessera-runtime/src/locked.rs:51-126 | one turn of `lock`, `get` or `set`: acts on a free lock, parks on a held one, and stays where it is while it was not woken |
| `FutureMachine.ClonesAgree` | crates/tessera-runtime/src/future.rs:41-52 | in every run all clones that return give the same outcome, which is the stored one |
| `FutureMachine.PolledTwiceIffCancelledMidWait` | crates/tessera-runtime/src/future.rs:41-52 | the "polled twice" expect fires for the next resolver if and only if an earlier one was dropped in the middle of its wait |
| `FutureMachine.PolledTwiceHappens` | crates/tessera-runtime/src/future.rs:41-52 | and it does fire: a run in which one resolver takes the receiver, is dropped, and the next one panics |
| `FutureMachine.CancelledMidWaitIsForever` | crates/tessera-runtime/src/future.rs:41-52 | and then the future stays unresolved for ever |
| `FutureMachine.ResolvedIsFinal` | crates/tessera-runtime/src/future.rs:41-52 | a resolved future never changes, and what it holds is what the channel delivered |
| `FutureMachine.ReturnsWhatWasSent` | crates/tessera-runtime/src/future.rs:41-52 | in every run, what a clone returns is what the sender sent, or "sender dropped" if it was dropped without sending |
| `FutureMachine.ResolversProgress` | crates/tessera-runtime/src/future.rs:41-52 | a resolver that waits can go on once the sender has sent or gone |
| `HandlerFutureMachine.StepKeepsInv` | crates/tessera-runtime/src/future.rs:160-219 | every step of the resolve loop keeps the invariant of state, channels and holder |
| `HandlerFutureMachine.ClonesAgree` | crates/tessera-runtime/src/future.rs:160-219 | all clones of a handler future that return give the same result |
| `HandlerFutureMachine.PolledTwiceIffCancelledMidWait` | crates/tessera-runtime/src/future.rs:160-219 | the first expect of the loop fires if and only if a resolver was dropped in the middle of its wait |
| `HandlerFutureMachine.DroppedThenPanics` | crates/tessera-runtime/src/future.rs:160-219 | in every run: if the resolver that awaits a channel is dropped, the next resolver panics |
| `HandlerFutureMachine.PolledTwiceHappens` | crates/tessera-runtime/src/future.rs:160-219 | and the panic is reached, with the dispatch answer awaited and with the execution awaited |
| `HandlerFutureMachine.LaterRoundsNeverPanic` | crates/tessera-runtime/src/future.rs:160-219 | the later expects of the loop never fire |
| `HandlerFutureMachine.TerminalIsFinal` | crates/tessera-runtime/src/future.rs:58-95 | a terminal state never changes |
| `HandlerFutureMachine.ReturnsWhatWasDelivered` | crates/tessera-runtime/src/future.rs:160-219 | in every run, a resolver returns what the channels delivered: the value or failure of an accepted execution, or why the request was not dispatched, with the two answers for dropped channels |
| `HandlerFutureMachine.QueriesAgree` | crates/tessera-runtime/src/future.rs:113-158 | with the guard free, done is exactly ok or err and never both, the error text speaks exactly for err, and the queries agree with every resolver that returned |
| `Futures.TesseraFuture.PollResolve` | crates/tessera-runtime/src/future.rs:41-52 | one turn of `resolve`: ready, waiting for the guard, waiting for the channel, or polled twice |
| `Futures.TesseraHandlerFuture.PollResolve` | crates/tessera-runtime/src/future.rs:160-219 | one turn of the loop, which may pass from the dispatch answer to the execution |
| `Futures.TesseraHandlerFuture.Advance` | crates/tessera-runtime/src/future.rs:160-219 | the round after the dispatch answer: a rejection is final, an acceptance waits for the execution |
| `Unescape.UnescapeText` | crates/tessera-lexer/src/token.rs:316-372 | the loop computes the meaning of the text, head by head |
| `Unescape.ScanHex` | crates/tessera-lexer/src/token.rs:336-343 | reads at most six hexadecimal digits and says whether a brace closes them |
| `Unescape.PieceMeaning` | crates/tessera-lexer/src/token.rs:319-366 | each kind of piece (plain character, letter escape, `\u{…}`, unknown or malformed escape) reads as what it denotes before any text it can stand before |
| `Unescape.UnescapesEveryPiece` | crates/tessera-lexer/src/token.rs:316-372 | a text made of such pieces reads as what they denote: unrecognised and malformed escapes verbatim |
| `Unescape.EveryTextHasPieces` | crates/tessera-lexer/src/token.rs:316-372 | and every text is made of such pieces |
| `Unescape.LetterEscapes` | crates/tessera-lexer/src/token.rs:321-330 | a backslash and one of seven letters is the character of its code (10, 9, 13, 34, 39, 92, 0); before any other letter but `u` both characters stay |
| `Unescape.HexDigits` | crates/tessera-lexer/src/token.rs:336-343 | the hexadecimal digits are sixteen in either case, each worth its place |
| `Unescape.CodeEscapes` | crates/tessera-lexer/src/token.rs:333-366 | up to six digits in braces are the character of the number they write, read from the front, if that is a scalar value, and stay as they are otherwise |
| `Unescape.SevenDigitsAreNoCode` | crates/tessera-lexer/src/token.rs:336-343 | with more digits they are never a code |
| `Unescape.EveryCharacterHasACode` | crates/tessera-lexer/src/token.rs:333-349 | every scalar value has a `\u{hex}` spelling of six digits that reads back |
| `Unescape.EscapeRoundTrip` | crates/tessera-lexer/src/token.rs:316-372 | whatever spelling is chosen for each character of a string, the text reads back as the string |
| `Parsers.Parser.Advance` | crates/tessera-parser/src/parser.rs:49-84 | never called past the end; consumes one token, and the open delimiters stay the bracket scan of the consumed prefix |
| `Parsers.Parser.Expect` | crates/tessera-parser/src/parser.rs:93-137 | consumes the token or records one error and stays |
| `Parsers.Parser.Eat` | crates/tessera-parser/src/parser.rs:139-141 | consumes the token if it is next and reports nothing |
| `Parsers.Parser.ExpectIdent` | crates/tessera-parser/src/parser.rs:143-158 | a name, or one error and the error name |
| `Parsers.Parser.ParseProgram` | crates/tessera-parser/src/parser.rs:166-201 | terminates on every token sequence with all tokens read, the tree and errors the grammar says, and the open delimiters of the whole input |
| `Parsers.Parser.ParseScopeTemplateDecl` | crates/tessera-parser/src/parser.rs:205-215 | terminates and computes `Scope`, with the type-context flag down before and after |
| `Parsers.Parser.ParseScopeTemplateBody` | crates/tessera-parser/src/parser.rs:217-226 | the member loop: every turn consumes a token, although a member's parts may consume none |
| `Parsers.Parser.ParseScopeTemplateMember` | crates/tessera-parser/src/parser.rs:228-243 | the hook is chosen by name alone |
| `Parsers.Parser.ParseThreadTemplateDecl` | crates/tessera-parser/src/parser.rs:247-257 | terminates and computes `Thread` |
| `Parsers.Parser.ParseThreadTemplateBody` | crates/tessera-parser/src/parser.rs:259-268 | the member loop and its recovery, one token at a time |
| `Parsers.Parser.ParseThreadTemplateMember` | crates/tessera-parser/src/parser.rs:270-360 | fields, async members, hooks by kind and name, and the placeholder for anything else |
| `Parsers.Parser.ParseAsyncMember` | crates/tessera-parser/src/parser.rs:287-327 | a handler, an async function, or a skipped token |
| `Parsers.Parser.FinishFuncDef` | crates/tessera-parser/src/parser.rs:383-390 | parameters, result type and body |
| `Parsers.Parser.ParseParamList` | crates/tessera-parser/src/parser.rs:392-401 | the comma loop over parameters |
| `Parsers.Parser.ParseBlock` | crates/tessera-parser/src/parser.rs:422-430 | consumes at least one token of any non-empty input, which is what the loops above rely on |
| `Parsers.Parser.ParseStmt` | crates/tessera-parser/src/parser.rs:432-468 | the choice of statement by first token and by the spawn lookahead |
| `Parsers.Parser.ParseIfStmt` | crates/tessera-parser/src/parser.rs:490-507 | the condition, the block and the else chain |
| `Parsers.Parser.ParseForStmt` | crates/tessera-parser/src/parser.rs:519-543 | a whole statement or nothing as the first clause, and the optional others |
| `Parsers.Parser.ParseThreadSpawnStmt` | crates/tessera-parser/src/parser.rs:563-614 | the three forms of a spawn and the recovery from none |
| `Parsers.Parser.ParseScopeBlockStmt` | crates/tessera-parser/src/parser.rs:624-657 | both forms of a scope block, with optional arguments |
| `Parsers.Parser.ParseExprOrAssign` | crates/tessera-parser/src/parser.rs:659-685 | an expression or an assignment; a bad target is reported after a missing semicolon |
| `Parsers.Parser.ParsePratt` | crates/tessera-parser/src/parser.rs:704-717 | the operator loop, in which operators are only peeked outside type context |
| `Parsers.Parser.ParseUnary` | crates/tessera-parser/src/parser.rs:738-755 | prefix operators |
| `Parsers.Parser.ParsePostfix` | crates/tessera-parser/src/parser.rs:757-784 | the loop over fields, method calls and indices |
| `Parsers.Parser.ParsePrimary` | crates/tessera-parser/src/parser.rs:786-864 | literals with the overflow check, `panic`, `assert`, `await`, `try`, parentheses, names, and recovery |
| `Parsers.Parser.ParseIdentOrCall` | crates/tessera-parser/src/parser.rs:866-897 | constructors with type arguments, calls, constructor names, `None`, and variables |
| `Parsers.Parser.ParseTypeArgList` | crates/tessera-parser/src/parser.rs:917-929 | restores the type-context flag it found |
| `Parsers.Parser.ParseTypeExpr` | crates/tessera-parser/src/parser.rs:933-975 | restores the type-context flag it found |
| `Grammar.Pratt` | crates/tessera-parser/src/parser.rs:704-717 | an expression consumes at least one token of any non-empty input |
| `GrammarStmts.StmtRun` | crates/tessera-parser/src/parser.rs:425-427 | the statement loop stops only at a closing brace or at the end |
| `GrammarStmts.Braced` | crates/tessera-parser/src/parser.rs:422-430 | a block consumes at least one token of any non-empty input |
| `GrammarStmts.Program` | crates/tessera-parser/src/parser.rs:166-201 | a program reads to the end |
| `RoundTrip.PrattReads` | crates/tessera-parser/src/parser.rs:704-784 | reading the printed tokens of an expression under a minimum power is reading the expression and going on with what follows |
| `RoundTrip.ExpressionRoundTrip` | crates/tessera-parser/src/parser.rs:704-784 | for every writable expression, parsing its printed tokens gives the same tree, no error, and leaves exactly what follows |
| `RoundTrip.PrintingIsUnambiguous` | crates/tessera-parser/src/parser.rs:979-988 | no two writable expressions print alike |
| `RoundTrip.PostfixReads` | crates/tessera-parser/src/parser.rs:757-784 | a printed receiver goes on with the postfixes after it |
| `RoundTrip.PrimaryReads` | crates/tessera-parser/src/parser.rs:786-864 | each kind of primary expression is read back whole |
| `RoundTrip.TypeRoundTrip` | crates/tessera-parser/src/parser.rs:933-975 | printed types are read back |
| `RoundTrip.LooksLikeItsTypes` | crates/tessera-parser/src/parser.rs:902-915 | the lookahead recognises every printed list of type arguments |
| `Precedence.ChainReads` | crates/tessera-parser/src/parser.rs:704-717 | a flat chain of operands, of whatever operators and however long, is read as the tree that splits at the last operator of the loosest tier, again and again; the tiers are a list that does not mention binding powers |
| `Precedence.TwoOperators` | crates/tessera-parser/src/parser.rs:979-988 | `a p b q d` is `a p (b q d)` exactly if the tier of q is the tighter one, and `(a p b) q d` otherwise, so operators of one tier associate to the left |
| `Precedence.NameTakenForAConstructor` | crates/tessera-parser/src/parser.rs:902-915 | a comparison of names that looks like a constructor with type arguments is read as one |
| `ParserFacts.AssignmentTargets` | crates/tessera-parser/src/parser.rs:1008-1023 | names, fields and elements can be assigned; anything else before `=` is one more error, after all others of the statement |
| `ParserFacts.ConstructorsByName` | crates/tessera-parser/src/parser.rs:866-897 | a name before parentheses is a constructor if it is one of seven, and a function otherwise |
| `ParserFacts.ScopeHooksByName` | crates/tessera-parser/src/parser.rs:228-243 | the hooks of a scope template are told by their names, whatever their kind |
| `ParserFacts.ThreadHooksByName` | crates/tessera-parser/src/parser.rs:287-346 | those of a thread template by name and kind |
| `ParserFacts.NumbersThatDoNotFit` | crates/tessera-parser/src/parser.rs:791-806 | an integer literal is read, and reported exactly if it is outside the 32-bit range |
| `ParserFacts.MissingNames` | crates/tessera-parser/src/parser.rs:143-158 | a missing name is the error name, with one error and nothing read |
| `ParserFacts.TypeNames` | crates/tessera-parser/src/parser.rs:933-975 | `void` and `never` are types of their own, the other type keywords are named by their spelling, and a missing type is one error |
| `ParserFacts.SkippedMembers` | crates/tessera-parser/src/parser.rs:336-358 | what is no member of a thread template is one error, one token skipped, and a placeholder |
| `RoundTripStmts.StmtReads` | crates/tessera-parser/src/parser.rs:432-685 | for every writable statement, parsing its printed tokens gives it back with no error, unless an `else` follows |
| `RoundTripStmts.NotPrebind` | crates/tessera-parser/src/parser.rs:470-478 | neither an expression statement nor an assignment is taken for a spawn that binds its handle |
| `RoundTripStmts.ScopeReads` | crates/tessera-parser/src/parser.rs:205-243 | printed scope templates are read back |
| `RoundTripStmts.ThreadReads` | crates/tessera-parser/src/parser.rs:247-360 | printed thread templates are read back |
| `RoundTripStmts.ProgramRoundTrip` | crates/tessera-parser/src/parser.rs:166-201 | for every writable program, parsing its printed tokens gives it back with no error |
| `RoundTripStmts.Reprint` | crates/tessera-parser/src/parser.rs:166-201 | the same for the parser object: it returns the program it was printed from and has reported nothing |
| `ErrorFree.ExpressionOk` | crates/tessera-parser/src/parser.rs:704-915 | an expression read without an error is writable, and no sub-parser takes an error back |
| `ErrorFree.ProgramOk` | crates/tessera-parser/src/parser.rs:166-201 | so is every program read without an error |
| `ErrorFree.WritableIffParsed` | crates/tessera-parser/src/parser.rs:166-201 | a program can be written if and only if some token sequence is read as it without an error |
| `ErrorFree.CanonicalSpelling` | crates/tessera-parser/src/parser.rs:166-201 | for every token sequence read without an error, printing the program and reading it again gives the same program |
| `RoundTripStmts.AnonymousScopeBlockIsLostAtTheTop` | crates/tessera-parser/src/parser.rs:171-173 | a block of an anonymous scope template can be read inside a block, but at the top level the same tokens are a declaration |
| `Interpreters.Env.Find` | crates/tessera-interp/src/env.rs:35-40 | the innermost binding, by a loop from the top |
| `Interpreters.Env.Assign` | crates/tessera-interp/src/env.rs:42-50 | rebinds the innermost binding and nothing else, or says that there is none |
| `Interpreters.Env.Define` | crates/tessera-interp/src/env.rs:31-33 | binds in the innermost scope only |
| `Interpreters.Interpreter.ExecStmt` | crates/tessera-interp/src/eval.rs:183-352 | every statement does what the evaluation function says and never makes the scope chain shorter |
| `Interpreters.Interpreter.AssignTo` | crates/tessera-interp/src/eval.rs:192-266 | value before target; the type guard; fields, elements and names |
| `Interpreters.Interpreter.AssignName` | crates/tessera-interp/src/eval.rs:195-218 | the type guard, the exposed copy, and the unknown name noticed last |
| `Interpreters.Interpreter.ExecIf` | crates/tessera-interp/src/eval.rs:267-283 | the chain of conditions, walked in a loop |
| `Interpreters.Interpreter.ExecWhile` | crates/tessera-interp/src/eval.rs:284-295 | the loop, in which the value `Never` ends it and any other value returns |
| `Interpreters.Interpreter.ExecTurns` | crates/tessera-interp/src/eval.rs:301-319 | the turns of a `for`, with its scope popped at every exit but an error |
| `Interpreters.Interpreter.ExecBlock` | crates/tessera-interp/src/eval.rs:355-365 | the scope is popped at the end and at a value, and stays on an error |
| `Interpreters.Interpreter.ExecScopeBlock` | crates/tessera-interp/src/eval.rs:369-463 | arguments, fields, hooks and body in the order of the source, with its early errors |
| `Interpreters.Interpreter.ExecInScope` | crates/tessera-interp/src/eval.rs:411-463 | enter hook, body and exit hook, and the precedence of their errors |
| `Interpreters.Interpreter.CollectPrims` | crates/tessera-interp/src/eval/helpers.rs:25-47 | the primitives in the `define` fields, in order |
| `Interpreters.Interpreter.ExecThreadSpawn` | crates/tessera-interp/src/eval.rs:467-521 | arguments first, then the wait for `__on_enter__`, then the handle |
| `Interpreters.Interpreter.EvalExpr` | crates/tessera-interp/src/eval.rs:529-576 | every expression does what the evaluation function says |
| `Interpreters.Interpreter.EvalBinop` | crates/tessera-interp/src/eval.rs:582-632 | short circuits, then both operands, then the operator |
| `Interpreters.Interpreter.EvalArguments` | crates/tessera-interp/src/eval.rs:735-736 | left to right, up to the first that gives no value |
| `Interpreters.Interpreter.EvalCall` | crates/tessera-interp/src/eval.rs:651-767 | builtins, unknown names, async calls and plain calls |
| `Interpreters.Interpreter.CallFunc` | crates/tessera-interp/src/eval.rs:788-796 | the frame is pushed and popped on every outcome, and the first failing snapshot is kept |
| `Interpreters.Interpreter.CallFuncInner` | crates/tessera-interp/src/eval.rs:798-835 | arity and type checks, parameters in a new scope, and the value of the body |
| `Interpreters.Interpreter.MaybeSyncExpose` | crates/tessera-interp/src/eval.rs:1016-1039 | publishes exposed fields and owns the primitives it claims |
| `Values.TruncatingDivision` | crates/tessera-interp/src/eval.rs:602-609 | integer division and remainder fit together with truncation towards zero |
| `EvalFacts.AssignThenLookup` | crates/tessera-interp/src/env.rs:35-50 | an assignment changes what its name means, if it meant something, and no other name |
| `EvalFacts.DefineThenLookup` | crates/tessera-interp/src/env.rs:23-40 | a definition hides what its name meant until its scope is popped |
| `EvalFacts.ParametersAreBound` | crates/tessera-interp/src/eval.rs:825-828 | in a body a parameter with an argument has its value, and any other name what it means in the caller |
| `EvalFacts.ArgsMatchIff` | crates/tessera-interp/src/eval.rs:812-824 | exactly the arguments that have a parameter are checked, each against its own type |
| `CallFacts.RequiredCounts` | crates/tessera-interp/src/eval.rs:799-801 | what is required is the number of parameters without a default, wherever they stand |
| `CallFacts.AcceptsIff` | crates/tessera-interp/src/eval.rs:798-824 | with its defaults last, a function takes exactly the arguments that are not too many, fit their parameters, and leave out only defaults |
| `CallFacts.DefaultsAreNotBound` | crates/tessera-interp/src/eval.rs:825-828 | a default is never evaluated: a parameter without an argument is not bound by the call |
| `CallFacts.ScopeParameters` | crates/tessera-interp/src/eval.rs:400-403 | the object of a scope holds the arguments by the names of the parameters |
| `CallFacts.FieldsInOrder` | crates/tessera-interp/src/eval.rs:404-416 | its fields are filled one after the other, and the first that fails is the last |
| `CallFacts.OneField` | crates/tessera-interp/src/eval.rs:404-416 | a field holds what its initializer gives, or the zero of its type |
| `CallFacts.NamesOfTemplates` | crates/tessera-interp/src/eval.rs:369-376 | a named scope template is used as if it were written at the block; an unknown name means a plain block |
| `CallFacts.TemplateArity` | crates/tessera-interp/src/eval.rs:389-399 | a template takes exactly as many arguments as it has parameters |
| `CallFacts.FirstErrorOfAScope` | crates/tessera-interp/src/eval.rs:411-463 | the first error of enter hook, body and exit hook is the block's; the body does not run behind a failed enter hook, and the exit hook does behind a failed body |
| `CallFacts.FirstFailureEnds` | crates/tessera-interp/src/eval.rs:582-598 | what comes first and has no value ends the evaluation of an operator, an element or an assignment, whatever comes later |
| `CallFacts.ArgumentsInOrder` | crates/tessera-interp/src/eval.rs:735-736 | arguments are evaluated one after the other, each from where the one before has left off |
| `CallFacts.IfDecides` | crates/tessera-interp/src/eval.rs:267-283 | an `if` takes its first branch unless the condition is one of the three false values |
| `CallFacts.LoopsDecide` | crates/tessera-interp/src/eval.rs:284-295 | a `while` ends at such a condition, at a `break` and at a value, and goes on otherwise |
| `CallFacts.ExclusiveBlockEnds` | crates/tessera-interp/src/eval.rs:332-341 | in a thread an exclusive block runs with the flag up and leaves it down, however it ends |
| `CallFacts.LetBinds` | crates/tessera-interp/src/eval.rs:185-191 | a `let` binds its name to its value and no other name to anything |
| `CallFacts.SpawnBindsItsHandle` | crates/tessera-interp/src/eval.rs:500-521 | a spawn goes on once the other side is ready and binds the new handle to its name |
| `EvalFacts.IntegerArithmetic` | crates/tessera-interp/src/eval.rs:599-609 | results are 32-bit integers, equal to the exact ones modulo 2^32; division truncates, fails on zero, and stops the interpreter on the one quotient that does not fit |
| `OperatorFacts.OnlyThreeAreFalse` | crates/tessera-interp/src/eval/helpers.rs:139-147 | the false values are `false`, zero and `None` |
| `OperatorFacts.ConditionsDecide` | crates/tessera-interp/src/eval.rs:584-596 | a short circuit depends on its first operand alone, whatever the other would have been, and gives a boolean |
| `OperatorFacts.SecondOperandDecides` | crates/tessera-interp/src/eval.rs:586-594 | where the first operand does not decide, the truth of the second is the result |
| `OperatorFacts.BaseEquality` | crates/tessera-interp/src/eval/helpers.rs:149-157 | on numbers, texts, characters, booleans, void and `None`, `==` is equality, and none of them equals anything else |
| `OperatorFacts.FaultEquality` | crates/tessera-interp/src/eval/helpers.rs:158-182 | any other values are equal only as a broken primitive or failed request and the error with its text, on either side |
| `OperatorFacts.OrderOfNumbers` | crates/tessera-interp/src/eval.rs:619-626 | `<`, `<=`, `>` and `>=` are the order of integers and of doubles |
| `OperatorFacts.DoubleArithmetic` | crates/tessera-interp/src/eval.rs:612-615 | doubles add and multiply as real numbers do, and subtraction undoes addition |
| `OperatorFacts.Negation` | crates/tessera-interp/src/eval.rs:634-647 | negation is what adds up to zero in 32 bits, or in the reals; `!` is for booleans only |
| `OperatorFacts.Concatenation` | crates/tessera-interp/src/eval.rs:616-617 | `+` with a text on either side puts the two sides together in their order, the other one shown as text |
| `OperatorFacts.IntegersReadBack` | crates/tessera-interp/src/eval/helpers.rs:184-187 | an integer is shown as digits that read back as it, after a minus sign if it is negative |
| `OperatorFacts.ShownWrapped` | crates/tessera-interp/src/eval/helpers.rs:193-196 | a wrapped value is shown in its wrapping |
| `OperatorFacts.OtherOperands` | crates/tessera-interp/src/eval.rs:627-631 | arithmetic and order on anything but two integers or two doubles is a type error |
| `OperatorFacts.TypesAreKinds` | crates/tessera-runtime/src/value.rs:73-97 | two values have one run-time type exactly if they are of one kind |
| `OperatorFacts.VariablesKeepTheirKind` | crates/tessera-interp/src/eval.rs:196-210 | an assignment is refused exactly if it would change the kind of a variable that is not void |
| `OperatorFacts.DeclaredTypes` | crates/tessera-interp/src/eval/helpers.rs:82-112 | a declared parameter type takes exactly the values of its kind: booleans, numbers, void, and nothing for `never` |
| `OperatorFacts.DeclaredTextTypes` | crates/tessera-interp/src/eval/helpers.rs:82-112 | characters and texts |
| `OperatorFacts.DeclaredHandleTypes` | crates/tessera-interp/src/eval/helpers.rs:82-112 | locked values, queues, signals and contracts |
| `OperatorFacts.DeclaredTaskTypes` | crates/tessera-interp/src/eval/helpers.rs:82-112 | permits, futures and threads |
| `OperatorFacts.DeclaredContainerTypes` | crates/tessera-interp/src/eval/helpers.rs:82-112 | the container types, and that a type nobody knows takes anything |
| `OperatorFacts.DefaultsHaveTheirType` | crates/tessera-interp/src/event_loop.rs:439-450 | a field without an initializer starts as the zero of its type, or void |
| `HeapFacts.ConstructorsAreKnown` | crates/tessera-interp/src/eval.rs:985-1010 | the evaluator constructs what the parser knows as a constructor, and two things more |
| `HeapFacts.NewThingsAreNew` | crates/tessera-interp/src/eval.rs:988-1005 | what is created has a reference of its own and of its kind, and changes nothing that existed |
| `HeapFacts.NewPrimitives` | crates/tessera-interp/src/eval.rs:690-732 | the builtins that make a primitive make one of their kind; a permit needs a count that is not negative |
| `HeapFacts.HostBuiltins` | crates/tessera-interp/src/eval.rs:654-714 | `print` evaluates all its arguments and `asleep` the first, for nothing; `keepalive` never comes back; a character is what the host answers |
| `HeapFacts.CallsByName` | crates/tessera-interp/src/eval.rs:731-763 | an unknown function is an error before any argument is evaluated, an asynchronous one gives a future at once, any other is called |
| `HeapFacts.ListsHoldTheirElements` | crates/tessera-interp/src/eval.rs:882-905 | a new list holds its values by their places, and nothing out of bounds |
| `HeapFacts.ElementWritten` | crates/tessera-interp/src/eval.rs:247-265 | the element that is read is the one last assigned at its place in its list; out of bounds nothing is assigned |
| `HeapFacts.FieldWritten` | crates/tessera-interp/src/eval.rs:219-225 | the field that is read is the one last assigned by its name in its object |
| `HeapFacts.CaughtErrorsSpeak` | crates/tessera-interp/src/eval.rs:975-983 | a caught error has the kind and message of the error, a caught value is `Ok` of it, and catching changes nothing else |
| `HeapFacts.Publishing` | crates/tessera-interp/src/eval.rs:1016-1039 | an exposed field is published with its value, and a primitive in it that nobody owns becomes the thread's |
| `HeapFacts.OwnedOnce` | crates/tessera-interp/src/eval.rs:1027-1038 | so exposure never makes a thread own a primitive twice |
| `HeapFacts.NamesMean` | crates/tessera-interp/src/eval.rs:532-546 | `self` is the template's object where there is one; any other name is its innermost binding, or unknown |
| `HeapFacts.OnlyTheseWait` | crates/tessera-interp/src/eval.rs:909-973 | futures, handler futures and primitives are awaited; any other value is its own result |
| `HeapFacts.BrokenPrimitivesSpeak` | crates/tessera-interp/src/eval.rs:438-453 | a primitive its scope broke is equal to the error ScopeGone or ScopeCrashed, by the fate of the body |
| `EvalFacts.FieldPrimsAre` | crates/tessera-interp/src/eval/helpers.rs:25-47 | a primitive is collected if and only if a `define` field holds it |
| `EvalFacts.HookIsFirst` | crates/tessera-interp/src/eval/helpers.rs:46-55 | the hook that runs is the first of its kind, if there is one |
| `Fuel.ExecMore` | crates/tessera-interp/src/eval.rs:183-352 | more fuel never changes a run that did not ask for more |
| `Fuel.EndedRunsStay` | crates/tessera-interp/src/eval.rs:183-352 | a run that ends is the run of every larger fuel, so a statement for every fuel is one for every finite run |
| `PlainValues.EvalSame` | crates/tessera-interp/src/eval.rs:529-1011 | on plain values and answers, expressions make no `Never`, and if a second way to call functions follows the first, so does evaluation under it |
| `Faithful.ExecAgrees` | crates/tessera-interp/src/eval.rs:183-365 | for every statement that obeys the loop rule, in every state and with any fuel: values stay plain, only a `break` of a loop around gives `Never`, and the evaluator goes as the guarded reference run unless that one strays, which tidy statements never do |
| `Faithful.ScopeBlockAgrees` | crates/tessera-interp/src/eval.rs:369-463 | the same of scope blocks, with arguments, initializers, hooks and early errors |
| `Guard.ExecUnguarded` | crates/tessera-interp/src/eval.rs:296-330 | a guarded reference run, which stops where a `for` clause is left or a `continue` has statements behind it, is the reference run whenever it does not stop there |
| `LoopTheorems.NeverIsFaithful` | crates/tessera-interp/src/eval.rs:284-330 | outside loops, a run that does not stray gives a value exactly by a `return`; the value is never `Never`; errors and states are the reference's |
| `LoopTheorems.TidyNeverStrays` | crates/tessera-interp/src/eval.rs:284-330 | nothing leaves a `for` clause and nothing stands behind a `continue`: then no run strays, whatever it calls |
| `LoopTheorems.NoExpressionIsNever` | crates/tessera-interp/src/eval.rs:529-576 | no expression evaluates to `Never`, whatever it calls, if the answers it gets are plain |
| `LoopTheorems.CallsGiveWhatIsReturned` | crates/tessera-interp/src/eval.rs:798-835 | a call that does not stray gives what the reference's `return` gives; no call gives `Never` |
| `LoopTheorems.ForIsFaithfulIff` | crates/tessera-interp/src/eval.rs:296-320 | the exact condition on the first clause of a `for`, in any state and inside or outside a loop: every tidy loop around it goes as the reference does if and only if the clause ends normally or with an error or a stop |
| `LoopTheorems.UpdateIsFaithfulIff` | crates/tessera-interp/src/eval.rs:315-317 | the exact condition on the update: the turns of every tidy loop with it go as the reference does, from every plain state, if and only if it ends normally or with an error or a stop from every such state |
| `LoopTheorems.ListIsFaithfulIff` | crates/tessera-interp/src/eval.rs:330 | the exact condition on a list of statements: whatever tidy statements follow it, the evaluator goes as the reference does if and only if the list does not end in a `continue` |
| `Reference.NeverReturns` | crates/tessera-interp/src/eval.rs:183-365 | a statement without a `return` of its own never returns, whatever it calls and whatever hooks it runs |
| `Tasks.JobsRunAsMeant` | crates/tessera-interp/src/eval.rs:1044-1073 | an async call, member function, hook, handler or spawned body that obeys the rule and does not stray does what the reference says; a tidy one never strays |
| `Tasks.DeliversAPlainAnswer` | crates/tessera-interp/src/eval.rs:737-755 | such a job, tidy or not, that is given plain answers delivers a plain one: its result is not `Never`, nor is anything in the heap it leaves |
| `Tasks.NobodyDeliversNever` | crates/tessera-interp/src/eval.rs:737-755 | so among tasks whose answers come from one another or from the host, nobody ever delivers a `Never` |
| `Tasks.ThreadsObey` | crates/tessera-interp/src/event_loop.rs:41-55 | the context a thread builds, its template's functions and hooks over those of the program, obeys the rule if both do |
| `Tasks.MembersHideFunctions` | crates/tessera-interp/src/event_loop.rs:41-55 | in a thread a name means the template's last function or hook of that name, and what it meant in the program if there is none |
| `Tasks.ThreadsPublishTheirs` | crates/tessera-interp/src/event_loop.rs:62-72 | a thread publishes exactly the fields its template exposes |
| `BreakLint.Visitor.VisitStmt` | crates/tessera-lint/src/passes/break_continue_outside_loop.rs:74-104 | reports exactly the stray keywords, in order, and restores the loop depth |
| `BreakLint.Check` | crates/tessera-lint/src/passes/break_continue_outside_loop.rs:24-35 | the whole pass: free functions first, then everything else |
| `BreakLint.SilentIff` | crates/tessera-lint/src/passes/break_continue_outside_loop.rs:74-104 | a statement under a number of loops is reported if and only if some `break` or `continue` in it is in no loop of its own function, handler or spawned body |
| `BreakLint.AcceptedIffLawful` | crates/tessera-lint/src/passes/break_continue_outside_loop.rs:1-14 | the pass accepts a program if and only if it obeys that rule everywhere, templates and nested spawns included |
| `BreakLint.LastDefinitionCounts` | crates/tessera-interp/src/eval.rs:143-165 | in a program a name means the last function, and the last scope template, of that name |
| `BreakLint.LintedProgramsRunAsMeant` | crates/tessera-lint/src/passes/break_continue_outside_loop.rs:1-14 | every program the lint accepts runs, from its first statement on, as the reference semantics says unless it strays, and a tidy one does not |
| `BreakLint.LintedThreadsRunAsMeant` | crates/tessera-lint/src/passes/break_continue_outside_loop.rs:65-104 | so do the body, hooks, functions and handlers of its threads, from every plain state and in the context their template builds; what they deliver is plain in any case |
| `BreakLint.MembersAreAccepted` | crates/tessera-ast/src/visitor.rs:37-50 | an accepted template has accepted functions, hooks and handlers |
| `BreakLint.BreakEscapesAFunction` | crates/tessera-interp/src/eval.rs:831-834 | without the lint, a `break` in a function is the value `Never` of its call |
| `BreakLint.ForDropsAReturn` | crates/tessera-interp/src/eval.rs:298-300 | a `return` in the first clause of a `for` is dropped, and the lint does not report it |
| `BreakLint.ForDropsABreak` | crates/tessera-interp/src/eval.rs:298-300 | so is a `break` there, which the lint takes for one of the loop around |
| `BreakLint.ContinueIsSkipped` | crates/tessera-interp/src/eval.rs:330 | `continue` is skipped: where the reference loops for ever the evaluator reaches the next statement |
| `ReturnLint.Check` | crates/tessera-lint/src/passes/return_not_all_paths.rs:19-44 | the pass reports exactly the non-void functions and handlers whose body need not terminate |
| `ReturnLint.TerminatesIff` | crates/tessera-lint/src/passes/return_not_all_paths.rs:79-107 | the test is exact on paths, in which every `if` goes either way, a `return` and a `panic` statement end the path, and everything else is passed: a body is accepted if and only if no path falls off its end |
| `ReturnLint.ReportedIff` | crates/tessera-lint/src/passes/return_not_all_paths.rs:19-61 | a name is reported if and only if a function or handler of that name, with a value to give, has a path that falls off its end |
| `ReturnLint.BlockNeverFalls` | crates/tessera-lint/src/passes/return_not_all_paths.rs:79-86 | a block the lint accepts never falls off its end, in any state |
| `ReturnLint.StmtNeverFalls` | crates/tessera-lint/src/passes/return_not_all_paths.rs:88-107 | nor does a statement it counts as terminating |
| `ReturnLint.ValuesAreReturned` | crates/tessera-lint/src/passes/return_not_all_paths.rs:79-107 | a function whose body terminates and does not stray gives a value only through a `return` of the reference semantics |
| `ReturnLint.HandlersReturn` | crates/tessera-lint/src/passes/return_not_all_paths.rs:63-77 | and so does a handler |
| `ReturnLint.LintedFunctionsReturn` | crates/tessera-lint/src/passes/return_not_all_paths.rs:47-62 | both lints together: every non-void function of an accepted program that gives a value gives one of its `return`s, unless it strays |
| `ReturnLint.LintedThreadsReturn` | crates/tessera-lint/src/passes/return_not_all_paths.rs:31-39 | and so do the non-void functions and handlers of its threads, in the context their template builds |
| `ReturnLint.ReportedButNeverFalls` | crates/tessera-lint/src/passes/return_not_all_paths.rs:104-106 | the lint is not complete: a loop that always returns is reported |
| `ConstFold.FoldAgrees` | crates/tessera-lint/src/passes/assert_const_condition.rs:36-78 | an expression that folds, with literals in range, evaluates to its constant without touching the state exactly when it runs, and is a type error otherwise |
| `ConstFold.FoldsIff` | crates/tessera-lint/src/passes/assert_const_condition.rs:36-78 | an expression folds exactly if it has a type: logic on booleans, equality on anything, order within one kind, no arithmetic |
| `ConstFold.StringOrderIs` | crates/tessera-lint/src/passes/assert_const_condition.rs:80-89 | texts are ordered as in a dictionary |
| `ConstFold.TextComparisons` | crates/tessera-lint/src/passes/assert_const_condition.rs:60-75 | so the comparisons of texts and characters, which the evaluator does not make, are what they should be |
| `ConstFold.OverflowIff` | crates/tessera-parser/src/parser.rs:791-806 | the parser refuses exactly the integers that 32 bits would change |
| `ConstFold.OpAgrees` | crates/tessera-lint/src/passes/assert_const_condition.rs:50-75 | each folded operator agrees with the evaluator's |
| `ConstFold.FoldedValuesAreEqual` | crates/tessera-lint/src/passes/assert_const_condition.rs:36-78 | if folding and evaluation both give a value it is the same; evaluation gives one if and only if nothing but numbers is ordered on the evaluated path |
| `ConstFold.ParsedExpressionsAgree` | crates/tessera-parser/src/parser.rs:791-806 | what the parser reads without an error has its literals in range, so the folder and the evaluator agree on it |
| `ConstFold.AlwaysTrueNeverFails` | crates/tessera-lint/src/passes/assert_const_condition.rs:95-102 | an assertion reported as always true never fails as an assertion |
| `ConstFold.AlwaysFalseNeverPasses` | crates/tessera-lint/src/passes/assert_const_condition.rs:103-110 | one reported as always false never passes |
| `ConstFold.OutOfRangeDisagrees` | crates/tessera-interp/src/eval/helpers.rs:128-137 | out of the 32-bit range the two disagree: the folder keeps 64 bits |
| `ConstFold.OrderedCharsDoNotRun` | crates/tessera-lint/src/passes/assert_const_condition.rs:80-89 | the folder orders characters and strings, the evaluator does not |
| `ConstFold.Visitor.VisitExpr` | crates/tessera-lint/src/passes/assert_const_condition.rs:93-114 | the visitor records the verdict of every assertion in an expression, outermost first |
| `ScopeDiscipline.TryFreeKeepsTheScopes` | crates/tessera-interp/src/eval.rs:355-365 | a try-free statement that ends without an error leaves the chain as deep as it was, every scope but the innermost with its names, and every type but void |
| `ScopeDiscipline.TryFreeCallsKeepTheScopes` | crates/tessera-interp/src/eval.rs:825-834 | a try-free call leaves every scope of its caller with its names and types |
| `ScopeDiscipline.FramesBalance` | crates/tessera-interp/src/eval.rs:771-796 | with or without `try` or an error, frames balance, the chain never gets shorter, and the first snapshot of the frames stays |
| `ScopeDiscipline.FirstFailureIsTraced` | crates/tessera-interp/src/eval.rs:771-796 | a call that fails leaves a snapshot of the frames: that of the call inside it that failed first, or its own; an earlier snapshot stays |
| `ScopeDiscipline.RebindKeeps` | crates/tessera-interp/src/eval.rs:196-210 | an assignment keeps all names and every run-time type but void |
| `ScopeDiscipline.ExecExtends` | crates/tessera-interp/src/eval.rs:183-352 | the induction over all statements behind these |
| `ScopeDiscipline.FailedCallLeaksIff` | crates/tessera-interp/src/eval.rs:798-835 | the exact condition: a call that fails leaves more scopes than there were if and only if it accepts its arguments |
| `ScopeDiscipline.CaughtCallLeaksIff` | crates/tessera-interp/src/eval.rs:975-983 | so a caught error of a call leaks if and only if the call accepts the values of its arguments |
| `ScopeDiscipline.TryLeaksAScope` | crates/tessera-interp/src/eval.rs:975-983 | the shortest program that leaks a scope by catching an error |
| `ScopeDiscipline.ScopeBreaksItsPrims` | crates/tessera-interp/src/eval.rs:438-453 | however body and exit hook end, a scope's primitives are broken afterwards, each with its first reason |

## Left out

- Liveness of a deferred termination, and exclusivity against handlers that already run: the code does not give them.
- Primitives exposed after their thread has died: `OwnershipMachine` speaks of what was owned at the end.
- The link between `OwnershipMachine` and `ThreadProtocol`: a status change breaks the owned primitives in the same step, but the two machines are separate.
- LockedMachine.NoSleeperOnFreeLock: for the cooperative scheduler only, which is what the runtime uses; `PreemptionLosesTheWakeup` shows why.
- Faithful.ExecAgrees: says nothing about runs that stray but that their values are plain; where they part from the reference is said by `ForIsFaithfulIff`, `ListIsFaithfulIff`, `UpdateIsFaithfulIff` and `TidyNeverStrays`.
- PlainValues.EvalSame: for plain answers; `NobodyDeliversNever` discharges this for tasks that answer one another, while an answer of the host, such as the result of a builtin method, is assumed plain.
- LoopTheorems.NoExpressionIsNever: for plain answers, as `PlainValues.EvalSame`.
- LoopTheorems.CallsGiveWhatIsReturned: for plain answers, as `PlainValues.EvalSame`.
- BreakLint.LintedThreadsRunAsMeant: for one task that is not interleaved, from any plain state; how a thread fills its object before its body starts is not modelled.
- EventLoop.ThreadTask.Start: the function table, the object bound to `self` and the ready signal of those lines are not part of the protocol; `ThreadContext` has the table and the exposed names.
- Interpreters.Interpreter.ExecThreadSpawn: the child thread, its mailbox and its channels are `ThreadProtocol`'s; here they are one answer.
- Interpreters.Interpreter.EvalExpr: method calls, awaits and spawned work take their result from the list of answers.
- Interpreters.Interpreter.EvalCall: the body of an async call runs in another task, which is an answer here and a job in `Tasks`.
- ScopeDiscipline.TryFreeKeepsTheScopes: for one task that is not interleaved; a thread's body and handlers share one scope chain.
- Interpreters.Interpreter.ExecStmt: bounded by fuel, since a method must terminate; `EndedRunsStay` shows that the bound does not matter to runs that end.
- The bodies of spawned threads and of async calls: they run in other tasks and are answers here.
- Parsers.Parser.Expect: which problem an error reports and how many tokens were left, but not its wording, spans and notes on unclosed delimiters.
- The wording of run-time errors that carry no text of the program: a function of the host.
- Doubles: real numbers; their division and their spelling belong to the host.
- Negation of the smallest integer: wraps, as in a build without overflow checks. Dividing it by -1 stops the task, as the host language does.
- The table of builtin methods on values, and the queue: wide but shallow; a method call evaluates its receiver and arguments and takes an answer.
- `print`, `println`, `getchar`, `asleep`: only what they evaluate. Output, input and time are not modelled.
- ConstFold.Visitor.VisitExpr: the walk over expressions; the walk over statements to reach them is not modelled.
- Token sequences the lexer never makes: the parser is modelled on them too, and `WritableIffParsed` counts an identifier spelled like a keyword as a name. The printer writes a name that is a type keyword as that keyword wherever the parser reads one.
- The lexer's automaton, the type checker, the other lints, the command line and the rendering of diagnostics.
- Mini-threads' environments and the sharing of `self` between them.
