/** One Tessera thread as a step relation: its event loop (crates/tessera-interp/src/event_loop.rs),
    the handler tasks it spawns, and any number of concurrent callers of `dispatch_handler` and
    `terminate` (crates/tessera-runtime/src/thread_state.rs).

    A step runs from one await to the next; taking an uncontended async lock counts as an await.
    User code (field initialisers, the body, hooks, handler bodies) is an arbitrary schedule: it may
    fail or not, and it may flip the exclusive flag at any time. */
module ThreadProtocol {
  import opened Options
  import Notify
  import H = HandlerFutureMachine

  datatype Status = Running | Terminating | Terminated | Crashed(msg: string)

  datatype Outcome = Ok | Failed(msg: string)

  /** What the protocol needs of a `$template`: which hooks it has, and its handlers with their arity. */
  datatype Template = Template(onEnter: bool, onTerminate: bool, onExit: bool, handlers: map<string, nat>)

  const CAPACITY := 64
  const PING := "__ping__"

  // ── Callers ────────────────────────────────────────────────────────────────

  datatype Answer = Accepted | Refused(error: H.DispatchError)

  datatype Reply = Unanswered | Answered(answer: Answer) | Closed    // the one-shot reply channel

  datatype CallResult = Future | Pong | Error(error: H.DispatchError)

  datatype CallPc = Entered | Sending | Waiting | Finished(result: CallResult) | Abandoned

  /** What became of the request. `during` is the status at the moment the call was accepted. */
  datatype Fate = NotPlaced | Queued | Dispatched(during: Status) | Rejected(error: H.DispatchError) | Dropped

  datatype Call = Call(handler: string, args: nat, pc: CallPc, reply: Reply, answers: nat, fate: Fate)

  // ── Handler tasks ──────────────────────────────────────────────────────────

  datatype TaskPc = Spawned | InBody | Ended | WrongArity

  /** `place` is the request's position in the order of placement. */
  datatype Task = Task(call: nat, place: int, pc: TaskPc)

  datatype Mark = Start(call: nat) | End(call: nat)

  // ── The event loop ─────────────────────────────────────────────────────────

  datatype Hook = OnEnterHook | OnTerminateHook | OnExitHook

  /** How the task came to its end. */
  datatype How = SetupFailed | EnterFailed | BodyEnded | BodyCrashed | TornDown

  datatype Pc =
    | Setup                                         // field initialisers and the arity check
    | Entering                                      // inside __on_enter__
    | EarlyCrash(how: How, msg: string)             // about to set the status
    | EarlyBundle(how: How, msg: string)            // about to take the bundle and report
    | TakeBundle
    | Top
    | Select(exclusive: bool, busy: bool)           // with the snapshots of this iteration
    | MarkTerminating(exclusive: bool, crashed: bool)
    | InOnTerminate
    | InOnExit(teardown: bool)
    | MarkFinal(how: How, error: Option<string>)
    | Returned(how: How, error: Option<string>)

  /** The loop task itself: where it is, and its side of the terminate signal and the gate watch. */
  datatype Control = Control(
    pc: Pc,
    deferred: bool,                   // terminate_during_exclusive
    signalled: bool,                  // the first terminate() has sent the signal
    fired: bool,                      // the loop has received it
    pollsAfterFired: nat,             // polls of the terminate receiver after it completed
    seen: nat)                        // the version of the gate the loop's receiver has seen

  datatype Life = Life(
    status: Status,
    log: seq<Status>,                 // every value the status ever had
    bundle: bool,                     // the terminate bundle is still in the ThreadState
    results: seq<Outcome>)            // everything sent on the termination result channel

  datatype HookLog = HookLog(started: seq<Hook>, errors: seq<string>)

  datatype Box = Box(
    open: bool,                       // the loop's receivers are alive
    mailbox: seq<nat>,
    placed: seq<nat>,                 // every request ever placed, in order
    calls: seq<Call>)

  datatype Handlers = Handlers(
    gate: bool,                       // handler_in_flight
    version: nat,                     // of the gate's watch channel
    tasks: seq<Task>,
    trace: seq<Mark>)                 // starts and ends of handler bodies

  datatype Config = Config(
    decl: Option<Template>,
    exclusive: bool,
    ctl: Control,
    life: Life,
    hook: HookLog,
    box: Box,
    hs: Handlers)

  function Init(decl: Option<Template>): Config {
    Config(decl, false,
           Control(Setup, false, false, false, 0, 0), Life(Running, [Running], true, []), HookLog([], []),
           Box(true, [], [], []), Handlers(false, 0, [], []))
  }

  datatype Event =
    // callers
    | NewCall(handler: string, args: nat)
    | ReadStatus(i: nat)
    | Send(i: nat)
    | Receive(i: nat)
    | Abandon(i: nat)                 // the calling task is dropped
    | Terminate
    // user code of this thread
    | SetExclusive(v: bool)
    | PollTask(k: nat)
    | EndTask(k: nat)
    // the loop task
    | SetupDone(error: Option<string>)
    | EnterDone(error: Option<string>)
    | Go                              // a point with only one continuation
    | ArmTerminate
    | ArmBody(error: Option<string>)
    | ArmHandler
    | ArmGate
    | HookDone(error: Option<string>)

  predicate HasHook(decl: Option<Template>, h: Hook) {
    decl.Some? &&
    match h
    case OnEnterHook => decl.value.onEnter
    case OnTerminateHook => decl.value.onTerminate
    case OnExitHook => decl.value.onExit
  }

  predicate IsTerminal(s: Status) {
    s.Terminated? || s.Crashed?
  }

  predicate CallerEvent(e: Event) {
    e.NewCall? || e.ReadStatus? || e.Send? || e.Receive? || e.Abandon?
  }

  predicate UserEvent(e: Event) {
    e.SetExclusive? || e.PollTask? || e.EndTask?
  }

  predicate ArmEvent(e: Event) {
    e.ArmTerminate? || e.ArmBody? || e.ArmHandler? || e.ArmGate?
  }

  predicate CallerEnabled(b: Box, e: Event)
    requires CallerEvent(e)
  {
    match e
    case NewCall(_, _) => true
    case ReadStatus(i) => i < |b.calls| && b.calls[i].pc.Entered?
    case Send(i) => i < |b.calls| && b.calls[i].pc.Sending? && (b.open ==> |b.mailbox| < CAPACITY)
    case Receive(i) => i < |b.calls| && b.calls[i].pc.Waiting? && !b.calls[i].reply.Unanswered?
    case Abandon(i) => i < |b.calls| && !b.calls[i].pc.Finished?
  }

  predicate ArmEnabled(c: Config, e: Event)
    requires ArmEvent(e)
  {
    && c.ctl.pc.Select?
    && match e
       case ArmTerminate => !c.ctl.deferred && c.ctl.signalled
       case ArmBody(_) => true
       case ArmHandler => !c.ctl.pc.exclusive && !c.ctl.deferred && !c.ctl.pc.busy
                          && c.box.mailbox != [] && c.box.mailbox[0] < |c.box.calls|   // requests are calls: CallsInv
       case ArmGate => c.ctl.pc.busy && c.ctl.seen != c.hs.version
  }

  predicate Enabled(c: Config, e: Event) {
    if CallerEvent(e) then CallerEnabled(c.box, e)
    else if ArmEvent(e) then ArmEnabled(c, e)
    else
      match e
      case Terminate => true
      case SetExclusive(_) => true
      case PollTask(k) => k < |c.hs.tasks| && c.hs.tasks[k].pc.Spawned?
      case EndTask(k) => k < |c.hs.tasks| && c.hs.tasks[k].pc.InBody?
      case SetupDone(error) => c.ctl.pc.Setup? && (error.Some? ==> c.decl.Some?)
      case EnterDone(_) => c.ctl.pc.Entering?
      case HookDone(_) => c.ctl.pc.InOnTerminate? || c.ctl.pc.InOnExit?
      case Go =>
        var pc := c.ctl.pc;
        pc.EarlyCrash? || pc.EarlyBundle? || pc.TakeBundle? || pc.Top? || pc.MarkTerminating? || pc.MarkFinal?
  }

  // ── Callers: `dispatch_handler` ────────────────────────────────────────────

  function StatusError(s: Status): H.DispatchError
    requires !s.Running?
  {
    match s
    case Terminated => H.TargetTerminated
    case Terminating => H.TargetTerminating
    case Crashed(_) => H.TargetCrashed
  }

  function ResultOf(r: Reply): CallResult
    requires !r.Unanswered?
  {
    match r
    case Answered(Accepted) => Future
    case Answered(Refused(e)) => Error(e)
    case Closed => Error(H.TargetCrashed)
  }

  function ApplyCaller(b: Box, status: Status, e: Event): Box
    requires CallerEvent(e) && CallerEnabled(b, e)
  {
    match e
    case NewCall(handler, args) => b.(calls := b.calls + [Call(handler, args, Entered, Unanswered, 0, NotPlaced)])
    case ReadStatus(i) =>
      b.(calls := b.calls[i := b.calls[i].(pc :=
        if !status.Running? then Finished(Error(StatusError(status)))
        else if b.calls[i].handler == PING then Finished(Pong)
        else Sending)])
    case Send(i) =>
      if b.open then
        b.(mailbox := b.mailbox + [i], placed := b.placed + [i],
           calls := b.calls[i := b.calls[i].(pc := Waiting, fate := Queued)])
      else
        b.(calls := b.calls[i := b.calls[i].(pc := Finished(Error(H.TargetCrashed)))])
    case Receive(i) => b.(calls := b.calls[i := b.calls[i].(pc := Finished(ResultOf(b.calls[i].reply)))])
    case Abandon(i) => b.(calls := b.calls[i := b.calls[i].(pc := Abandoned)])
  }

  // ── The mailbox, as the loop uses it ───────────────────────────────────────

  function Reject(call: Call, error: H.DispatchError): Call {
    call.(reply := Answered(Refused(error)), answers := call.answers + 1, fate := Rejected(error))
  }

  /** Every queued request is answered with the error. */
  function RejectAll(calls: seq<Call>, queued: seq<nat>, error: H.DispatchError): seq<Call> {
    seq(|calls|, i requires 0 <= i < |calls| => if i in queued then Reject(calls[i], error) else calls[i])
  }

  function DropAll(calls: seq<Call>, queued: seq<nat>): seq<Call> {
    seq(|calls|, i requires 0 <= i < |calls| =>
      if i in queued then calls[i].(reply := Closed, fate := Dropped) else calls[i])
  }

  /** `drain_handlers` */
  function Drain(b: Box, error: H.DispatchError): Box {
    b.(mailbox := [], calls := RejectAll(b.calls, b.mailbox, error))
  }

  /** The receiver is dropped, and the queued requests' reply senders with it. */
  function Close(b: Box): Box {
    b.(open := false, mailbox := [], calls := DropAll(b.calls, b.mailbox))
  }

  predicate Knows(decl: Option<Template>, handler: string) {
    decl.Some? && handler in decl.value.handlers
  }

  function Replied(decl: Option<Template>, call: Call, status: Status): Call {
    if Knows(decl, call.handler)
    then call.(reply := Answered(Accepted), answers := call.answers + 1, fate := Dispatched(status))
    else Reject(call, H.TargetCrashed)
  }

  /** `dispatch_handler_inline` for the oldest queued request: the reply. */
  function AnswerOldest(decl: Option<Template>, b: Box, status: Status): Box
    requires b.mailbox != [] && b.mailbox[0] < |b.calls|
  {
    b.(mailbox := b.mailbox[1..], calls := b.calls[b.mailbox[0] := Replied(decl, b.calls[b.mailbox[0]], status)])
  }

  // ── Handler tasks ──────────────────────────────────────────────────────────

  /** `set_handler_in_flight`: a watch without receivers discards what is sent. */
  function SetGate(h: Handlers, open: bool, v: bool): Handlers {
    if open then h.(gate := v, version := h.version + 1) else h
  }

  /** `dispatch_handler_inline` for the oldest queued request: the gate and the new task. */
  function SpawnOldest(decl: Option<Template>, b: Box, h: Handlers): Handlers
    requires b.mailbox != [] && b.mailbox[0] < |b.calls|
  {
    if Knows(decl, b.calls[b.mailbox[0]].handler) then
      SetGate(h, b.open, true).(tasks := h.tasks + [Task(b.mailbox[0], |b.placed| - |b.mailbox|, Spawned)])
    else h
  }

  predicate ArityOk(decl: Option<Template>, b: Box, call: nat) {
    call < |b.calls| && Knows(decl, b.calls[call].handler) ==>
      decl.value.handlers[b.calls[call].handler] == b.calls[call].args
  }

  /** A spawned task is polled: it waits while the thread is exclusive, then runs the body. */
  function ApplyPollTask(decl: Option<Template>, exclusive: bool, b: Box, h: Handlers, k: nat): Handlers
    requires k < |h.tasks|
  {
    var t := h.tasks[k];
    if exclusive then h
    else if ArityOk(decl, b, t.call) then
      h.(tasks := h.tasks[k := t.(pc := InBody)], trace := h.trace + [Start(t.call)])
    else
      SetGate(h.(tasks := h.tasks[k := t.(pc := WrongArity)]), b.open, false)
  }

  /** The body is done: the gate is released before the outcome is delivered. */
  function ApplyEndTask(b: Box, h: Handlers, k: nat): Handlers
    requires k < |h.tasks|
  {
    SetGate(h.(tasks := h.tasks[k := h.tasks[k].(pc := Ended)], trace := h.trace + [End(h.tasks[k].call)]), b.open, false)
  }

  // ── The loop task ──────────────────────────────────────────────────────────

  function SetStatus(l: Life, s: Status): Life {
    l.(status := s, log := l.log + [s])
  }

  function Report(l: Life, o: Outcome): Life {
    l.(results := l.results + [o])
  }

  function FirstError(h: HookLog): Option<string> {
    if h.errors == [] then None else Some(h.errors[0])
  }

  function AddError(h: HookLog, error: Option<string>): HookLog {
    if error.Some? then h.(errors := h.errors + [error.value]) else h
  }

  function Goto(c: Config, pc: Pc): Config {
    c.(ctl := c.ctl.(pc := pc))
  }

  function RunHook(c: Config, hook: Hook, pc: Pc): Config {
    c.(ctl := c.ctl.(pc := pc), hook := c.hook.(started := c.hook.started + [hook]))
  }

  /** `__on_exit__`, in its ordinary place or as the second teardown hook. */
  function StartExit(c: Config, teardown: bool): Config {
    if HasHook(c.decl, OnExitHook) then RunHook(c, OnExitHook, InOnExit(teardown))
    else Goto(c, MarkFinal(if teardown then TornDown else BodyEnded, FirstError(c.hook)))
  }

  /** `run_teardown_hooks` */
  function StartTeardown(c: Config): Config {
    if HasHook(c.decl, OnTerminateHook) then RunHook(c, OnTerminateHook, InOnTerminate) else StartExit(c, true)
  }

  function FinalStatus(error: Option<string>): Status {
    if error.Some? then Crashed(error.value) else Terminated
  }

  function FinalOutcome(error: Option<string>): Outcome {
    if error.Some? then Failed(error.value) else Ok
  }

  function DrainError(error: Option<string>): H.DispatchError {
    if error.Some? then H.TargetCrashed else H.TargetTerminated
  }

  function ApplyGo(c: Config): Config
    requires Enabled(c, Go)
  {
    match c.ctl.pc
    case EarlyCrash(how, msg) =>
      c.(ctl := c.ctl.(pc := EarlyBundle(how, msg)), life := SetStatus(c.life, Crashed(msg)), box := Drain(c.box, H.TargetCrashed))
    case EarlyBundle(how, msg) =>
      c.(ctl := c.ctl.(pc := Returned(how, Some(msg))), box := Close(c.box),
         life := if c.life.bundle then Report(c.life.(bundle := false), Failed(msg)) else c.life)
    case TakeBundle => c.(ctl := c.ctl.(pc := Top, seen := c.hs.version), life := c.life.(bundle := false))
    case Top => if c.ctl.deferred && !c.exclusive then StartTeardown(c) else Goto(c, Select(c.exclusive, c.hs.gate))
    case MarkTerminating(exclusive, crashed) =>
      var d := c.(life := SetStatus(c.life, Terminating), box := Drain(c.box, H.TargetTerminating));
      if exclusive && !crashed then d.(ctl := c.ctl.(deferred := true, pc := Top)) else StartTeardown(d)
    case MarkFinal(how, error) =>
      c.(ctl := c.ctl.(pc := Returned(how, error)),
         life := Report(SetStatus(c.life, FinalStatus(error)), FinalOutcome(error)),
         box := Close(if how.TornDown? then c.box else Drain(c.box, DrainError(error))))
  }

  /** Every turn of the select first polls the terminate receiver, unless that arm is disabled. */
  function PollTerminate(c: Control): Control {
    if !c.deferred && c.fired then c.(pollsAfterFired := c.pollsAfterFired + 1) else c
  }

  function ApplyArm(c: Config, e: Event): Config
    requires ArmEvent(e) && ArmEnabled(c, e)
  {
    var polled := PollTerminate(c.ctl);
    match e
    case ArmTerminate => c.(ctl := polled.(fired := true, pc := MarkTerminating(c.ctl.pc.exclusive, false)))
    case ArmHandler =>
      c.(ctl := polled.(pc := Top), box := AnswerOldest(c.decl, c.box, c.life.status), hs := SpawnOldest(c.decl, c.box, c.hs))
    case ArmGate => c.(ctl := polled.(seen := c.hs.version, pc := Top))
    case ArmBody(error) =>
      if error.None? then
        var d := c.(ctl := polled);
        if c.ctl.deferred then StartTeardown(d) else StartExit(d, false)
      else if c.ctl.deferred then c.(ctl := polled.(pc := MarkTerminating(c.ctl.pc.exclusive, true)))
      else if c.ctl.signalled then
        c.(ctl := PollTerminate(polled).(fired := true, pc := MarkTerminating(c.ctl.pc.exclusive, true)))
      else c.(ctl := polled.(pc := MarkFinal(BodyCrashed, error)))
  }

  function Apply(c: Config, e: Event): Config
    requires Enabled(c, e)
  {
    if CallerEvent(e) then c.(box := ApplyCaller(c.box, c.life.status, e))
    else if ArmEvent(e) then ApplyArm(c, e)
    else
      match e
      case Terminate => c.(ctl := c.ctl.(signalled := true))
      case SetExclusive(v) => c.(exclusive := v)
      case PollTask(k) => c.(hs := ApplyPollTask(c.decl, c.exclusive, c.box, c.hs, k))
      case EndTask(k) => c.(hs := ApplyEndTask(c.box, c.hs, k))
      case SetupDone(error) =>
        if error.Some? then Goto(c, EarlyCrash(SetupFailed, error.value))
        else if HasHook(c.decl, OnEnterHook) then RunHook(c, OnEnterHook, Entering)
        else Goto(c, TakeBundle)
      case EnterDone(error) =>
        if error.Some? then c.(ctl := c.ctl.(pc := EarlyCrash(EnterFailed, error.value)), hook := AddError(c.hook, error))
        else Goto(c, TakeBundle)
      case Go => ApplyGo(c)
      case HookDone(error) =>
        var d := c.(hook := AddError(c.hook, error));
        if c.ctl.pc.InOnTerminate? then StartExit(d, true)
        else Goto(d, MarkFinal(if c.ctl.pc.teardown then TornDown else BodyEnded, FirstError(d.hook)))
  }

  /** The configuration after a sequence of steps, or None when some step was not enabled. */
  ghost function Exec(decl: Option<Template>, es: seq<Event>): Option<Config>
    decreases |es|, 1
  {
    if es == [] then Some(Init(decl)) else ExecLast(decl, es)
  }

  ghost function ExecLast(decl: Option<Template>, es: seq<Event>): Option<Config>
    requires es != []
    decreases |es|, 0
  {
    match Exec(decl, es[..|es| - 1])
    case None => None
    case Some(c) => if Enabled(c, es[|es| - 1]) then Some(Apply(c, es[|es| - 1])) else None
  }

  ghost predicate Reachable(c: Config) {
    exists es :: Exec(c.decl, es) == Some(c)
  }

  lemma DeclStays(c: Config, e: Event)
    requires Enabled(c, e)
    ensures Apply(c, e).decl == c.decl
  {
  }

  lemma ReachStep(c: Config, e: Event)
    requires Reachable(c) && Enabled(c, e)
    ensures Reachable(Apply(c, e))
  {
    var es :| Exec(c.decl, es) == Some(c);
    assert (es + [e])[..|es|] == es;
    DeclStays(c, e);
    assert ExecLast(c.decl, es + [e]) == Some(Apply(c, e));
    assert Exec(c.decl, es + [e]) == Some(Apply(c, e));
  }
}
