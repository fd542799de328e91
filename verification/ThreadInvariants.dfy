/** What every step of the thread protocol keeps. */
module ThreadInvariants {
  import opened Options
  import opened ThreadProtocol
  import Notify
  import H = HandlerFutureMachine

  // ── Requests ───────────────────────────────────────────────────────────────

  /** A request's fate, the state of its reply channel and the caller's position always fit: it is
      queued, dispatched, rejected or dropped, and answered exactly in the two middle cases. */
  predicate CallOk(call: Call) {
    && (match call.fate
        case NotPlaced => call.reply.Unanswered? && call.answers == 0
        case Queued => call.reply.Unanswered? && call.answers == 0
        case Dispatched(during) => call.reply == Answered(Accepted) && call.answers == 1 && during.Running?
        case Rejected(e) => call.reply == Answered(Refused(e)) && call.answers == 1
        case Dropped => call.reply.Closed? && call.answers == 0)
    && (match call.pc
        case Entered => call.fate.NotPlaced?
        case Sending => call.fate.NotPlaced?
        case Waiting => !call.fate.NotPlaced?
        case Finished(Future) => call.fate.Dispatched?
        case Finished(Pong) => call.fate.NotPlaced? && call.handler == PING
        case Finished(Error(e)) =>
          || call.fate.NotPlaced?
          || call.fate == Rejected(e)
          || (call.fate.Dropped? && e == H.TargetCrashed)
        case Abandoned => true)
  }

  ghost predicate CallsInv(b: Box) {
    && |b.mailbox| <= |b.placed| && b.mailbox == b.placed[|b.placed| - |b.mailbox|..]
    && |b.mailbox| <= CAPACITY
    && Notify.Distinct(b.placed)
    && (forall i :: i in b.placed ==> i < |b.calls|)
    && (forall i :: 0 <= i < |b.calls| ==> CallOk(b.calls[i]))
    && (forall i :: 0 <= i < |b.calls| ==> (b.calls[i].fate.NotPlaced? <==> i !in b.placed))
    && (forall i :: 0 <= i < |b.calls| ==> (b.calls[i].fate.Queued? <==> i in b.mailbox))
    && (!b.open ==> b.mailbox == [])
  }

  /** The caller moves on; the request's fate is not touched. */
  lemma CallMoves(b: Box, i: nat, pc: CallPc)
    requires CallsInv(b) && i < |b.calls| && CallOk(b.calls[i].(pc := pc))
    ensures CallsInv(b.(calls := b.calls[i := b.calls[i].(pc := pc)]))
  {
  }

  lemma SendKeepsCalls(b: Box, i: nat)
    requires CallsInv(b) && i < |b.calls| && b.calls[i].pc.Sending? && b.open && |b.mailbox| < CAPACITY
    ensures CallsInv(b.(mailbox := b.mailbox + [i], placed := b.placed + [i],
                        calls := b.calls[i := b.calls[i].(pc := Waiting, fate := Queued)]))
  {
    assert CallOk(b.calls[i]);
    assert i !in b.placed;
    var p := b.placed + [i];
    assert p[|p| - |b.mailbox| - 1..] == b.placed[|b.placed| - |b.mailbox|..] + [i];
    assert forall j :: j in p <==> j == i || j in b.placed;
    assert forall j :: j in b.mailbox + [i] <==> j == i || j in b.mailbox;
  }

  lemma CallerKeepsCalls(b: Box, status: Status, e: Event)
    requires CallsInv(b) && CallerEvent(e) && CallerEnabled(b, e)
    ensures CallsInv(ApplyCaller(b, status, e))
  {
    var d := ApplyCaller(b, status, e);
    match e {
      case Send(i) => if b.open { SendKeepsCalls(b, i); } else { CallMoves(b, i, d.calls[i].pc); }
      case ReadStatus(i) => CallMoves(b, i, d.calls[i].pc);
      case Receive(i) => CallMoves(b, i, d.calls[i].pc);
      case Abandon(i) => CallMoves(b, i, d.calls[i].pc);
      case NewCall(_, _) =>
        assert forall i :: 0 <= i < |b.calls| ==> d.calls[i] == b.calls[i];
        assert CallOk(d.calls[|b.calls|]);
    }
  }

  lemma DrainKeepsCalls(b: Box, error: H.DispatchError)
    requires CallsInv(b)
    ensures CallsInv(Drain(b, error)) && Drain(b, error).mailbox == []
  {
    EmptiedMailbox(b, Drain(b, error));
  }

  lemma CloseKeepsCalls(b: Box)
    requires CallsInv(b)
    ensures CallsInv(Close(b))
  {
    EmptiedMailbox(b, Close(b));
  }

  /** Every queued request got another fate, and nothing else changed. */
  lemma EmptiedMailbox(b: Box, d: Box)
    requires CallsInv(b) && d.mailbox == [] && d.placed == b.placed && |d.calls| == |b.calls|
    requires forall i :: 0 <= i < |b.calls| && i !in b.mailbox ==> d.calls[i] == b.calls[i]
    requires forall i :: 0 <= i < |b.calls| && i in b.mailbox ==>
      && d.calls[i].pc == b.calls[i].pc && d.calls[i].handler == b.calls[i].handler
      && ((exists e :: d.calls[i] == Reject(b.calls[i], e)) || d.calls[i] == b.calls[i].(reply := Closed, fate := Dropped))
    ensures CallsInv(d)
  {
    assert forall i :: i in b.mailbox ==> i in b.placed;
    forall i | 0 <= i < |d.calls| ensures CallOk(d.calls[i]) {
      assert CallOk(b.calls[i]);
    }
  }

  lemma AnswerKeepsCalls(decl: Option<Template>, b: Box, status: Status)
    requires CallsInv(b) && b.mailbox != [] && b.mailbox[0] < |b.calls| && status.Running?
    ensures CallsInv(AnswerOldest(decl, b, status))
  {
    var d := AnswerOldest(decl, b, status);
    var i := b.mailbox[0];
    assert i in b.mailbox && i == b.placed[|b.placed| - |b.mailbox|];
    assert d.mailbox == d.placed[|d.placed| - |d.mailbox|..];
    assert forall j :: j in b.mailbox <==> j == i || j in d.mailbox;
    assert CallOk(b.calls[i]) && CallOk(d.calls[i]);
  }

  // ── Handler tasks ──────────────────────────────────────────────────────────

  predicate Done(t: Task) {
    t.pc.Ended? || t.pc.WrongArity?
  }

  predicate Busy(tasks: seq<Task>) {
    tasks != [] && !Done(tasks[|tasks| - 1])
  }

  /** What the handler body of one task has left in the trace. */
  function Marks(t: Task): seq<Mark> {
    match t.pc
    case Spawned => []
    case WrongArity => []
    case InBody => [Start(t.call)]
    case Ended => [Start(t.call), End(t.call)]
  }

  function TraceOf(tasks: seq<Task>): seq<Mark> {
    if tasks == [] then [] else TraceOf(tasks[..|tasks| - 1]) + Marks(tasks[|tasks| - 1])
  }

  ghost predicate TaskOk(b: Box, t: Task) {
    && 0 <= t.place < |b.placed| - |b.mailbox| && b.placed[t.place] == t.call
    && t.call < |b.calls| && b.calls[t.call].fate.Dispatched?
  }

  ghost predicate HasTask(h: Handlers, i: nat) {
    exists k :: 0 <= k < |h.tasks| && h.tasks[k].call == i
  }

  /** Tasks are in mailbox order, and there is one for every dispatched request. */
  ghost predicate OrderInv(b: Box, h: Handlers) {
    && (forall k :: 0 <= k < |h.tasks| ==> TaskOk(b, h.tasks[k]))
    && (forall k, l :: 0 <= k < l < |h.tasks| ==> h.tasks[k].place < h.tasks[l].place)
    && (forall i :: 0 <= i < |b.calls| && b.calls[i].fate.Dispatched? ==> HasTask(h, i))
  }

  /** Only the youngest task can be outstanding, and while the loop runs the gate says whether it is. */
  ghost predicate SerialInv(b: Box, h: Handlers) {
    && (forall k :: 0 <= k < |h.tasks| - 1 ==> Done(h.tasks[k]))
    && h.trace == TraceOf(h.tasks)
    && (b.open ==> (h.gate <==> Busy(h.tasks)))
  }

  ghost predicate TasksInv(b: Box, h: Handlers) {
    OrderInv(b, h) && SerialInv(b, h)
  }

  /** The requests of the tasks are untouched, and no new one was dispatched. */
  lemma TasksFrame(b: Box, d: Box, h: Handlers)
    requires TasksInv(b, h)
    requires |b.placed| <= |d.placed| && d.placed[..|b.placed|] == b.placed
    requires |b.placed| - |b.mailbox| <= |d.placed| - |d.mailbox| && |b.calls| <= |d.calls|
    requires forall i :: 0 <= i < |d.calls| ==>
      (d.calls[i].fate.Dispatched? <==> i < |b.calls| && b.calls[i].fate.Dispatched?)
    requires d.open ==> b.open
    ensures TasksInv(d, h)
  {
    forall k | 0 <= k < |h.tasks| ensures TaskOk(d, h.tasks[k]) {
      assert TaskOk(b, h.tasks[k]);
      assert d.placed[..|b.placed|][h.tasks[k].place] == h.tasks[k].call;
    }
  }

  lemma CallerKeepsTasks(b: Box, status: Status, e: Event, h: Handlers)
    requires CallsInv(b) && TasksInv(b, h) && CallerEvent(e) && CallerEnabled(b, e)
    ensures TasksInv(ApplyCaller(b, status, e), h)
  {
    TasksFrame(b, ApplyCaller(b, status, e), h);
  }

  lemma DrainKeepsTasks(b: Box, h: Handlers, error: H.DispatchError)
    requires CallsInv(b) && TasksInv(b, h)
    ensures TasksInv(Drain(b, error), h)
  {
    TasksFrame(b, Drain(b, error), h);
  }

  lemma CloseKeepsTasks(b: Box, h: Handlers)
    requires CallsInv(b) && TasksInv(b, h)
    ensures TasksInv(Close(b), h)
  {
    TasksFrame(b, Close(b), h);
  }

  lemma SpawnKeepsOrder(decl: Option<Template>, b: Box, h: Handlers, status: Status)
    requires CallsInv(b) && OrderInv(b, h)
    requires b.mailbox != [] && b.mailbox[0] < |b.calls| && Knows(decl, b.calls[b.mailbox[0]].handler)
    ensures OrderInv(AnswerOldest(decl, b, status), SpawnOldest(decl, b, h))
  {
    var d, g := AnswerOldest(decl, b, status), SpawnOldest(decl, b, h);
    var i, n := b.mailbox[0], |h.tasks|;
    assert i in b.mailbox && i == b.placed[|b.placed| - |b.mailbox|];
    assert g.tasks == h.tasks + [Task(i, |b.placed| - |b.mailbox|, Spawned)];
    forall k | 0 <= k < |g.tasks| ensures TaskOk(d, g.tasks[k]) {
      if k < n { assert TaskOk(b, h.tasks[k]); }
    }
    forall k, l | 0 <= k < l < |g.tasks| ensures g.tasks[k].place < g.tasks[l].place {
      assert TaskOk(b, h.tasks[k]);
    }
    forall j | 0 <= j < |d.calls| && d.calls[j].fate.Dispatched? ensures HasTask(g, j) {
      if j == i {
        assert g.tasks[n].call == j;
      } else {
        assert HasTask(h, j);
        var k :| 0 <= k < n && h.tasks[k].call == j;
        assert g.tasks[k].call == j;
      }
    }
  }

  lemma SpawnKeepsSerial(decl: Option<Template>, b: Box, d: Box, h: Handlers)
    requires SerialInv(b, h) && !Busy(h.tasks) && b.open && d.open
    requires b.mailbox != [] && b.mailbox[0] < |b.calls| && Knows(decl, b.calls[b.mailbox[0]].handler)
    ensures SerialInv(d, SpawnOldest(decl, b, h))
  {
    var g := SpawnOldest(decl, b, h);
    assert g.tasks[..|g.tasks| - 1] == h.tasks;
    assert Marks(g.tasks[|g.tasks| - 1]) == [];
    assert TraceOf(g.tasks) == TraceOf(h.tasks) + [];
    forall k | 0 <= k < |g.tasks| - 1 ensures Done(g.tasks[k]) {
      assert g.tasks[k] == h.tasks[k];
    }
  }

  lemma SpawnKeepsTasks(decl: Option<Template>, b: Box, h: Handlers, status: Status)
    requires CallsInv(b) && TasksInv(b, h) && !Busy(h.tasks) && b.open
    requires b.mailbox != [] && b.mailbox[0] < |b.calls|
    ensures TasksInv(AnswerOldest(decl, b, status), SpawnOldest(decl, b, h))
  {
    var d, g := AnswerOldest(decl, b, status), SpawnOldest(decl, b, h);
    assert b.mailbox[0] in b.mailbox;
    if Knows(decl, b.calls[b.mailbox[0]].handler) {
      SpawnKeepsOrder(decl, b, h, status);
      SpawnKeepsSerial(decl, b, d, h);
    } else {
      TasksFrame(b, d, h);
    }
  }

  /** The outstanding task moves on; the gate opens when it is done. */
  ghost predicate Advances(b: Box, h: Handlers, g: Handlers, pc: TaskPc, marks: seq<Mark>) {
    && Busy(h.tasks)
    && var k := |h.tasks| - 1;
       var t := h.tasks[k].(pc := pc);
       && g.tasks == h.tasks[k := t]
       && g.trace == h.trace + marks && Marks(t) == Marks(h.tasks[k]) + marks
       && (b.open ==> (g.gate <==> !Done(t)))
  }

  lemma AdvanceKeepsOrder(b: Box, h: Handlers, g: Handlers, pc: TaskPc, marks: seq<Mark>)
    requires OrderInv(b, h) && Advances(b, h, g, pc, marks)
    ensures OrderInv(b, g)
  {
    forall i | 0 <= i < |b.calls| && b.calls[i].fate.Dispatched? ensures HasTask(g, i) { AdvanceKeepsTask(b, h, g, pc, marks, i); }
    assert forall l :: 0 <= l < |g.tasks| ==> TaskOk(b, h.tasks[l]);
  }

  lemma AdvanceKeepsTask(b: Box, h: Handlers, g: Handlers, pc: TaskPc, marks: seq<Mark>, i: nat)
    requires HasTask(h, i) && Advances(b, h, g, pc, marks)
    ensures HasTask(g, i)
  {
    var l :| 0 <= l < |h.tasks| && h.tasks[l].call == i;
    assert g.tasks[l].call == i;
  }

  lemma AdvanceKeepsSerial(b: Box, h: Handlers, g: Handlers, pc: TaskPc, marks: seq<Mark>)
    requires SerialInv(b, h) && Advances(b, h, g, pc, marks)
    ensures SerialInv(b, g)
  {
    var k := |h.tasks| - 1;
    assert g.tasks[..k] == h.tasks[..k];
    assert TraceOf(g.tasks) == TraceOf(h.tasks[..k]) + Marks(g.tasks[k]);
    assert TraceOf(h.tasks) == TraceOf(h.tasks[..k]) + Marks(h.tasks[k]);
  }

  lemma AdvanceKeepsTasks(b: Box, h: Handlers, g: Handlers, pc: TaskPc, marks: seq<Mark>)
    requires TasksInv(b, h) && Advances(b, h, g, pc, marks)
    ensures TasksInv(b, g)
  {
    AdvanceKeepsOrder(b, h, g, pc, marks);
    AdvanceKeepsSerial(b, h, g, pc, marks);
  }

  lemma PollKeepsTasks(decl: Option<Template>, exclusive: bool, b: Box, h: Handlers, k: nat)
    requires TasksInv(b, h) && k < |h.tasks| && h.tasks[k].pc.Spawned?
    ensures TasksInv(b, ApplyPollTask(decl, exclusive, b, h, k))
  {
    assert k == |h.tasks| - 1;
    if !exclusive {
      var ok := ArityOk(decl, b, h.tasks[k].call);
      AdvanceKeepsTasks(b, h, ApplyPollTask(decl, exclusive, b, h, k),
                        if ok then InBody else WrongArity, if ok then [Start(h.tasks[k].call)] else []);
    }
  }

  lemma EndKeepsTasks(b: Box, h: Handlers, k: nat)
    requires TasksInv(b, h) && k < |h.tasks| && h.tasks[k].pc.InBody?
    ensures TasksInv(b, ApplyEndTask(b, h, k))
  {
    assert k == |h.tasks| - 1;
    AdvanceKeepsTasks(b, h, ApplyEndTask(b, h, k), Ended, [End(h.tasks[k].call)]);
  }

  // ── The loop's snapshot of the gate ────────────────────────────────────────

  predicate BeforeLoop(pc: Pc) {
    pc.Setup? || pc.Entering? || pc.EarlyCrash? || pc.EarlyBundle? || pc.TakeBundle?
  }

  /** A snapshot "free" is still true; a snapshot "busy" that became stale left an unseen version. */
  predicate GateInv(ctl: Control, h: Handlers) {
    && ctl.seen <= h.version
    && (ctl.pc.Select? && !ctl.pc.busy ==> !h.gate)
    && (ctl.pc.Select? && ctl.pc.busy && !h.gate ==> ctl.seen < h.version)
    && (BeforeLoop(ctl.pc) ==> h.tasks == [])
  }

  // ── Lifecycle and hooks ────────────────────────────────────────────────────

  predicate Allowed(a: Status, b: Status) {
    match a
    case Running => !b.Running?
    case Terminating => !b.Running?
    case Terminated => false
    case Crashed(_) => false
  }

  ghost predicate LogInv(l: Life) {
    && l.log != [] && l.log[0] == Running && l.log[|l.log| - 1] == l.status
    && forall i :: 0 < i < |l.log| ==> Allowed(l.log[i - 1], l.log[i])
  }

  predicate Early(how: How) {
    how.SetupFailed? || how.EnterFailed?
  }

  predicate Calm(c: Control, l: Life) {
    l.status.Running? && !c.fired && !c.deferred
  }

  predicate LifeInv(c: Control, l: Life, open: bool) {
    && c.pollsAfterFired == 0
    && (c.fired ==> c.signalled)
    && (open <==> !c.pc.Returned?)
    && (!c.pc.Returned? ==> l.results == [])
    && (l.bundle <==> BeforeLoop(c.pc))
    && match c.pc
       case Setup => Calm(c, l)
       case Entering => Calm(c, l)
       case EarlyCrash(how, _) => Calm(c, l) && Early(how)
       case EarlyBundle(how, m) => l.status == Crashed(m) && !c.fired && Early(how)
       case TakeBundle => Calm(c, l)
       case Top => if c.deferred then l.status.Terminating? && c.fired else Calm(c, l)
       case Select(_, _) => if c.deferred then l.status.Terminating? && c.fired else Calm(c, l)
       case MarkTerminating(_, crashed) => c.fired && (if c.deferred then l.status.Terminating? && crashed else l.status.Running?)
       case InOnTerminate => l.status.Terminating? && c.fired
       case InOnExit(teardown) => if teardown then l.status.Terminating? && c.fired else Calm(c, l)
       case MarkFinal(how, error) =>
         && !Early(how) && (how.BodyCrashed? ==> error.Some?)
         && (if how.TornDown? then l.status.Terminating? && c.fired else Calm(c, l))
       case Returned(how, error) =>
         && l.status == FinalStatus(error) && l.results == [FinalOutcome(error)]
         && (how.TornDown? <==> c.fired)
         && (Early(how) || how.BodyCrashed? ==> error.Some?)
  }

  /** Hooks up to a point of the loop, in the only order they can run. */
  function EnterHooks(decl: Option<Template>): seq<Hook> {
    if HasHook(decl, OnEnterHook) then [OnEnterHook] else []
  }

  function TerminateHooks(decl: Option<Template>): seq<Hook> {
    EnterHooks(decl) + (if HasHook(decl, OnTerminateHook) then [OnTerminateHook] else [])
  }

  function HooksOf(decl: Option<Template>, how: How): seq<Hook> {
    var exit := if HasHook(decl, OnExitHook) then [OnExitHook] else [];
    match how
    case SetupFailed => []
    case EnterFailed => [OnEnterHook]
    case BodyCrashed => EnterHooks(decl)
    case BodyEnded => EnterHooks(decl) + exit
    case TornDown => TerminateHooks(decl) + exit
  }

  predicate HooksInv(decl: Option<Template>, pc: Pc, h: HookLog) {
    match pc
    case Setup => h == HookLog([], [])
    case Entering => HasHook(decl, OnEnterHook) && h == HookLog([OnEnterHook], [])
    case EarlyCrash(how, m) => h == HookLog(HooksOf(decl, how), if how.EnterFailed? then [m] else [])
    case EarlyBundle(how, m) => h == HookLog(HooksOf(decl, how), if how.EnterFailed? then [m] else [])
    case InOnTerminate => h == HookLog(TerminateHooks(decl), [])
    case InOnExit(teardown) => h.started == HooksOf(decl, if teardown then TornDown else BodyEnded)
    case MarkFinal(how, error) => h.started == HooksOf(decl, how) && (how.BodyCrashed? || error == FirstError(h))
    case Returned(how, error) =>
      h.started == HooksOf(decl, how) && (how.SetupFailed? || how.BodyCrashed? || error == FirstError(h))
    case _ => h == HookLog(EnterHooks(decl), [])
  }

  ghost predicate ControlInv(c: Config) {
    LogInv(c.life) && LifeInv(c.ctl, c.life, c.box.open) && HooksInv(c.decl, c.ctl.pc, c.hook)
  }

  ghost predicate Inv(c: Config) {
    CallsInv(c.box) && TasksInv(c.box, c.hs) && GateInv(c.ctl, c.hs) && ControlInv(c)
  }

  lemma SetStatusKeepsLog(l: Life, s: Status)
    requires LogInv(l) && Allowed(l.status, s)
    ensures LogInv(SetStatus(l, s))
  {
  }

  lemma ExitControl(c: Config, teardown: bool)
    requires LogInv(c.life) && LifeInv(c.ctl.(pc := InOnExit(teardown)), c.life, c.box.open)
    requires c.hook.started == if teardown then TerminateHooks(c.decl) else EnterHooks(c.decl)
    ensures ControlInv(StartExit(c, teardown))
  {
  }

  lemma TeardownControl(c: Config)
    requires LogInv(c.life) && LifeInv(c.ctl.(pc := InOnTerminate), c.life, c.box.open)
    requires c.hook == HookLog(EnterHooks(c.decl), [])
    ensures ControlInv(StartTeardown(c))
  {
    if !HasHook(c.decl, OnTerminateHook) { ExitControl(c, true); }
  }

  lemma MarkTerminatingControl(c: Config)
    requires ControlInv(c) && c.ctl.pc.MarkTerminating?
    ensures ControlInv(ApplyGo(c))
  {
    SetStatusKeepsLog(c.life, Terminating);
    if !(c.ctl.pc.exclusive && !c.ctl.pc.crashed) {
      TeardownControl(c.(life := SetStatus(c.life, Terminating), box := Drain(c.box, H.TargetTerminating)));
    }
  }

  lemma MarkFinalControl(c: Config)
    requires ControlInv(c) && c.ctl.pc.MarkFinal?
    ensures ControlInv(ApplyGo(c))
  {
    SetStatusKeepsLog(c.life, FinalStatus(c.ctl.pc.error));
  }

  lemma EarlyControl(c: Config)
    requires ControlInv(c) && (c.ctl.pc.EarlyCrash? || c.ctl.pc.EarlyBundle? || c.ctl.pc.TakeBundle?)
    ensures ControlInv(ApplyGo(c))
  {
    if c.ctl.pc.EarlyCrash? { SetStatusKeepsLog(c.life, Crashed(c.ctl.pc.msg)); }
  }

  lemma GoControl(c: Config)
    requires ControlInv(c) && Enabled(c, Go)
    ensures ControlInv(ApplyGo(c))
  {
    if c.ctl.pc.MarkTerminating? { MarkTerminatingControl(c); }
    else if c.ctl.pc.MarkFinal? { MarkFinalControl(c); }
    else if c.ctl.pc.Top? { if c.ctl.deferred && !c.exclusive { TeardownControl(c); } }
    else { EarlyControl(c); }
  }

  lemma ArmControl(c: Config, e: Event)
    requires ControlInv(c) && ArmEvent(e) && ArmEnabled(c, e)
    ensures ControlInv(ApplyArm(c, e))
  {
    assert PollTerminate(c.ctl) == c.ctl;
    if e.ArmBody? && e.error.None? {
      if c.ctl.deferred { TeardownControl(c); } else { ExitControl(c, false); }
    }
  }

  lemma EntryControl(c: Config, e: Event)
    requires ControlInv(c) && Enabled(c, e) && (e.SetupDone? || e.EnterDone?)
    ensures ControlInv(Apply(c, e))
  {
  }

  lemma HookControl(c: Config, e: Event)
    requires ControlInv(c) && Enabled(c, e) && e.HookDone?
    ensures ControlInv(Apply(c, e))
  {
    if c.ctl.pc.InOnTerminate? { ExitControl(c.(hook := AddError(c.hook, e.error)), true); }
  }

  lemma ControlStep(c: Config, e: Event)
    requires ControlInv(c) && Enabled(c, e)
    ensures ControlInv(Apply(c, e))
  {
    if ArmEvent(e) { ArmControl(c, e); }
    else if e.Go? { GoControl(c); }
    else if e.SetupDone? || e.EnterDone? { EntryControl(c, e); }
    else if e.HookDone? { HookControl(c, e); }
  }

  lemma GoGate(c: Config)
    requires GateInv(c.ctl, c.hs) && Enabled(c, Go)
    ensures GateInv(ApplyGo(c).ctl, ApplyGo(c).hs)
  {
    assert ApplyGo(c).hs == c.hs;
  }

  lemma ArmGateInv(c: Config, e: Event)
    requires GateInv(c.ctl, c.hs) && ArmEvent(e) && ArmEnabled(c, e)
    ensures GateInv(ApplyArm(c, e).ctl, ApplyArm(c, e).hs)
  {
  }

  lemma TaskGate(c: Config, e: Event)
    requires GateInv(c.ctl, c.hs) && (e.PollTask? || e.EndTask?) && Enabled(c, e)
    requires c.ctl.pc.Select? ==> c.box.open
    ensures GateInv(Apply(c, e).ctl, Apply(c, e).hs)
  {
    assert !BeforeLoop(c.ctl.pc);
  }

  lemma GateStep(c: Config, e: Event)
    requires GateInv(c.ctl, c.hs) && Enabled(c, e)
    requires c.ctl.pc.Select? ==> c.box.open
    ensures GateInv(Apply(c, e).ctl, Apply(c, e).hs)
  {
    if ArmEvent(e) { ArmGateInv(c, e); }
    else if e.Go? { GoGate(c); }
    else if e.PollTask? || e.EndTask? { TaskGate(c, e); }
  }

  lemma HandlerArmBox(c: Config)
    requires CallsInv(c.box) && TasksInv(c.box, c.hs) && ArmEnabled(c, ArmHandler)
    requires c.life.status.Running? && c.box.open && !c.hs.gate
    ensures var d := ApplyArm(c, ArmHandler); CallsInv(d.box) && TasksInv(d.box, d.hs)
  {
    AnswerKeepsCalls(c.decl, c.box, c.life.status);
    SpawnKeepsTasks(c.decl, c.box, c.hs, c.life.status);
  }

  lemma BoxStep(c: Config, e: Event)
    requires CallsInv(c.box) && TasksInv(c.box, c.hs) && Enabled(c, e)
    requires e.ArmHandler? ==> c.life.status.Running? && c.box.open && !c.hs.gate
    ensures CallsInv(Apply(c, e).box) && TasksInv(Apply(c, e).box, Apply(c, e).hs)
  {
    if CallerEvent(e) {
      CallerKeepsCalls(c.box, c.life.status, e);
      CallerKeepsTasks(c.box, c.life.status, e, c.hs);
    } else if e.ArmHandler? {
      HandlerArmBox(c);
    } else if e.PollTask? {
      PollKeepsTasks(c.decl, c.exclusive, c.box, c.hs, e.k);
    } else if e.EndTask? {
      EndKeepsTasks(c.box, c.hs, e.k);
    } else if e.Go? {
      GoBox(c);
    } else {
      QuietStep(c, e);
    }
  }

  /** The other steps touch neither the requests nor the handlers. */
  lemma QuietStep(c: Config, e: Event)
    requires Enabled(c, e) && !CallerEvent(e) && !e.ArmHandler? && !e.PollTask? && !e.EndTask? && !e.Go?
    ensures Apply(c, e).box == c.box && Apply(c, e).hs == c.hs
  {
  }

  lemma LoopIsOpen(c: Config)
    requires ControlInv(c) && c.ctl.pc.Select?
    ensures c.box.open && (!c.ctl.deferred ==> c.life.status.Running?)
  {
  }

  lemma GoBox(c: Config)
    requires CallsInv(c.box) && TasksInv(c.box, c.hs) && Enabled(c, Go)
    ensures CallsInv(ApplyGo(c).box) && TasksInv(ApplyGo(c).box, ApplyGo(c).hs)
  {
    var b, h := c.box, c.hs;
    match c.ctl.pc {
      case EarlyCrash(_, _) =>
        DrainKeepsCalls(b, H.TargetCrashed);
        DrainKeepsTasks(b, h, H.TargetCrashed);
      case EarlyBundle(_, _) =>
        CloseKeepsCalls(b);
        CloseKeepsTasks(b, h);
      case MarkTerminating(_, _) =>
        DrainKeepsCalls(b, H.TargetTerminating);
        DrainKeepsTasks(b, h, H.TargetTerminating);
      case MarkFinal(how, error) =>
        DrainKeepsCalls(b, DrainError(error));
        DrainKeepsTasks(b, h, DrainError(error));
        var d := if how.TornDown? then b else Drain(b, DrainError(error));
        CloseKeepsCalls(d);
        CloseKeepsTasks(d, h);
      case _ =>
    }
  }

  lemma StepKeepsInv(c: Config, e: Event)
    requires Inv(c) && Enabled(c, e)
    ensures Inv(Apply(c, e))
  {
    if c.ctl.pc.Select? { LoopIsOpen(c); }
    ControlStep(c, e);
    GateStep(c, e);
    BoxStep(c, e);
  }

  lemma {:induction false} RunInv(decl: Option<Template>, es: seq<Event>)
    requires Exec(decl, es).Some?
    ensures Inv(Exec(decl, es).value) && Exec(decl, es).value.decl == decl
  {
    if es != [] {
      assert Exec(decl, es) == ExecLast(decl, es);
      RunInv(decl, es[..|es| - 1]);
      StepKeepsInv(Exec(decl, es[..|es| - 1]).value, es[|es| - 1]);
      DeclStays(Exec(decl, es[..|es| - 1]).value, es[|es| - 1]);
    }
  }

  lemma ReachableInv(c: Config)
    requires Reachable(c)
    ensures Inv(c)
  {
    var es :| Exec(c.decl, es) == Some(c);
    RunInv(c.decl, es);
  }

  // ── Single facts about reachable configurations ────────────────────────────

  lemma ReachableControl(c: Config)
    requires Reachable(c)
    ensures ControlInv(c)
  {
    ReachableInv(c);
  }

  lemma ReachableCalls(c: Config)
    requires Reachable(c)
    ensures CallsInv(c.box)
  {
    ReachableInv(c);
  }

  lemma ReachableHooks(c: Config)
    requires Reachable(c)
    ensures HooksInv(c.decl, c.ctl.pc, c.hook) && c.ctl.pollsAfterFired == 0
  {
    ReachableControl(c);
  }

  lemma MailboxIsSane(c: Config)
    requires Reachable(c)
    ensures forall i :: i in c.box.mailbox ==> i < |c.box.calls|
    ensures Notify.Distinct(c.box.mailbox)
    ensures c.ctl.pc.Select? ==> c.box.open
  {
    ReachableInv(c);
    var b := c.box;
    forall i | i in b.mailbox ensures i < |b.calls| {
      assert i in b.placed[|b.placed| - |b.mailbox|..];
      assert i in b.placed;
    }
    forall j, k | 0 <= j < k < |b.mailbox| ensures b.mailbox[j] != b.mailbox[k] {
      var n := |b.placed| - |b.mailbox|;
      assert b.mailbox[j] == b.placed[n + j] && b.mailbox[k] == b.placed[n + k];
    }
  }

  lemma NoHookErrorsInLoop(c: Config)
    requires Reachable(c) && (c.ctl.pc.Top? || c.ctl.pc.Select?)
    ensures c.hook.errors == []
  {
    ReachableInv(c);
  }

  lemma BundleWaits(c: Config)
    requires Reachable(c) && c.ctl.pc.TakeBundle?
    ensures c.life.bundle && !c.ctl.deferred
  {
    ReachableInv(c);
  }

  lemma RejectOneMore(calls: seq<Call>, queued: seq<nat>, k: nat, error: H.DispatchError)
    requires Notify.Distinct(queued) && k < |queued| && queued[k] < |calls|
    ensures RejectAll(calls, queued[..k], error)[queued[k]] == calls[queued[k]]
    ensures RejectAll(calls, queued[..k + 1], error)
            == RejectAll(calls, queued[..k], error)[queued[k] := Reject(calls[queued[k]], error)]
  {
    assert queued[k] !in queued[..k];
    assert queued[..k + 1] == queued[..k] + [queued[k]];
  }

  lemma DropOneMore(calls: seq<Call>, queued: seq<nat>, k: nat)
    requires Notify.Distinct(queued) && k < |queued| && queued[k] < |calls|
    ensures DropAll(calls, queued[..k])[queued[k]] == calls[queued[k]]
    ensures DropAll(calls, queued[..k + 1])
            == DropAll(calls, queued[..k])[queued[k] := calls[queued[k]].(reply := Closed, fate := Dropped)]
  {
    assert queued[k] !in queued[..k];
    assert queued[..k + 1] == queued[..k] + [queued[k]];
    var now := DropAll(calls, queued[..k])[queued[k] := calls[queued[k]].(reply := Closed, fate := Dropped)];
    assert forall i :: 0 <= i < |calls| ==> DropAll(calls, queued[..k + 1])[i] == now[i];
  }
}
