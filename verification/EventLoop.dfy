/** The event loop in its own form: `run_thread_task` with its select loop, over the fields of the
    thread. An await hands over to whatever else is scheduled, read from `script`; every segment
    between two awaits is one step of the protocol, so every execution is a run of the machine. */
module EventLoop {
  import opened Options
  import opened ThreadProtocol
  import opened ThreadInvariants
  import Notify
  import H = HandlerFutureMachine

  /** Where the loop task awaits, with the locals the pending select depends on. */
  datatype Site = AtSetup | AtEnter | AtHook | AtLock | AtSelect(exclusive: bool, busy: bool, deferred: bool, seen: nat)

  predicate Outside(e: Event) {
    CallerEvent(e) || UserEvent(e) || e.Terminate?
  }

  class ThreadTask {
    const decl: Option<Template>
    var exclusive: bool
    var status: Status
    var bundle: bool
    var signalled: bool
    var results: seq<Outcome>
    var gate: bool
    var version: nat
    var open: bool
    var mailbox: seq<nat>
    var placed: nat                   // how many requests were ever placed
    var calls: seq<Call>
    var tasks: seq<Task>
    var script: seq<Event>            // what callers, user code and the scheduler will do
    ghost var cfg: Config

    ghost predicate Synced()
      reads this
    {
      && Reachable(cfg) && cfg.decl == decl && cfg.exclusive == exclusive
      && cfg.life.status == status && cfg.life.bundle == bundle && cfg.life.results == results
      && cfg.ctl.signalled == signalled
      && cfg.hs.gate == gate && cfg.hs.version == version && cfg.hs.tasks == tasks
      && cfg.box.open == open && cfg.box.mailbox == mailbox && cfg.box.calls == calls && |cfg.box.placed| == placed
    }

    ghost method Step(e: Event)
      requires Reachable(cfg) && Enabled(cfg, e)
      modifies this`cfg
      ensures Reachable(cfg) && cfg == Apply(old(cfg), e)
    {
      ReachStep(cfg, e);
      cfg := Apply(cfg, e);
    }

    constructor (decl: Option<Template>, script: seq<Event>)
      ensures Synced() && cfg == Init(decl) && this.decl == decl
    {
      this.decl := decl;
      this.script := script;
      exclusive, status, bundle, signalled, results := false, Running, true, false, [];
      gate, version, open, mailbox, placed, calls, tasks := false, 0, true, [], 0, [], [];
      cfg := Init(decl);
      new;
      assert Exec(decl, []) == Some(Init(decl));
    }

    // ── Callers and user code ────────────────────────────────────────────────

    method SetCaller(i: nat, pc: CallPc)
      requires i < |calls|
      modifies this`calls
      ensures calls == old(calls)[i := old(calls)[i].(pc := pc)]
    {
      calls := calls[i := calls[i].(pc := pc)];
    }

    /** What the status and the target say about a call. */
    static function AfterStatus(status: Status, handler: string): CallPc {
      if !status.Running? then Finished(Error(StatusError(status)))
      else if handler == PING then Finished(Pong)
      else Sending
    }

    /** The send on the mailbox, which fails when the receiver is gone. */
    method Enqueue(i: nat)
      requires i < |calls|
      modifies this`mailbox, this`placed, this`calls
      ensures mailbox == (if open then old(mailbox) + [i] else old(mailbox))
      ensures placed == old(placed) + (if open then 1 else 0)
      ensures calls == old(calls)[i :=
        if open then old(calls)[i].(pc := Waiting, fate := Queued)
        else old(calls)[i].(pc := Finished(Error(H.TargetCrashed)))]
    {
      if open {
        mailbox := mailbox + [i];
        placed := placed + 1;
        calls := calls[i := calls[i].(pc := Waiting, fate := Queued)];
      } else {
        calls := calls[i := calls[i].(pc := Finished(Error(H.TargetCrashed)))];
      }
    }

    /** One segment of a `dispatch_handler` call. */
    method CallerTurn(e: Event)
      requires Synced() && CallerEvent(e)
      modifies this`mailbox, this`placed, this`calls, this`cfg
      ensures Synced()
      ensures cfg == if CallerEnabled(old(cfg).box, e) then Apply(old(cfg), e) else old(cfg)
    {
      if CallerEnabled(Box(open, mailbox, [], calls), e) {
        Advance(e, cfg.box);
        Step(e);
      }
    }

    /** What the call does, on the mailbox `b` that the fields stand for. */
    method Advance(e: Event, ghost b: Box)
      requires CallerEvent(e) && CallerEnabled(Box(open, mailbox, [], calls), e)
      requires b.open == open && b.mailbox == mailbox && b.calls == calls && |b.placed| == placed
      modifies this`mailbox, this`placed, this`calls
      ensures var d := ApplyCaller(b, status, e);
        d.open == open && d.mailbox == mailbox && d.calls == calls && |d.placed| == placed
    {
      match e {
        case NewCall(handler, args) => calls := calls + [Call(handler, args, Entered, Unanswered, 0, NotPlaced)];
        case ReadStatus(i) => SetCaller(i, AfterStatus(status, calls[i].handler));
        case Send(i) => Enqueue(i);
        case Receive(i) => SetCaller(i, Finished(ResultOf(calls[i].reply)));
        case Abandon(i) => SetCaller(i, Abandoned);
      }
    }

    method SendGate(v: bool)
      modifies this`gate, this`version
      ensures gate == (if open then v else old(gate)) && version == old(version) + (if open then 1 else 0)
    {
      if open {
        gate := v;
        version := version + 1;
      }
    }

    /** One segment of a spawned handler task. */
    method HandlerTurn(e: Event)
      requires Synced() && (e.PollTask? || e.EndTask?)
      modifies this`gate, this`version, this`tasks, this`cfg
      ensures Synced()
      ensures cfg == if Enabled(old(cfg), e) then Apply(old(cfg), e) else old(cfg)
    {
      if e.k < |tasks| && (if e.PollTask? then tasks[e.k].pc.Spawned? else tasks[e.k].pc.InBody?) {
        Step(e);
        var t := tasks[e.k];
        if e.EndTask? {
          tasks := tasks[e.k := t.(pc := Ended)];
          SendGate(false);
        } else if !exclusive {
          if ArityOk(decl, Box(open, mailbox, [], calls), t.call) {
            tasks := tasks[e.k := t.(pc := InBody)];
          } else {
            tasks := tasks[e.k := t.(pc := WrongArity)];
            SendGate(false);
          }
        }
      }
    }

    /** Everything but the loop task. It never touches the loop's own position and locals. */
    method OutsideTurn(e: Event)
      requires Synced() && Outside(e)
      modifies this`exclusive, this`signalled, this`gate, this`version, this`mailbox, this`placed, this`calls, this`tasks, this`cfg
      ensures Synced() && SameLoop(old(cfg), cfg)
    {
      if e.Terminate? {
        Step(e);
        signalled := true;
      } else if e.SetExclusive? {
        Step(e);
        exclusive := e.v;
      } else if CallerEvent(e) {
        CallerTurn(e);
      } else {
        HandlerTurn(e);
      }
    }

    static ghost predicate SameLoop(c: Config, d: Config) {
      && d.ctl == c.ctl.(signalled := d.ctl.signalled) && d.life == c.life && d.hook == c.hook && d.decl == c.decl
      && (c.ctl.signalled ==> d.ctl.signalled)
    }

    predicate Accepts(site: Site, e: Event)
      reads this
    {
      match e
      case SetupDone(error) => site.AtSetup? && (error.Some? ==> decl.Some?)
      case EnterDone(_) => site.AtEnter?
      case HookDone(_) => site.AtHook?
      case Go => site.AtLock?
      case ArmTerminate => site.AtSelect? && !site.deferred && signalled
      case ArmBody(_) => site.AtSelect?
      case ArmHandler => site.AtSelect? && !site.exclusive && !site.deferred && !site.busy && mailbox != []
      case ArmGate => site.AtSelect? && site.busy && site.seen != version
      case _ => false
    }

    static ghost predicate Sits(site: Site, c: Control) {
      match site
      case AtSetup => c.pc.Setup?
      case AtEnter => c.pc.Entering?
      case AtHook => c.pc.InOnTerminate? || c.pc.InOnExit?
      case AtLock => c.pc.EarlyCrash? || c.pc.EarlyBundle? || c.pc.TakeBundle? || c.pc.MarkTerminating? || c.pc.MarkFinal?
      case AtSelect(exclusive, busy, deferred, seen) => c.pc == Select(exclusive, busy) && c.deferred == deferred && c.seen == seen
    }

    /** The next thing that happens while the loop task awaits. */
    method Happen(site: Site) returns (r: Option<Event>)
      requires Synced() && Sits(site, cfg.ctl) && script != []
      modifies this`exclusive, this`signalled, this`gate, this`version, this`mailbox, this`placed, this`calls, this`tasks, this`cfg, this`script
      ensures Synced() && SameLoop(old(cfg), cfg) && script == old(script)[1..]
      ensures r.Some? ==> Accepts(site, r.value) && Enabled(cfg, r.value)
    {
      var e := script[0];
      script := script[1..];
      if Outside(e) {
        OutsideTurn(e);
      } else if Accepts(site, e) {
        AcceptedIsEnabled(site, e);
        return Some(e);
      }
      return None;
    }

    /** An await: others run until something this site waits for happens. None: the script ends first. */
    method Await(site: Site) returns (r: Option<Event>)
      requires Synced() && Sits(site, cfg.ctl)
      modifies this`exclusive, this`signalled, this`gate, this`version, this`mailbox, this`placed, this`calls, this`tasks, this`cfg, this`script
      ensures Synced() && SameLoop(old(cfg), cfg)
      ensures |script| <= |old(script)|
      ensures r.Some? ==> Accepts(site, r.value) && Enabled(cfg, r.value) && |script| < |old(script)|
    {
      r := None;
      while script != [] && r.None?
        invariant Synced() && SameLoop(old(cfg), cfg) && |script| <= |old(script)|
        invariant r.Some? ==> Accepts(site, r.value) && Enabled(cfg, r.value) && |script| < |old(script)|
        decreases |script|
      {
        r := Happen(site);
      }
    }

    /** An await on user code (an initialiser or a hook), and what the loop records of its outcome. */
    method AwaitUser(site: Site) returns (r: Option<Event>, ghost mid: Config)
      requires Synced() && Sits(site, cfg.ctl) && (site.AtSetup? || site.AtEnter? || site.AtHook?)
      modifies this`exclusive, this`signalled, this`gate, this`version, this`mailbox, this`placed, this`calls, this`tasks, this`cfg, this`script
      ensures Synced() && SameLoop(old(cfg), mid)
      ensures r.None? ==> cfg == mid
      ensures r.Some? ==> UserDone(site, r.value) && Enabled(mid, r.value) && cfg == Apply(mid, r.value)
    {
      r := Await(site);
      mid := cfg;
      if r.Some? {
        UserStep(cfg, r.value);
        Step(r.value);
      }
    }

    /** The outcome of user code moves the loop task only. */
    static lemma UserStep(c: Config, e: Event)
      requires Enabled(c, e) && (e.SetupDone? || e.EnterDone? || e.HookDone?)
      ensures var d := Apply(c, e);
        d == c.(ctl := d.ctl, hook := d.hook) && d.ctl == c.ctl.(pc := d.ctl.pc)
    {
    }

    static predicate UserDone(site: Site, e: Event) {
      match site
      case AtSetup => e.SetupDone?
      case AtEnter => e.EnterDone?
      case AtHook => e.HookDone?
      case _ => false
    }

    lemma AcceptedIsEnabled(site: Site, e: Event)
      requires Synced() && Sits(site, cfg.ctl) && Accepts(site, e)
      ensures Enabled(cfg, e)
    {
      if e.ArmHandler? {
        MailboxIsSane(cfg);
        assert mailbox[0] in mailbox;
      }
    }

    /** And the loop misses nothing: what is enabled for it where it sits, it accepts. */
    lemma EnabledIsAccepted(site: Site, e: Event)
      requires Synced() && Sits(site, cfg.ctl) && Enabled(cfg, e) && !Outside(e)
      ensures Accepts(site, e)
    {
    }

    // ── The mailbox ──────────────────────────────────────────────────────────

    /** `drain_handlers` */
    method DrainHandlers(error: H.DispatchError)
      requires Notify.Distinct(mailbox) && forall i :: i in mailbox ==> i < |calls|
      modifies this`mailbox, this`calls
      ensures mailbox == []
      ensures calls == RejectAll(old(calls), old(mailbox), error)
    {
      ghost var queued, before, k := mailbox, calls, 0;
      assert calls == RejectAll(before, queued[..0], error);
      while mailbox != []
        invariant 0 <= k <= |queued| && mailbox == queued[k..]
        invariant |calls| == |before| && calls == RejectAll(before, queued[..k], error)
        decreases |mailbox|
      {
        var i := mailbox[0];
        assert i == queued[k] && i in queued;
        RejectOneMore(before, queued, k, error);
        calls := calls[i := Reject(calls[i], error)];
        mailbox := mailbox[1..];
        k := k + 1;
      }
      assert queued[..k] == queued;
    }

    /** The receivers go out of scope when the task returns. */
    method DropReceivers()
      requires Notify.Distinct(mailbox) && forall i :: i in mailbox ==> i < |calls|
      modifies this`mailbox, this`calls, this`open
      ensures !open && mailbox == []
      ensures calls == DropAll(old(calls), old(mailbox))
    {
      ghost var queued, before, k := mailbox, calls, 0;
      open := false;
      assert calls == DropAll(before, queued[..0]);
      while mailbox != []
        invariant 0 <= k <= |queued| && mailbox == queued[k..]
        invariant !open && |calls| == |before| && calls == DropAll(before, queued[..k])
        decreases |mailbox|
      {
        var i := mailbox[0];
        assert i == queued[k] && i in queued;
        DropOneMore(before, queued, k);
        calls := calls[i := calls[i].(reply := Closed, fate := Dropped)];
        mailbox := mailbox[1..];
        k := k + 1;
      }
      assert queued[..k] == queued;
    }

    /** `dispatch_handler_inline` for the oldest request, whose place in the order is `place`. */
    method DispatchInline(place: int)
      requires mailbox != [] && mailbox[0] < |calls| && open
      modifies this`mailbox, this`calls, this`tasks, this`gate, this`version
      ensures mailbox == old(mailbox)[1..]
      ensures calls == old(calls)[old(mailbox)[0] := Replied(decl, old(calls)[old(mailbox)[0]], status)]
      ensures if Knows(decl, old(calls)[old(mailbox)[0]].handler)
              then gate && version == old(version) + 1 && tasks == old(tasks) + [Task(old(mailbox)[0], place, Spawned)]
              else gate == old(gate) && version == old(version) && tasks == old(tasks)
    {
      var i := mailbox[0];
      var call := calls[i];
      mailbox := mailbox[1..];
      if Knows(decl, call.handler) {
        // the gate is claimed before the reply, so the next iteration already sees it
        SendGate(true);
        calls := calls[i := call.(reply := Answered(Accepted), answers := call.answers + 1, fate := Dispatched(status))];
        tasks := tasks + [Task(i, place, Spawned)];
      } else {
        calls := calls[i := Reject(call, H.TargetCrashed)];
      }
    }

    // ── The ends of the task ─────────────────────────────────────────────────

    /** A failed initialiser, a wrong arity or a failed `__on_enter__`: status and drain, … */
    method CrashEarly(how: How, msg: string) returns (finished: bool)
      requires Synced() && cfg.ctl.pc == EarlyCrash(how, msg)
      modifies this
      ensures Synced() && finished == cfg.ctl.pc.Returned?
    {
      var go := Await(AtLock);
      if go.None? { return false; }
      MailboxIsSane(cfg);
      Step(Go);
      status := Crashed(msg);
      DrainHandlers(H.TargetCrashed);
      finished := ReportCrash(how, msg);
    }

    /** … and then the result, through the bundle the loop never took. */
    method ReportCrash(how: How, msg: string) returns (finished: bool)
      requires Synced() && cfg.ctl.pc == EarlyBundle(how, msg)
      modifies this
      ensures Synced() && finished == cfg.ctl.pc.Returned?
    {
      var go := Await(AtLock);
      if go.None? { return false; }
      ReportEarly(how, msg);
      return true;
    }

    method ReportEarly(how: How, msg: string)
      requires Synced() && cfg.ctl.pc == EarlyBundle(how, msg)
      modifies this`bundle, this`results, this`mailbox, this`calls, this`open, this`cfg
      ensures Synced() && cfg.ctl.pc.Returned?
    {
      MailboxIsSane(cfg);
      Step(Go);
      if bundle {
        bundle := false;
        results := results + [Failed(msg)];
      }
      DropReceivers();
    }

    lemma FinalStep(c: Config, how: How, error: Option<string>)
      requires c.ctl.pc == MarkFinal(how, error)
      ensures Apply(c, Go) ==
        c.(ctl := c.ctl.(pc := Returned(how, error)),
           life := Report(SetStatus(c.life, FinalStatus(error)), FinalOutcome(error)),
           box := Close(if how.TornDown? then c.box else Drain(c.box, DrainError(error))))
    {
    }

    /** The drain, where the source drains, and the end of the receivers. */
    method EmptyMailbox(how: How, error: Option<string>)
      requires Notify.Distinct(mailbox) && forall i :: i in mailbox ==> i < |calls|
      modifies this`mailbox, this`calls, this`open
      ensures !open && mailbox == []
      ensures calls == if how.TornDown? then DropAll(old(calls), old(mailbox))
                       else DropAll(RejectAll(old(calls), old(mailbox), DrainError(error)), [])
    {
      if !how.TornDown? { DrainHandlers(DrainError(error)); }
      DropReceivers();
    }

    /** The last status, the drain, the result, and the return. */
    method ReportAndReturn(how: How, error: Option<string>)
      requires Synced() && cfg.ctl.pc == MarkFinal(how, error)
      modifies this`status, this`results, this`mailbox, this`calls, this`open, this`cfg
      ensures Synced() && cfg.ctl.pc == Returned(how, error)
    {
      MailboxIsSane(cfg);
      FinalStep(cfg, how, error);
      Step(Go);
      status := FinalStatus(error);
      results := results + [FinalOutcome(error)];
      EmptyMailbox(how, error);
    }

    method Finish(how: How, error: Option<string>) returns (finished: bool)
      requires Synced() && cfg.ctl.pc == MarkFinal(how, error)
      modifies this
      ensures Synced() && finished == cfg.ctl.pc.Returned?
    {
      var go := Await(AtLock);
      if go.None? { return false; }
      ReportAndReturn(how, error);
      return true;
    }

    /** `run_hook` for `__on_exit__`, after the errors so far. */
    method RunOnExit(teardown: bool, first: Option<string>) returns (finished: bool)
      requires Synced() && first == FirstError(cfg.hook)
      requires if HasHook(decl, OnExitHook) then cfg.ctl.pc == InOnExit(teardown)
               else cfg.ctl.pc == MarkFinal(if teardown then TornDown else BodyEnded, first)
      modifies this
      ensures Synced() && finished == cfg.ctl.pc.Returned?
    {
      var error := first;
      if HasHook(decl, OnExitHook) {
        var done, mid := AwaitUser(AtHook);
        if done.None? { return false; }
        if error.None? { error := done.value.error; }
      }
      finished := Finish(if teardown then TornDown else BodyEnded, error);
    }

    /** `run_teardown_hooks` and what follows it. */
    method Teardown() returns (finished: bool)
      requires Synced() && cfg.hook.errors == []
      requires if HasHook(decl, OnTerminateHook) then cfg.ctl.pc == InOnTerminate
               else if HasHook(decl, OnExitHook) then cfg.ctl.pc == InOnExit(true)
               else cfg.ctl.pc == MarkFinal(TornDown, None)
      modifies this
      ensures Synced() && finished == cfg.ctl.pc.Returned?
    {
      var first: Option<string> := None;
      if HasHook(decl, OnTerminateHook) {
        var done, mid := AwaitUser(AtHook);
        if done.None? { return false; }
        first := done.value.error;
      }
      finished := RunOnExit(true, first);
    }

    /** `set_status(Terminating)` and the drain. */
    method MarkTerminatingNow(exclusiveSnapshot: bool, crashed: bool)
      requires Synced() && cfg.ctl.pc == MarkTerminating(exclusiveSnapshot, crashed) && cfg.hook.errors == []
      modifies this`status, this`mailbox, this`calls, this`cfg
      ensures Synced()
      ensures if exclusiveSnapshot && !crashed
              then cfg.ctl == old(cfg).ctl.(pc := Top, deferred := true) && cfg.hook == old(cfg).hook
              else TeardownStarted()
    {
      MailboxIsSane(cfg);
      AfterMark(cfg);
      Step(Go);
      status := Terminating;
      DrainHandlers(H.TargetTerminating);
    }

    ghost predicate TeardownStarted()
      reads this
    {
      StartsTeardown(cfg) && cfg.decl == decl
    }

    static ghost predicate StartsTeardown(c: Config) {
      && c.hook.errors == []
      && if HasHook(c.decl, OnTerminateHook) then c.ctl.pc == InOnTerminate
         else if HasHook(c.decl, OnExitHook) then c.ctl.pc == InOnExit(true)
         else c.ctl.pc == MarkFinal(TornDown, None)
    }

    static lemma AfterMark(c: Config)
      requires c.ctl.pc.MarkTerminating? && c.hook.errors == []
      ensures var d, pc := Apply(c, Go), c.ctl.pc;
        && d == c.(ctl := d.ctl, hook := d.hook, life := SetStatus(c.life, Terminating), box := Drain(c.box, H.TargetTerminating))
        && d.ctl == c.ctl.(pc := d.ctl.pc, deferred := d.ctl.deferred)
        && if pc.exclusive && !pc.crashed
           then d.ctl == c.ctl.(pc := Top, deferred := true) && d.hook == c.hook
           else StartsTeardown(d)
    {
    }

    // ── run_thread_task ──────────────────────────────────────────────────────

    /** Whatever the others do, for however long the script runs: every execution is a run of the
        protocol, and a finished one has reported exactly once. */
    method RunThreadTask() returns (finished: bool)
      requires Synced() && cfg == Init(decl)
      modifies this
      ensures Synced() && finished == cfg.ctl.pc.Returned?
      ensures finished ==> |results| == 1 && (results[0] == Ok <==> status == Terminated) && mailbox == [] && !open
    {
      finished := Start();
      ReachableInv(cfg);
    }

    /** Up to the event loop: initialisers, `__on_enter__`, and the terminate bundle. */
    method Start() returns (finished: bool)
      requires Synced() && cfg == Init(decl)
      modifies this
      ensures Synced() && finished == cfg.ctl.pc.Returned?
    {
      var setup, mid := AwaitUser(AtSetup);
      if setup.None? { return false; }
      if setup.value.error.Some? {
        finished := CrashEarly(SetupFailed, setup.value.error.value);
        return;
      }
      if HasHook(decl, OnEnterHook) {
        var entered, mid' := AwaitUser(AtEnter);
        if entered.None? { return false; }
        if entered.value.error.Some? {
          finished := CrashEarly(EnterFailed, entered.value.error.value);
          return;
        }
      }
      finished := TakeBundleAndLoop();
    }

    /** `take_terminate_bundle_or_panic`: the bundle is always there. */
    method TakeBundleAndLoop() returns (finished: bool)
      requires Synced() && cfg.ctl.pc.TakeBundle?
      modifies this
      ensures Synced() && finished == cfg.ctl.pc.Returned?
    {
      var go := Await(AtLock);
      if go.None? { return false; }
      BundleWaits(cfg);
      assert bundle;
      Step(Go);
      bundle := false;
      finished := Loop();
    }

    method Loop() returns (finished: bool)
      requires Synced() && cfg.ctl.pc.Top? && !cfg.ctl.deferred && cfg.ctl.seen == version
      modifies this
      ensures Synced() && finished == cfg.ctl.pc.Returned?
    {
      var deferred, seen, alive := false, version, true;
      finished := false;
      while alive
        invariant Synced()
        invariant alive ==> cfg.ctl.pc.Top? && cfg.ctl.deferred == deferred && cfg.ctl.seen == seen
        invariant !alive ==> finished == cfg.ctl.pc.Returned?
        decreases alive, |script|
      {
        var exclusiveNow, busy := exclusive, gate;
        NoHookErrorsInLoop(cfg);
        Step(Go);
        if deferred && !exclusiveNow {
          finished := Teardown();
          alive := false;
        } else {
          alive, finished, deferred, seen := Turn(exclusiveNow, busy, deferred, seen);
        }
      }
    }

    /** One `select!`, with the snapshots and the loop's locals. */
    method Turn(exclusiveNow: bool, busy: bool, deferred: bool, seen: nat)
      returns (alive: bool, finished: bool, deferred': bool, seen': nat)
      requires Synced() && Sits(AtSelect(exclusiveNow, busy, deferred, seen), cfg.ctl)
      modifies this
      ensures Synced()
      ensures alive ==> cfg.ctl.pc.Top? && cfg.ctl.deferred == deferred' && cfg.ctl.seen == seen' && |script| < |old(script)|
      ensures !alive ==> finished == cfg.ctl.pc.Returned?
    {
      deferred', seen', finished := deferred, seen, false;
      var arm := Await(AtSelect(exclusiveNow, busy, deferred, seen));
      if arm.None? {
        alive := false;
      } else if arm.value.ArmTerminate? {
        alive := OnTerminateSignal(exclusiveNow);
        if alive && !exclusiveNow {
          finished := Teardown();
          alive := false;
        }
        deferred' := true;
      } else if arm.value.ArmBody? {
        finished := OnBody(arm.value.error, exclusiveNow, deferred);
        alive := false;
      } else if arm.value.ArmHandler? {
        OnRequest();
        alive := true;
      } else {
        Step(ArmGate);
        seen' := version;
        alive := true;
      }
    }

    /** The terminate arm, up to the point where it tears down or goes back to the loop. */
    method OnTerminateSignal(exclusiveSnapshot: bool) returns (alive: bool)
      requires Synced() && Enabled(cfg, ArmTerminate) && cfg.ctl.pc.exclusive == exclusiveSnapshot
      modifies this
      ensures Synced() && |script| <= |old(script)|
      ensures !alive ==> !cfg.ctl.pc.Returned?
      ensures alive && exclusiveSnapshot ==> cfg.ctl.pc.Top? && cfg.ctl.deferred && cfg.ctl.seen == old(cfg).ctl.seen
      ensures alive && !exclusiveSnapshot ==> TeardownStarted()
    {
      NoHookErrorsInLoop(cfg);
      Step(ArmTerminate);
      var go := Await(AtLock);
      if go.None? { return false; }
      MarkTerminatingNow(exclusiveSnapshot, false);
      return true;
    }

    /** The handler arm. */
    method OnRequest()
      requires Synced() && Enabled(cfg, ArmHandler)
      modifies this`mailbox, this`calls, this`tasks, this`gate, this`version, this`cfg
      ensures Synced() && cfg.ctl.pc.Top? && cfg.ctl.deferred == old(cfg).ctl.deferred && cfg.ctl.seen == old(cfg).ctl.seen
    {
      MailboxIsSane(cfg);
      Step(ArmHandler);
      DispatchInline(placed - |mailbox|);
    }

    /** The body arm: the body's future has completed. */
    method OnBody(error: Option<string>, exclusiveSnapshot: bool, deferred: bool) returns (finished: bool)
      requires Synced() && Enabled(cfg, ArmBody(error))
      requires cfg.ctl.pc.exclusive == exclusiveSnapshot && cfg.ctl.deferred == deferred
      modifies this
      ensures Synced() && finished == cfg.ctl.pc.Returned?
    {
      NoHookErrorsInLoop(cfg);
      if error.None? {
        finished := OnBodyEnd(deferred);
      } else {
        finished := OnBodyCrash(error, exclusiveSnapshot, deferred);
      }
    }

    method OnBodyEnd(deferred: bool) returns (finished: bool)
      requires Synced() && Enabled(cfg, ArmBody(None)) && cfg.ctl.deferred == deferred && cfg.hook.errors == []
      modifies this
      ensures Synced() && finished == cfg.ctl.pc.Returned?
    {
      Step(ArmBody(None));
      if deferred {
        finished := Teardown();
      } else {
        finished := RunOnExit(false, None);
      }
    }

    /** A crash of a thread that was asked to terminate is torn down all the same. */
    method OnBodyCrash(error: Option<string>, exclusiveSnapshot: bool, deferred: bool) returns (finished: bool)
      requires Synced() && Enabled(cfg, ArmBody(error)) && error.Some? && cfg.hook.errors == []
      requires cfg.ctl.pc.exclusive == exclusiveSnapshot && cfg.ctl.deferred == deferred
      modifies this
      ensures Synced() && finished == cfg.ctl.pc.Returned?
    {
      Step(ArmBody(error));
      if deferred || signalled {
        var go := Await(AtLock);
        if go.None? { return false; }
        MarkTerminatingNow(exclusiveSnapshot, true);
        finished := Teardown();
      } else {
        finished := Finish(BodyCrashed, error);
      }
    }
  }
}
