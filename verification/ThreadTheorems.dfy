/** The promises of the thread runtime, over every interleaving. */
module ThreadTheorems {
  import opened Options
  import opened ThreadProtocol
  import opened ThreadInvariants
  import Notify
  import H = HandlerFutureMachine

  // ── R-HANDLER-2: handlers do not interleave, and run in mailbox order ──────

  function StartPlaces(tasks: seq<Task>): seq<int> {
    if tasks == [] then []
    else
      var t := tasks[|tasks| - 1];
      StartPlaces(tasks[..|tasks| - 1]) + (if t.pc.InBody? || t.pc.Ended? then [t.place] else [])
  }

  /** start, end, start, end, …: the j-th pair belongs to the request placed at `ps[j]`. */
  ghost predicate Bracketed(trace: seq<Mark>, placed: seq<nat>, ps: seq<int>) {
    && |ps| == (|trace| + 1) / 2
    && (forall j :: 0 <= j < |ps| ==> 0 <= ps[j] < |placed|)
    && (forall j, k :: 0 <= j < k < |ps| ==> ps[j] < ps[k])
    && (forall j :: 0 <= j < |ps| ==> trace[2 * j] == Start(placed[ps[j]]))
    && (forall j :: 0 <= j < |ps| && 2 * j + 1 < |trace| ==> trace[2 * j + 1] == End(placed[ps[j]]))
  }

  ghost predicate InOrder(tasks: seq<Task>, placed: seq<nat>) {
    && (forall k :: 0 <= k < |tasks| ==> 0 <= tasks[k].place < |placed| && placed[tasks[k].place] == tasks[k].call)
    && (forall k, l :: 0 <= k < l < |tasks| ==> tasks[k].place < tasks[l].place)
  }

  ghost predicate Increasing(ps: seq<int>, bound: int) {
    && (forall j :: 0 <= j < |ps| ==> 0 <= ps[j] < bound)
    && (forall j, k :: 0 <= j < k < |ps| ==> ps[j] < ps[k])
  }

  lemma {:induction false} PlacesIncrease(tasks: seq<Task>, placed: seq<nat>)
    requires InOrder(tasks, placed)
    ensures Increasing(StartPlaces(tasks), if tasks == [] then 0 else tasks[|tasks| - 1].place + 1)
  {
    if tasks != [] {
      var n := |tasks| - 1;
      PlacesIncrease(tasks[..n], placed);
      var before := StartPlaces(tasks[..n]);
      assert n > 0 ==> tasks[..n][n - 1] == tasks[n - 1] && tasks[n - 1].place < tasks[n].place;
      assert Increasing(before, tasks[n].place);
    }
  }

  /** One more pair, or the first half of one, for a request placed later. */
  lemma ExtendBrackets(tr: seq<Mark>, placed: seq<nat>, ps: seq<int>, t: Task)
    requires Bracketed(tr, placed, ps) && |tr| == 2 * |ps|
    requires 0 <= t.place < |placed| && placed[t.place] == t.call && forall j :: 0 <= j < |ps| ==> ps[j] < t.place
    ensures Bracketed(tr + Marks(t), placed, ps + (if t.pc.InBody? || t.pc.Ended? then [t.place] else []))
  {
  }

  lemma {:induction false} TraceIsBracketed(tasks: seq<Task>, placed: seq<nat>)
    requires InOrder(tasks, placed)
    requires forall k :: 0 <= k < |tasks| - 1 ==> Done(tasks[k])
    ensures var tr, ps := TraceOf(tasks), StartPlaces(tasks);
            && Bracketed(tr, placed, ps)
            && |tr| == 2 * |ps| - (if tasks != [] && tasks[|tasks| - 1].pc.InBody? then 1 else 0)
  {
    if tasks != [] {
      var n := |tasks| - 1;
      TraceIsBracketed(tasks[..n], placed);
      if n > 0 { assert Done(tasks[n - 1]) && tasks[..n][n - 1] == tasks[n - 1]; }
      var tr, ps := TraceOf(tasks[..n]), StartPlaces(tasks[..n]);
      assert |tr| == 2 * |ps|;
      PlacesIncrease(tasks[..n], placed);
      assert n > 0 ==> tasks[..n][n - 1] == tasks[n - 1] && tasks[n - 1].place < tasks[n].place;
      ExtendBrackets(tr, placed, ps, tasks[n]);
    }
  }

  lemma HandlersRunOneAtATimeInOrder(c: Config)
    requires Reachable(c)
    ensures exists ps :: Bracketed(c.hs.trace, c.box.placed, ps)
  {
    ReachableInv(c);
    assert forall k :: 0 <= k < |c.hs.tasks| ==> TaskOk(c.box, c.hs.tasks[k]);
    TraceIsBracketed(c.hs.tasks, c.box.placed);
  }

  predicate Outstanding(h: Handlers, k: nat) {
    k < |h.tasks| && !Done(h.tasks[k])
  }

  /** While the loop runs, the gate is set exactly when one handler is outstanding, and there is
      never a second one, not even after the loop has returned. */
  lemma GateMeansOneHandler(c: Config)
    requires Reachable(c)
    ensures c.box.open ==> (c.hs.gate <==> exists k :: Outstanding(c.hs, k))
    ensures forall k, l :: Outstanding(c.hs, k) && Outstanding(c.hs, l) ==> k == l
  {
    ReachableInv(c);
    if Busy(c.hs.tasks) { assert Outstanding(c.hs, |c.hs.tasks| - 1); }
  }

  /** R-EXCL-1: a handler body never starts while the thread is exclusive; and it only starts behind
      a claimed gate, on behalf of a request that was accepted while the thread was running. */
  lemma StartsOnlyWhenAllowed(c: Config, e: Event, x: nat)
    requires Reachable(c) && Enabled(c, e) && Apply(c, e).hs.trace == c.hs.trace + [Start(x)]
    ensures !c.exclusive && (c.box.open ==> c.hs.gate)
    ensures x < |c.box.calls| && c.box.calls[x].fate == Dispatched(Running)
    ensures Declares(c.decl, c.box.calls[x].handler) && c.decl.value.handlers[c.box.calls[x].handler] == c.box.calls[x].args
  {
    ReachableInv(c);
    assert (c.hs.trace + [Start(x)])[|c.hs.trace|] == Start(x);
    assert |Apply(c, e).hs.trace| == |c.hs.trace| + 1;
    StartIsAPoll(c, e);
    assert e.k == |c.hs.tasks| - 1;
    assert TaskOk(c.box, c.hs.tasks[e.k]);
    assert CallOk(c.box.calls[c.hs.tasks[e.k].call]);
    ReachableDeclared(c);
  }

  lemma StartIsAPoll(c: Config, e: Event)
    requires Enabled(c, e) && |Apply(c, e).hs.trace| == |c.hs.trace| + 1
    ensures e.PollTask? || e.EndTask?
  {
  }

  // ── Handlers and the template ──────────────────────────────────────────────

  predicate Declares(decl: Option<Template>, handler: string) {
    decl.Some? && handler in decl.value.handlers
  }

  /** Every accepted request is for a declared handler. */
  ghost predicate Declared(c: Config) {
    forall i :: 0 <= i < |c.box.calls| && c.box.calls[i].fate.Dispatched? ==> Declares(c.decl, c.box.calls[i].handler)
  }

  lemma StepKeepsDeclared(c: Config, e: Event)
    requires Declared(c) && Enabled(c, e)
    ensures Declared(Apply(c, e))
  {
    DeclStays(c, e);
    var d := Apply(c, e);
    forall i | 0 <= i < |d.box.calls| && d.box.calls[i].fate.Dispatched? ensures Declares(c.decl, d.box.calls[i].handler) {
      if i < |c.box.calls| && c.box.calls[i].fate.Dispatched? { HandlerStays(c, e, i); }
    }
  }

  lemma HandlerStays(c: Config, e: Event, i: nat)
    requires Enabled(c, e) && i < |c.box.calls|
    ensures i < |Apply(c, e).box.calls| && Apply(c, e).box.calls[i].handler == c.box.calls[i].handler
  {
  }

  lemma {:induction false} RunDeclared(decl: Option<Template>, es: seq<Event>)
    requires Exec(decl, es).Some?
    ensures Declared(Exec(decl, es).value)
  {
    if es != [] {
      assert Exec(decl, es) == ExecLast(decl, es);
      RunDeclared(decl, es[..|es| - 1]);
      StepKeepsDeclared(Exec(decl, es[..|es| - 1]).value, es[|es| - 1]);
    }
  }

  lemma ReachableDeclared(c: Config)
    requires Reachable(c)
    ensures Declared(c)
  {
    var es :| Exec(c.decl, es) == Some(c);
    RunDeclared(c.decl, es);
  }

  /** The handler arm accepts the oldest request, and spawns its task behind the gate, exactly if the
      template declares the handler; otherwise the caller is told that the target crashed. */
  lemma DispatchFollowsTheTemplate(c: Config)
    requires Reachable(c) && Enabled(c, ArmHandler)
    ensures var i, d := c.box.mailbox[0], Apply(c, ArmHandler);
      && i < |d.box.calls|
      && d.box.mailbox == c.box.mailbox[1..]
      && if Declares(c.decl, c.box.calls[i].handler)
         then d.box.calls[i].reply == Answered(Accepted) && d.box.calls[i].fate == Dispatched(Running)
              && d.hs.gate && |d.hs.tasks| == |c.hs.tasks| + 1 && d.hs.tasks[|c.hs.tasks|].call == i
         else d.box.calls[i].reply == Answered(Refused(H.TargetCrashed)) && d.hs == c.hs
  {
    ReachableInv(c);
  }

  /** A spawned handler that is scheduled outside an exclusive block starts its body exactly if it was
      given as many arguments as it declares; otherwise it is done at once and never starts. */
  lemma BodiesGetTheirArguments(c: Config, k: nat)
    requires Reachable(c) && Enabled(c, PollTask(k)) && !c.exclusive
    ensures c.hs.tasks[k].call < |c.box.calls|
    ensures var call, d := c.box.calls[c.hs.tasks[k].call], Apply(c, PollTask(k));
      && Declares(c.decl, call.handler)
      && if c.decl.value.handlers[call.handler] == call.args
         then d.hs.tasks[k].pc.InBody? && d.hs.trace == c.hs.trace + [Start(c.hs.tasks[k].call)]
         else d.hs.tasks[k].pc.WrongArity? && d.hs.trace == c.hs.trace && (c.box.open ==> !d.hs.gate)
  {
    ReachableInv(c);
    ReachableDeclared(c);
    assert TaskOk(c.box, c.hs.tasks[k]);
  }

  // ── Requests ───────────────────────────────────────────────────────────────

  /** Every request ever placed is queued, dispatched, rejected or dropped, and its reply channel was
      used once in the two middle cases and not at all otherwise; a request that was never placed is
      unanswered; the mailbox never holds more than its capacity; every acceptance was given
      while the status was Running. */
  lemma RequestsAreConserved(c: Config, i: nat)
    requires Reachable(c) && i < |c.box.calls|
    ensures i in c.box.placed <==> !c.box.calls[i].fate.NotPlaced?
    ensures i in c.box.mailbox <==> c.box.calls[i].fate.Queued?
    ensures c.box.calls[i].answers == if c.box.calls[i].fate.Dispatched? || c.box.calls[i].fate.Rejected? then 1 else 0
    ensures c.box.calls[i].fate.Dispatched? ==> c.box.calls[i].fate.during == Running && HasTask(c.hs, i)
    ensures |c.box.mailbox| <= 64
  {
    ReachableInv(c);
    assert CallOk(c.box.calls[i]);
  }

  predicate Settled(f: Fate) {
    f.Dispatched? || f.Rejected? || f.Dropped?
  }

  /** A settled request stays as it is: it is never answered again, moved, or given another task. */
  lemma SettledIsFinal(c: Config, e: Event, i: nat)
    requires Reachable(c) && Enabled(c, e) && i < |c.box.calls| && Settled(c.box.calls[i].fate)
    ensures i < |Apply(c, e).box.calls|
    ensures var x, y := c.box.calls[i], Apply(c, e).box.calls[i];
            y.fate == x.fate && y.reply == x.reply && y.answers == x.answers
  {
    ReachableCalls(c);
    assert i !in c.box.mailbox;
    if CallerEvent(e) {
      SettledCaller(c.box, c.life.status, e, i);
    } else if e.Go? {
      SettledGo(c, i);
    } else if e.ArmHandler? {
      assert c.box.mailbox[0] in c.box.mailbox;
    }
  }

  lemma SettledCaller(b: Box, status: Status, e: Event, i: nat)
    requires CallsInv(b) && CallerEvent(e) && CallerEnabled(b, e) && i < |b.calls| && Settled(b.calls[i].fate)
    ensures i < |ApplyCaller(b, status, e).calls|
    ensures var x, y := b.calls[i], ApplyCaller(b, status, e).calls[i];
            y.fate == x.fate && y.reply == x.reply && y.answers == x.answers
  {
    assert CallOk(b.calls[i]);
  }

  lemma SettledGo(c: Config, i: nat)
    requires Enabled(c, Go) && i < |c.box.calls| && i !in c.box.mailbox
    ensures i < |ApplyGo(c).box.calls| && ApplyGo(c).box.calls[i] == c.box.calls[i]
  {
  }

  /** Once the loop task has returned, every caller that waits for its dispatch answer can go on, and
      so can every caller that is still trying to send: both end with an answer. */
  lemma NobodyWaitsForADeadThread(c: Config, i: nat)
    requires Reachable(c) && c.ctl.pc.Returned? && i < |c.box.calls|
    ensures c.box.calls[i].pc.Waiting? ==> Enabled(c, Receive(i))
    ensures c.box.calls[i].pc.Sending? ==>
      Enabled(c, Send(i)) && Apply(c, Send(i)).box.calls[i].pc == Finished(Error(H.TargetCrashed))
  {
    ReachableInv(c);
    assert CallOk(c.box.calls[i]);
  }

  /** A caller that sends waits while the mailbox of a living thread is full, and only then; its request
      goes to the end of the mailbox. */
  lemma SendersWaitForRoom(c: Config, i: nat)
    requires Reachable(c) && i < |c.box.calls| && c.box.calls[i].pc.Sending?
    ensures Enabled(c, Send(i)) <==> !c.box.open || |c.box.mailbox| < 64
    ensures Enabled(c, Send(i)) && c.box.open ==> Apply(c, Send(i)).box.mailbox == c.box.mailbox + [i]
  {
  }

  // ── What callers are told ──────────────────────────────────────────────────

  /** The error that goes with the status of a thread that is not running. */
  predicate Tells(error: H.DispatchError, status: Status) {
    && (error.TargetTerminated? <==> status.Terminated?)
    && (error.TargetTerminating? <==> status.Terminating?)
    && (error.TargetCrashed? <==> status.Crashed?)
  }

  /** A new call reads the status: only a running thread is sent a request or answers a ping, and any
      other gives the error of its status. */
  lemma DispatchLearnsTheStatus(c: Config, i: nat)
    requires Reachable(c) && i < |c.box.calls| && c.box.calls[i].pc.Entered?
    ensures Enabled(c, ReadStatus(i)) && i < |Apply(c, ReadStatus(i)).box.calls|
    ensures match Apply(c, ReadStatus(i)).box.calls[i].pc
      case Finished(Error(error)) => Tells(error, c.life.status)
      case Finished(Pong) => c.life.status.Running? && c.box.calls[i].handler == "__ping__"
      case Sending => c.life.status.Running? && c.box.calls[i].handler != "__ping__"
      case _ => false
  {
  }

  /** A request that is drained learns the status the thread has just taken; the only other refusal is
      that of a handler the template does not declare. */
  lemma DrainedRequestsLearnTheStatus(c: Config, e: Event, i: nat)
    requires Reachable(c) && Enabled(c, e) && i < |c.box.calls| && c.box.calls[i].fate.Queued?
    ensures i < |Apply(c, e).box.calls|
    ensures var d := Apply(c, e);
      match d.box.calls[i].fate
      case Rejected(error) =>
        if e.Go? then Tells(error, d.life.status)
        else e.ArmHandler? && error == H.TargetCrashed && !Declares(c.decl, c.box.calls[i].handler)
      case Dispatched(_) => e.ArmHandler? && Declares(c.decl, c.box.calls[i].handler)
      case Dropped => d.ctl.pc.Returned?
      case Queued => true
      case NotPlaced => false
  {
    ReachableCalls(c);
    if CallerEvent(e) {
      QueuedCaller(c.box, c.life.status, e, i);
    } else if e.Go? {
      QueuedGo(c, i);
    } else if e.ArmHandler? {
      QueuedArm(c, i);
    } else if !e.PollTask? && !e.EndTask? {
      QuietStep(c, e);
    }
  }

  lemma QueuedGo(c: Config, i: nat)
    requires CallsInv(c.box) && Enabled(c, Go) && i < |c.box.calls| && c.box.calls[i].fate.Queued?
    ensures i < |ApplyGo(c).box.calls|
    ensures match ApplyGo(c).box.calls[i].fate
      case Rejected(error) => Tells(error, ApplyGo(c).life.status)
      case Dropped => ApplyGo(c).ctl.pc.Returned?
      case fate => fate.Queued?
  {
  }

  lemma QueuedArm(c: Config, i: nat)
    requires CallsInv(c.box) && Enabled(c, ArmHandler) && i < |c.box.calls| && c.box.calls[i].fate.Queued?
    ensures i < |ApplyArm(c, ArmHandler).box.calls|
    ensures match ApplyArm(c, ArmHandler).box.calls[i].fate
      case Rejected(error) => error == H.TargetCrashed && !Declares(c.decl, c.box.calls[i].handler)
      case Dispatched(_) => Declares(c.decl, c.box.calls[i].handler)
      case fate => fate.Queued?
  {
  }

  lemma QueuedCaller(b: Box, status: Status, e: Event, i: nat)
    requires CallsInv(b) && CallerEvent(e) && CallerEnabled(b, e) && i < |b.calls| && b.calls[i].fate.Queued?
    ensures i < |ApplyCaller(b, status, e).calls| && ApplyCaller(b, status, e).calls[i].fate == b.calls[i].fate
  {
    assert CallOk(b.calls[i]);
  }

  /** A caller whose request was placed goes away with what became of it. */
  lemma CallersLearnTheFate(c: Config, i: nat)
    requires Reachable(c) && i < |c.box.calls| && i in c.box.placed && c.box.calls[i].pc.Finished?
    ensures match c.box.calls[i].fate
      case Dispatched(_) => c.box.calls[i].pc == Finished(Future)
      case Rejected(error) => c.box.calls[i].pc == Finished(Error(error))
      case Dropped => c.box.calls[i].pc == Finished(Error(H.TargetCrashed))
      case _ => false
  {
    ReachableCalls(c);
    assert CallOk(c.box.calls[i]);
  }

  ghost function RunFrom(c: Config, es: seq<Event>): Option<Config> {
    if es == [] then Some(c)
    else
      match RunFrom(c, es[..|es| - 1])
      case None => None
      case Some(d) => if Enabled(d, es[|es| - 1]) then Some(Apply(d, es[|es| - 1])) else None
  }

  /** A call made after the end is under way, given up, or was told how the thread ended. */
  predicate ToldTheEnd(call: Call, ended: Outcome) {
    || call.pc.Entered? || call.pc.Abandoned?
    || call.pc == Finished(Error(if ended == Ok then H.TargetTerminated else H.TargetCrashed))
  }

  /** For ever after the task has returned: the result Ok means that every later call is told that the
      target has terminated, and Failed that it has crashed. */
  lemma {:induction false} LaterCallsAreToldTheEnd(c: Config, es: seq<Event>, i: nat)
    requires Reachable(c) && c.ctl.pc.Returned? && RunFrom(c, es).Some?
    requires |c.box.calls| <= i < |RunFrom(c, es).value.box.calls|
    ensures |c.life.results| == 1 && ToldTheEnd(RunFrom(c, es).value.box.calls[i], c.life.results[0])
    decreases |es|
  {
    LifecycleAgreement(c);
    AfterTheEnd(c, es);
    var d := RunFrom(c, es[..|es| - 1]).value;
    AfterTheEnd(c, es[..|es| - 1]);
    if i < |d.box.calls| { LaterCallsAreToldTheEnd(c, es[..|es| - 1], i); }
  }

  lemma {:induction false} AfterTheEnd(c: Config, es: seq<Event>)
    requires c.ctl.pc.Returned? && RunFrom(c, es).Some?
    ensures var d := RunFrom(c, es).value;
      d.ctl.pc == c.ctl.pc && d.life == c.life && d.box.open == c.box.open && |c.box.calls| <= |d.box.calls|
    decreases |es|
  {
    if es != [] { AfterTheEnd(c, es[..|es| - 1]); }
  }

  // ── The select loop cannot miss a queued request ───────────────────────────

  /** With a fresh view of the exclusive flag and no termination deferred, a queued request and a free
      gate always leave an arm to take, even when the loop still believes a handler is running. */
  lemma NoLostWakeup(c: Config)
    requires Reachable(c) && c.ctl.pc.Select? && !c.ctl.pc.exclusive && !c.ctl.deferred
    requires c.box.mailbox != [] && !c.hs.gate
    ensures Enabled(c, ArmHandler) || Enabled(c, ArmGate)
  {
    ReachableInv(c);
    assert c.box.mailbox[0] in c.box.mailbox;
    assert c.box.mailbox[0] in c.box.placed;
  }

  /** The exact condition, for a body that is suspended and a thread nobody terminates: the loop gets to
      the request if and only if it went to sleep non-exclusive or behind a running handler. */
  lemma WakesIff(c: Config)
    requires Reachable(c) && c.ctl.pc.Select? && !c.ctl.signalled
    requires c.box.mailbox != [] && !c.hs.gate
    ensures Enabled(c, ArmTerminate) || Enabled(c, ArmHandler) || Enabled(c, ArmGate)
            <==> !c.ctl.pc.exclusive || c.ctl.pc.busy
  {
    ReachableInv(c);
    assert c.box.mailbox[0] in c.box.mailbox;
    assert c.box.mailbox[0] in c.box.placed;
  }

  /** The loop goes to sleep inside an exclusive block. */
  lemma SleepsExclusive() returns (c: Config)
    ensures Reachable(c) && c.decl.None? && c.exclusive && c.ctl.pc == Select(true, false) && !c.ctl.signalled && !c.ctl.deferred
    ensures c.box == Box(true, [], [], []) && !c.hs.gate && c.life.status.Running?
  {
    var c0 := Init(None);
    assert Exec(None, []) == Some(c0);
    var c1 := Apply(c0, SetupDone(None));
    var c2 := Apply(c1, Go);
    var c3 := Apply(c2, SetExclusive(true));
    ReachStep(c0, SetupDone(None));
    ReachStep(c1, Go);
    ReachStep(c2, SetExclusive(true));
    ReachStep(c3, Go);
    c := Apply(c3, Go);
  }

  /** The other case is reachable: the block has ended, a request is queued, no handler runs, and only
      the body could wake the loop. */
  lemma StaleExclusiveSnapshotSleeps()
    ensures exists c :: Reachable(c) && c.ctl.pc == Select(true, false) && !c.exclusive && !c.ctl.signalled
                        && c.box.mailbox != [] && !c.hs.gate
  {
    var c4 := SleepsExclusive();
    var c5 := Apply(c4, SetExclusive(false));
    var c6 := Apply(c5, NewCall("h", 0));
    var c7 := Apply(c6, ReadStatus(0));
    ReachStep(c4, SetExclusive(false));
    ReachStep(c5, NewCall("h", 0));
    ReachStep(c6, ReadStatus(0));
    ReachStep(c7, Send(0));
    assert Apply(c7, Send(0)).box.mailbox == [0];
  }

  /** A deferred termination that sleeps: besides the body only the gate arm can wake the loop, and with
      no handler running it does so exactly if one was running when the loop went to sleep. */
  lemma DeferredTerminationWaits(c: Config)
    requires Reachable(c) && c.ctl.pc.Select? && c.ctl.deferred
    ensures !Enabled(c, ArmTerminate) && !Enabled(c, ArmHandler)
    ensures Enabled(c, ArmGate) ==> c.ctl.pc.busy
    ensures !c.hs.gate ==> (Enabled(c, ArmGate) <==> c.ctl.pc.busy)
  {
    ReachableInv(c);
  }

  /** And it does sleep: the exclusive block that deferred it has ended, no handler runs, and only the
      body could bring the loop to the teardown. */
  lemma DeferredTerminationSleeps()
    ensures exists c :: Reachable(c) && c.ctl.pc.Select? && c.ctl.deferred && !c.exclusive && !c.hs.gate
                        && !Enabled(c, ArmTerminate) && !Enabled(c, ArmHandler) && !Enabled(c, ArmGate)
  {
    var c4 := SleepsExclusive();
    ReachStep(c4, Terminate);
    var c5 := Apply(c4, Terminate);
    ReachStep(c5, ArmTerminate);
    var c6 := Apply(c5, ArmTerminate);
    assert c6.ctl.pc == MarkTerminating(true, false) && c6.exclusive;
    ReachStep(c6, Go);
    var c7 := Apply(c6, Go);
    assert c7.ctl.pc.Top? && c7.ctl.deferred;
    ReachStep(c7, Go);
    var c8 := Apply(c7, Go);
    assert c8.ctl.pc == Select(true, false) && c8.ctl.deferred;
    ReachStep(c8, SetExclusive(false));
    var c9 := Apply(c8, SetExclusive(false));
    DeferredTerminationWaits(c9);
    assert Reachable(c9) && c9.ctl.pc.Select? && !Enabled(c9, ArmGate);
  }

  // ── Lifecycle ──────────────────────────────────────────────────────────────

  /** Running, then possibly Terminating, then one terminal status for ever. */
  lemma {:induction false} StatusOnlyMovesForward(l: Life, i: nat, j: nat)
    requires LogInv(l) && i < j < |l.log|
    ensures !l.log[j].Running? && !IsTerminal(l.log[i])
    decreases j
  {
    assert Allowed(l.log[j - 1], l.log[j]);
    if i + 1 < j { StatusOnlyMovesForward(l, i, j - 1); }
  }

  lemma LifecycleAgreement(c: Config)
    requires Reachable(c)
    ensures forall i, j :: 0 <= i < j < |c.life.log| ==> !c.life.log[j].Running? && !IsTerminal(c.life.log[i])
    ensures c.life.log != [] && c.life.log[0] == Running && c.life.log[|c.life.log| - 1] == c.life.status
    // the result is sent once, by a task that returns, and says how the thread ended
    ensures |c.life.results| == if c.ctl.pc.Returned? then 1 else 0
    ensures c.ctl.pc.Returned? ==>
      && (c.life.results[0] == Ok <==> c.life.status == Terminated)
      && (forall m :: c.life.results[0] == Failed(m) <==> c.life.status == Crashed(m))
      && (c.life.status.Terminated? || c.life.status.Crashed?)
  {
    ReachableControl(c);
    forall i, j | 0 <= i < j < |c.life.log| ensures !c.life.log[j].Running? && !IsTerminal(c.life.log[i]) {
      StatusOnlyMovesForward(c.life, i, j);
    }
  }

  // ── Hooks ──────────────────────────────────────────────────────────────────

  function Rank(h: Hook): nat {
    match h
    case OnEnterHook => 0
    case OnTerminateHook => 1
    case OnExitHook => 2
  }

  /** Every hook runs at most once and in the order enter, terminate, exit; and the terminate receiver
      is never polled again after it has fired. */
  lemma HooksRunOnceInOrder(c: Config)
    requires Reachable(c)
    ensures forall i, j :: 0 <= i < j < |c.hook.started| ==> Rank(c.hook.started[i]) < Rank(c.hook.started[j])
    ensures c.ctl.pollsAfterFired == 0
  {
    ReachableHooks(c);
    HooksAreOrdered(c.decl, c.ctl.pc, c.hook);
  }

  predicate HasThisHook(decl: Option<Template>, h: Hook) {
    && decl.Some?
    && (h.OnEnterHook? ==> decl.value.onEnter) && (h.OnTerminateHook? ==> decl.value.onTerminate) && (h.OnExitHook? ==> decl.value.onExit)
  }

  ghost predicate OnlyItsHooks(c: Config) {
    forall h :: h in c.hook.started ==> HasThisHook(c.decl, h)
  }

  lemma StepKeepsItsHooks(c: Config, e: Event)
    requires OnlyItsHooks(c) && Enabled(c, e)
    ensures OnlyItsHooks(Apply(c, e))
  {
    DeclStays(c, e);
    if e.Go? { GoKeepsItsHooks(c); }
  }

  lemma GoKeepsItsHooks(c: Config)
    requires OnlyItsHooks(c) && Enabled(c, Go)
    ensures OnlyItsHooks(ApplyGo(c))
  {
  }

  lemma {:induction false} RunKeepsItsHooks(decl: Option<Template>, es: seq<Event>)
    requires Exec(decl, es).Some?
    ensures OnlyItsHooks(Exec(decl, es).value)
  {
    if es != [] {
      assert Exec(decl, es) == ExecLast(decl, es);
      RunKeepsItsHooks(decl, es[..|es| - 1]);
      StepKeepsItsHooks(Exec(decl, es[..|es| - 1]).value, es[|es| - 1]);
    }
  }

  /** Only hooks of the template ever run, and in the loop its enter hook has run if it has one. */
  lemma HooksAreTheTemplates(c: Config)
    requires Reachable(c)
    ensures forall h :: h in c.hook.started ==> HasThisHook(c.decl, h)
    ensures c.ctl.pc.Top? || c.ctl.pc.Select? ==>
      (OnEnterHook in c.hook.started <==> c.decl.Some? && c.decl.value.onEnter) && c.hook.errors == []
  {
    var es :| Exec(c.decl, es) == Some(c);
    RunKeepsItsHooks(c.decl, es);
    ReachableHooks(c);
  }

  lemma HooksAreOrdered(decl: Option<Template>, pc: Pc, h: HookLog)
    requires HooksInv(decl, pc, h)
    ensures forall i, j :: 0 <= i < j < |h.started| ==> Rank(h.started[i]) < Rank(h.started[j])
  {
  }

  /** The body's end: a crash is the thread's end unless somebody has asked it to terminate, in which case
      it is torn down instead; an ordinary end behind a deferred termination is torn down too. */
  lemma EndOfTheBody(c: Config, error: Option<string>)
    requires Reachable(c) && c.ctl.pc.Select?
    ensures Enabled(c, ArmBody(error))
    ensures var d := Apply(c, ArmBody(error));
      if error.Some? then
        if c.ctl.signalled then d.ctl.fired && d.ctl.pc.MarkTerminating? && d.ctl.pc.crashed && d.hook == c.hook
        else d.ctl.pc == MarkFinal(BodyCrashed, error) && d.hook == c.hook
      else if c.ctl.deferred then
        d.ctl.pc.InOnTerminate? || d.ctl.pc == InOnExit(true) || d.ctl.pc == MarkFinal(TornDown, None)
      else d.ctl.pc == InOnExit(false) || d.ctl.pc == MarkFinal(BodyEnded, None)
  {
    ReachableInv(c);
  }

  /** Termination wins: once it was observed, both teardown hooks have run by the time the task
      returns, whether or not the first one failed and whether or not the body had crashed, and the
      outcome is the first hook error and nothing else. */
  lemma TerminationRunsBothHooks(c: Config)
    requires Reachable(c) && c.ctl.pc.Returned? && c.ctl.fired
    ensures c.decl.Some? && c.decl.value.onTerminate ==> OnTerminateHook in c.hook.started
    ensures c.decl.Some? && c.decl.value.onExit ==> OnExitHook in c.hook.started
    ensures c.hook.errors == [] ==> c.life.status == Terminated && c.life.results == [Ok]
    ensures c.hook.errors != [] ==> c.life.status == Crashed(c.hook.errors[0]) && c.life.results == [Failed(c.hook.errors[0])]
  {
    ReachableControl(c);
  }

  /** Without termination, `__on_terminate__` never runs, and `__on_exit__` runs exactly when the body
      came to its end without an error. */
  lemma OrdinaryEnd(c: Config)
    requires Reachable(c) && c.ctl.pc.Returned? && !c.ctl.fired
    ensures OnTerminateHook !in c.hook.started
    ensures OnExitHook in c.hook.started <==> c.decl.Some? && c.decl.value.onExit && c.ctl.pc.how == BodyEnded
    ensures c.ctl.pc.how == BodyEnded ==>
      c.life.status == if c.hook.errors == [] then Terminated else Crashed(c.hook.errors[0])
    ensures c.ctl.pc.how != BodyEnded ==> c.life.status.Crashed?
  {
    ReachableControl(c);
  }
}
