/** `TesseraFuture` (crates/tessera-runtime/src/future.rs): many clones, one guarded state.

    The guard is an async mutex held across the await on the channel, so a resolver is either
    waiting for the guard, or holding it while the outcome is not there yet. */
module FutureMachine {
  import opened Options

  datatype Outcome<V> = Ok(v: V) | Failed(msg: string)

  datatype State<V> = Pending(receiver: bool) | Resolved(outcome: Outcome<V>)   // receiver: not taken yet

  datatype Channel<V> = Empty | Sent(outcome: Outcome<V>) | SenderDropped

  datatype Task<V> =
    | Queued                          // waits for the guard
    | Holding                         // holds the guard, awaits the channel
    | Returned(outcome: Outcome<V>)
    | Cancelled
    | Panicked                        // `expect("Future polled twice")`

  datatype Config<V> = Config(
    state: State<V>,
    channel: Channel<V>,
    holder: Option<nat>,
    tasks: map<nat, Task<V>>,
    cancelledMidWait: bool)           // some resolver was dropped while it held the guard

  datatype Event<V> =
    | Call(t: nat) | Acquire(t: nat) | Receive(t: nat) | Cancel(t: nat)
    | Send(outcome: Outcome<V>) | DropSender

  const SENDER_DROPPED := "sender dropped"

  function New<V>(): Config<V> {
    Config(Pending(true), Empty, None, map[], false)
  }

  function Immediate<V>(o: Outcome<V>): Config<V> {
    Config(Resolved(o), SenderDropped, None, map[], false)
  }

  predicate Enabled<V>(c: Config<V>, e: Event<V>) {
    match e
    case Call(t) => t !in c.tasks
    case Acquire(t) => t in c.tasks && c.tasks[t].Queued? && c.holder.None?
    case Receive(t) => t in c.tasks && c.tasks[t].Holding? && !c.channel.Empty?
    case Cancel(t) => t in c.tasks && (c.tasks[t].Queued? || c.tasks[t].Holding?)
    case Send(_) => c.channel.Empty?
    case DropSender => c.channel.Empty?
  }

  function Received<V>(ch: Channel<V>): Outcome<V>
    requires !ch.Empty?
  {
    if ch.Sent? then ch.outcome else Failed(SENDER_DROPPED)
  }

  function Apply<V>(c: Config<V>, e: Event<V>): Config<V>
    requires Enabled(c, e)
  {
    match e
    case Call(t) => c.(tasks := c.tasks[t := Queued])
    case Acquire(t) =>
      (match c.state
       case Resolved(o) => c.(tasks := c.tasks[t := Returned(o)])
       case Pending(true) => c.(state := Pending(false), holder := Some(t), tasks := c.tasks[t := Holding])
       case Pending(false) => c.(tasks := c.tasks[t := Panicked]))
    case Receive(t) =>
      var o := Received(c.channel);
      c.(state := Resolved(o), holder := None, tasks := c.tasks[t := Returned(o)])
    case Cancel(t) =>
      if c.tasks[t].Holding? then c.(holder := None, tasks := c.tasks[t := Cancelled], cancelledMidWait := true)
      else c.(tasks := c.tasks[t := Cancelled])
    case Send(o) => c.(channel := Sent(o))
    case DropSender => c.(channel := SenderDropped)
  }

  ghost function Exec<V>(c: Config<V>, es: seq<Event<V>>): Option<Config<V>> {
    if es == [] then Some(c)
    else
      match Exec(c, es[..|es| - 1])
      case None => None
      case Some(d) => if Enabled(d, es[|es| - 1]) then Some(Apply(d, es[|es| - 1])) else None
  }

  ghost predicate Fresh<V(!new)>(c: Config<V>) {
    c == New() || exists o :: c == Immediate(o)
  }

  ghost predicate Inv<V>(c: Config<V>) {
    // the receiver is gone exactly while somebody awaits it, or after that somebody was dropped
    && (c.state == Pending(false) <==> c.holder.Some? || c.cancelledMidWait)
    && (c.holder.Some? ==> c.holder.value in c.tasks && !c.cancelledMidWait)
    && (forall t :: t in c.tasks && c.tasks[t].Holding? <==> c.holder == Some(t))
    && (forall t :: t in c.tasks && c.tasks[t].Returned? ==> c.state == Resolved(c.tasks[t].outcome))
    && (forall t :: t in c.tasks && c.tasks[t].Panicked? ==> c.cancelledMidWait)
  }

  lemma {:induction false} RunInv<V(!new)>(c: Config<V>, es: seq<Event<V>>)
    requires Fresh(c) && Exec(c, es).Some?
    ensures Inv(Exec(c, es).value)
  {
    if es != [] {
      RunInv(c, es[..|es| - 1]);
    }
  }

  /** In every run, all clones that return agree, and they agree with the stored outcome. */
  lemma ClonesAgree<V(!new)>(c: Config<V>, es: seq<Event<V>>, s: nat, t: nat)
    requires Fresh(c) && Exec(c, es).Some?
    requires s in Exec(c, es).value.tasks && Exec(c, es).value.tasks[s].Returned?
    requires t in Exec(c, es).value.tasks && Exec(c, es).value.tasks[t].Returned?
    ensures Exec(c, es).value.tasks[s] == Exec(c, es).value.tasks[t]
    ensures Exec(c, es).value.state == Resolved(Exec(c, es).value.tasks[s].outcome)
  {
    RunInv(c, es);
  }

  /** The `expect` fires for the next resolver exactly when an earlier one was dropped mid-wait, and
      from then on for every later one: the future stays unresolved for ever. */
  lemma PolledTwiceIffCancelledMidWait<V(!new)>(c: Config<V>, es: seq<Event<V>>, t: nat)
    requires Fresh(c) && Exec(c, es).Some?
    requires Enabled(Exec(c, es).value, Acquire(t))
    ensures Apply(Exec(c, es).value, Acquire(t)).tasks[t].Panicked? <==> Exec(c, es).value.cancelledMidWait
  {
    RunInv(c, es);
  }

  lemma ExecStep<V>(c: Config<V>, es: seq<Event<V>>, e: Event<V>)
    requires Exec(c, es).Some? && Enabled(Exec(c, es).value, e)
    ensures Exec(c, es + [e]) == Some(Apply(Exec(c, es).value, e))
  {
    assert (es + [e])[..|es|] == es;
  }

  /** And it does fire: one resolver takes the receiver and is dropped, and the next one panics. */
  lemma PolledTwiceHappens<V>()
    ensures exists es: seq<Event<V>> :: Exec(New(), es).Some? && 2 in Exec(New(), es).value.tasks
                                        && Exec(New(), es).value.tasks[2].Panicked?
  {
    var es: seq<Event<V>> := [];
    ExecStep(New(), es, Call(1));
    es := es + [Call(1)];
    ExecStep(New(), es, Acquire(1));
    es := es + [Acquire(1)];
    ExecStep(New(), es, Cancel(1));
    es := es + [Cancel(1)];
    ExecStep(New(), es, Call(2));
    es := es + [Call(2)];
    ExecStep(New(), es, Acquire(2));
    es := es + [Acquire(2)];
  }

  lemma CancelledMidWaitIsForever<V>(c: Config<V>, e: Event<V>)
    requires Inv(c) && c.cancelledMidWait && Enabled(c, e)
    ensures Apply(c, e).cancelledMidWait && Apply(c, e).state == Pending(false)
  {
  }

  /** A resolved future never changes, and it was resolved by what the channel delivered. */
  lemma ResolvedIsFinal<V>(c: Config<V>, e: Event<V>)
    requires Inv(c) && Enabled(c, e)
    ensures c.state.Resolved? ==> Apply(c, e).state == c.state
    ensures !c.state.Resolved? && Apply(c, e).state.Resolved? ==>
      !c.channel.Empty? && Apply(c, e).state.outcome == Received(c.channel)
  {
  }

  /** In every run from an unresolved future, what a clone returns is what the sender sent, or the failure
      that says that it was dropped without sending. */
  lemma {:induction false} ReturnsWhatWasSent<V(!new)>(es: seq<Event<V>>, t: nat)
    requires Exec(New(), es).Some?
    requires t in Exec(New(), es).value.tasks && Exec(New(), es).value.tasks[t].Returned?
    ensures var d := Exec(New(), es).value;
      d.channel == Sent(d.tasks[t].outcome) || (d.channel.SenderDropped? && d.tasks[t].outcome == Failed("sender dropped"))
  {
    RunInv(New(), es);
    StateIsWhatWasSent(es);
  }

  lemma {:induction false} StateIsWhatWasSent<V>(es: seq<Event<V>>)
    requires Exec(New(), es).Some?
    ensures var d := Exec(New(), es).value;
      d.state.Resolved? ==>
        d.channel == Sent(d.state.outcome) || (d.channel.SenderDropped? && d.state.outcome == Failed("sender dropped"))
  {
    if es != [] { StateIsWhatWasSent(es[..|es| - 1]); }
  }

  /** No resolver is stuck: one that waits for the guard can run as soon as the holder is done, and
      the holder is done as soon as the sender has sent or gone away. */
  lemma ResolversProgress<V(!new)>(c: Config<V>, es: seq<Event<V>>, t: nat)
    requires Fresh(c) && Exec(c, es).Some?
    requires t in Exec(c, es).value.tasks && (Exec(c, es).value.tasks[t].Queued? || Exec(c, es).value.tasks[t].Holding?)
    requires !Exec(c, es).value.channel.Empty?
    ensures var d := Exec(c, es).value;
            || Enabled(d, Acquire(t)) || Enabled(d, Receive(t))
            || (d.holder.Some? && Enabled(d, Receive(d.holder.value)))
  {
    RunInv(c, es);
  }
}

/** `TesseraHandlerFuture`: dispatch first, then execution, behind one guard. */
module HandlerFutureMachine {
  import opened Options
  import F = FutureMachine

  datatype DispatchError = TargetTerminated | TargetTerminating | TargetCrashed

  datatype State<V> =
    | Pending(receiver: bool)
    | DispatchFailed(error: DispatchError)
    | AlreadyDispatched(future: bool)
    | Executing(receiver: bool)
    | Done(v: V)
    | ExecutionFailed(msg: string)

  datatype Verdict = Accepted | Rejected(error: DispatchError)

  datatype DispatchChannel = NoVerdict | Verdict(verdict: Verdict) | VerdictSenderDropped

  datatype Result<V> = Ok(v: V) | NotDispatched(error: DispatchError) | NotExecuted(msg: string)

  datatype Task<V> = Queued | Holding | Returned(result: Result<V>) | Cancelled | Panicked

  datatype Config<V> = Config(
    state: State<V>,
    verdict: DispatchChannel,
    execution: F.Channel<V>,          // the execution receiver, or the inner future's outcome
    holder: Option<nat>,
    tasks: map<nat, Task<V>>,
    cancelledMidWait: bool)

  datatype Event<V> =
    | Call(t: nat)
    | Acquire(t: nat)
    | Receive(t: nat)                 // the awaited channel has an answer: one more round of the loop
    | Cancel(t: nat)
    | Decide(verdict: Verdict) | DropDecider
    | Finish(outcome: F.Outcome<V>) | DropExecutor

  predicate Terminal<V>(s: State<V>) {
    s.Done? || s.DispatchFailed? || s.ExecutionFailed?
  }

  function ResultOf<V>(s: State<V>): Result<V>
    requires Terminal(s)
  {
    match s
    case Done(v) => Ok(v)
    case DispatchFailed(e) => NotDispatched(e)
    case ExecutionFailed(m) => NotExecuted(m)
  }

  predicate Starts<V>(c: Config<V>) {
    && (c.state == Pending(true) || c.state == AlreadyDispatched(true) || c.state.DispatchFailed?)
    && c.holder.None? && c.tasks == map[] && !c.cancelledMidWait
  }

  /** The channel the state waits on has an answer. */
  predicate Answered<V>(c: Config<V>) {
    match c.state
    case Pending(_) => !c.verdict.NoVerdict?
    case AlreadyDispatched(_) => !c.execution.Empty?
    case Executing(_) => !c.execution.Empty?
    case _ => true
  }

  predicate Enabled<V>(c: Config<V>, e: Event<V>) {
    match e
    case Call(t) => t !in c.tasks
    case Acquire(t) => t in c.tasks && c.tasks[t].Queued? && c.holder.None?
    case Receive(t) => t in c.tasks && c.tasks[t].Holding? && Answered(c)
    case Cancel(t) => t in c.tasks && (c.tasks[t].Queued? || c.tasks[t].Holding?)
    case Decide(_) => c.verdict.NoVerdict?
    case DropDecider => c.verdict.NoVerdict?
    case Finish(_) => c.execution.Empty?
    case DropExecutor => c.execution.Empty?
  }

  function TakeReceiver<V>(s: State<V>): State<V> {
    match s
    case Pending(_) => Pending(false)
    case AlreadyDispatched(_) => AlreadyDispatched(false)
    case Executing(_) => Executing(false)
    case _ => s
  }

  /** One iteration of the loop in `resolve`, up to its next await or its return. */
  function Round<V>(c: Config<V>, t: nat): Config<V> {
    if Terminal(c.state) then c.(holder := None, tasks := c.tasks[t := Returned(ResultOf(c.state))])
    else if Taken(c.state) then c.(holder := None, tasks := c.tasks[t := Panicked])
    else c.(state := TakeReceiver(c.state), holder := Some(t), tasks := c.tasks[t := Holding])
  }

  /** What the answered channel turns the state into. */
  function AfterAnswer<V>(c: Config<V>): State<V>
    requires Answered(c)
  {
    if Terminal(c.state) then c.state
    else if c.state.Pending? then
      if c.verdict == Verdict(Accepted) then Executing(true)
      else if c.verdict.Verdict? then DispatchFailed(c.verdict.verdict.error)
      else DispatchFailed(TargetCrashed)
    else
      match F.Received(c.execution)
      case Ok(v) => Done(v)
      case Failed(m) => ExecutionFailed(m)
  }

  function Apply<V>(c: Config<V>, e: Event<V>): Config<V>
    requires Enabled(c, e)
  {
    match e
    case Call(t) => c.(tasks := c.tasks[t := Queued])
    case Acquire(t) => Round(c, t)
    case Receive(t) => Round(c.(state := AfterAnswer(c)), t)
    case Cancel(t) =>
      if c.tasks[t].Holding? then c.(holder := None, tasks := c.tasks[t := Cancelled], cancelledMidWait := true)
      else c.(tasks := c.tasks[t := Cancelled])
    case Decide(v) => c.(verdict := Verdict(v))
    case DropDecider => c.(verdict := VerdictSenderDropped)
    case Finish(o) => c.(execution := F.Sent(o))
    case DropExecutor => c.(execution := F.SenderDropped)
  }

  ghost function Exec<V>(c: Config<V>, es: seq<Event<V>>): Option<Config<V>> {
    if es == [] then Some(c)
    else
      match Exec(c, es[..|es| - 1])
      case None => None
      case Some(d) => if Enabled(d, es[|es| - 1]) then Some(Apply(d, es[|es| - 1])) else None
  }

  /** The one-shot slot of the current state has been taken. */
  predicate Taken<V>(s: State<V>) {
    s == Pending(false) || s == AlreadyDispatched(false) || s == Executing(false)
  }

  ghost predicate Inv<V>(c: Config<V>) {
    && (Taken(c.state) <==> c.holder.Some? || c.cancelledMidWait)
    && (c.holder.Some? ==> c.holder.value in c.tasks && !c.cancelledMidWait)
    && (forall t :: t in c.tasks && c.tasks[t].Holding? <==> c.holder == Some(t))
    && (forall t :: t in c.tasks && c.tasks[t].Returned? ==> Terminal(c.state) && c.tasks[t].result == ResultOf(c.state))
    && (forall t :: t in c.tasks && c.tasks[t].Panicked? ==> c.cancelledMidWait)
  }

  lemma StepKeepsInv<V>(c: Config<V>, e: Event<V>)
    requires Inv(c) && Enabled(c, e)
    ensures Inv(Apply(c, e))
  {
    match e
    case Acquire(t) => RoundKeepsInv(c, t);
    case Receive(t) =>
      assert c.holder == Some(t);
      RoundKeepsInv(c.(state := AfterAnswer(c), holder := None, tasks := c.tasks[t := Queued]), t);
      assert Apply(c, e).tasks == Round(c.(state := AfterAnswer(c), holder := None, tasks := c.tasks[t := Queued]), t).tasks;
    case _ =>
  }

  lemma RoundKeepsInv<V>(c: Config<V>, t: nat)
    requires Inv(c) && c.holder.None? && t in c.tasks && c.tasks[t].Queued?
    ensures Inv(Round(c, t))
  {
  }

  lemma {:induction false} RunInv<V>(c: Config<V>, es: seq<Event<V>>)
    requires Starts(c) && Exec(c, es).Some?
    ensures Inv(Exec(c, es).value)
  {
    if es != [] {
      RunInv(c, es[..|es| - 1]);
      StepKeepsInv(Exec(c, es[..|es| - 1]).value, es[|es| - 1]);
    }
  }

  lemma ClonesAgree<V>(c: Config<V>, es: seq<Event<V>>, s: nat, t: nat)
    requires Starts(c) && Exec(c, es).Some?
    requires s in Exec(c, es).value.tasks && Exec(c, es).value.tasks[s].Returned?
    requires t in Exec(c, es).value.tasks && Exec(c, es).value.tasks[t].Returned?
    ensures Exec(c, es).value.tasks[s] == Exec(c, es).value.tasks[t]
  {
    RunInv(c, es);
  }

  /** The state says no more than the two channels have said; `first` is the state at the start. */
  predicate SaidByChannels<V(==)>(first: State<V>, c: Config<V>) {
    match c.state
    case Pending(_) => true
    case AlreadyDispatched(_) => true
    case Executing(_) => c.verdict == Verdict(Accepted)
    case DispatchFailed(e) =>
      first == DispatchFailed(e) || c.verdict == Verdict(Rejected(e)) || (c.verdict.VerdictSenderDropped? && e == TargetCrashed)
    case Done(v) => c.execution == F.Sent(F.Ok(v)) && (first.AlreadyDispatched? || c.verdict == Verdict(Accepted))
    case ExecutionFailed(m) =>
      && (c.execution == F.Sent(F.Failed(m)) || (c.execution.SenderDropped? && m == "sender dropped"))
      && (first.AlreadyDispatched? || c.verdict == Verdict(Accepted))
  }

  lemma {:induction false} StateIsWhatWasSaid<V>(c: Config<V>, es: seq<Event<V>>)
    requires Starts(c) && Exec(c, es).Some?
    ensures SaidByChannels(c.state, Exec(c, es).value)
    ensures c.state.AlreadyDispatched? || !Exec(c, es).value.state.AlreadyDispatched?
  {
    if es != [] {
      StateIsWhatWasSaid(c, es[..|es| - 1]);
      StepSays(c.state, Exec(c, es[..|es| - 1]).value, es[|es| - 1]);
    }
  }

  lemma StepSays<V>(first: State<V>, c: Config<V>, e: Event<V>)
    requires SaidByChannels(first, c) && (first.AlreadyDispatched? || !c.state.AlreadyDispatched?) && Enabled(c, e)
    ensures SaidByChannels(first, Apply(c, e)) && (first.AlreadyDispatched? || !Apply(c, e).state.AlreadyDispatched?)
  {
    if c.verdict.Verdict? && c.verdict.verdict.Rejected? {
      assert c.verdict == Verdict(Rejected(c.verdict.verdict.error));
    }
  }

  /** In every run, a resolver that returns says what the channels delivered: the value of an accepted
      execution, its failure, or why the request was not dispatched; a channel dropped without an answer
      is a crashed target before the dispatch answer, and a dropped sender after it. */
  lemma ReturnsWhatWasDelivered<V>(c: Config<V>, es: seq<Event<V>>, t: nat)
    requires Starts(c) && Exec(c, es).Some?
    requires t in Exec(c, es).value.tasks && Exec(c, es).value.tasks[t].Returned?
    ensures var d := Exec(c, es).value;
      match d.tasks[t].result
      case Ok(v) => d.execution == F.Sent(F.Ok(v)) && (c.state.AlreadyDispatched? || d.verdict == Verdict(Accepted))
      case NotExecuted(m) =>
        && (d.execution == F.Sent(F.Failed(m)) || (d.execution.SenderDropped? && m == "sender dropped"))
        && (c.state.AlreadyDispatched? || d.verdict == Verdict(Accepted))
      case NotDispatched(e) =>
        || c.state == DispatchFailed(e) || d.verdict == Verdict(Rejected(e))
        || (d.verdict.VerdictSenderDropped? && e == TargetCrashed)
  {
    RunInv(c, es);
    StateIsWhatWasSaid(c, es);
  }

  lemma PolledTwiceIffCancelledMidWait<V>(c: Config<V>, es: seq<Event<V>>, t: nat)
    requires Starts(c) && Exec(c, es).Some?
    requires Enabled(Exec(c, es).value, Acquire(t))
    ensures Apply(Exec(c, es).value, Acquire(t)).tasks[t].Panicked? <==> Exec(c, es).value.cancelledMidWait
  {
    RunInv(c, es);
  }

  lemma ExecStep<V>(c: Config<V>, es: seq<Event<V>>, e: Event<V>)
    requires Exec(c, es).Some? && Enabled(Exec(c, es).value, e)
    ensures Exec(c, es + [e]) == Some(Apply(Exec(c, es).value, e))
  {
    assert (es + [e])[..|es|] == es;
  }

  /** Whenever a resolver awaits a channel it can be dropped, and the next resolver then panics. */
  lemma DroppedThenPanics<V>(c: Config<V>, es: seq<Event<V>>, s: nat, t: nat)
    requires Starts(c) && Exec(c, es).Some? && s != t
    requires s in Exec(c, es).value.tasks && Exec(c, es).value.tasks[s].Holding? && t !in Exec(c, es).value.tasks
    ensures var run := es + [Cancel(s)] + [Call(t)] + [Acquire(t)];
      && Exec(c, run).Some? && t in Exec(c, run).value.tasks && Exec(c, run).value.tasks[t].Panicked?
      && Exec(c, run).value.state == Exec(c, es).value.state
  {
    RunInv(c, es);
    ExecStep(c, es, Cancel(s));
    ExecStep(c, es + [Cancel(s)], Call(t));
    RunInv(c, es + [Cancel(s)] + [Call(t)]);
    ExecStep(c, es + [Cancel(s)] + [Call(t)], Acquire(t));
  }

  /** From a fresh future on, one resolver gets to await the dispatch answer. */
  lemma AwaitsVerdict<V>(c: Config<V>) returns (es: seq<Event<V>>)
    requires c == Config(Pending(true), NoVerdict, F.Empty, None, map[], false)
    ensures Exec(c, es) == Some(c.(state := Pending(false), holder := Some(1), tasks := map[1 := Holding]))
  {
    es := [];
    assert Exec(c, es) == Some(c);
    ExecStep(c, es, Call(1));
    es := es + [Call(1)];
    ExecStep(c, es, Acquire(1));
    es := es + [Acquire(1)];
    var queued: map<nat, Task<V>> := map[1 := Queued];
    assert queued[1 := Holding] == map[1 := Holding];
  }

  /** Accepted, it goes on to await the execution. */
  lemma AwaitsExecution<V>(c: Config<V>, es: seq<Event<V>>) returns (more: seq<Event<V>>)
    requires Exec(c, es) == Some(c.(state := Pending(false), holder := Some(1), tasks := map[1 := Holding]))
    requires c.verdict.NoVerdict?
    ensures Exec(c, more).Some? && Exec(c, more).value.state == Executing(false)
    ensures Exec(c, more).value.tasks.Keys == {1} && Exec(c, more).value.tasks[1].Holding?
  {
    ExecStep(c, es, Decide(Accepted));
    more := es + [Decide(Accepted)];
    ExecStep(c, more, Receive(1));
    more := more + [Receive(1)];
  }

  ghost predicate PanicReached<V(!new)>(c: Config<V>, s: State<V>) {
    exists es: seq<Event<V>>, t: nat :: Exec(c, es).Some? && t in Exec(c, es).value.tasks
      && Exec(c, es).value.tasks[t].Panicked? && Exec(c, es).value.state == s
  }

  /** So the panic is reached, with the dispatch answer awaited and with the execution awaited. */
  lemma PolledTwiceHappens<V(!new)>(c: Config<V>)
    requires c == Config(Pending(true), NoVerdict, F.Empty, None, map[], false)
    ensures PanicReached(c, Pending(false)) && PanicReached(c, Executing(false))
  {
    var es := AwaitsVerdict(c);
    DroppedThenPanics(c, es, 1, 2);
    var more := AwaitsExecution(c, es);
    DroppedThenPanics(c, more, 1, 2);
  }

  /** The second and third `expect` of the loop never fire in the round after an answer. */
  lemma LaterRoundsNeverPanic<V>(c: Config<V>, es: seq<Event<V>>, t: nat)
    requires Starts(c) && Exec(c, es).Some?
    requires Enabled(Exec(c, es).value, Receive(t))
    ensures !Apply(Exec(c, es).value, Receive(t)).tasks[t].Panicked?
  {
  }

  lemma TerminalIsFinal<V>(c: Config<V>, e: Event<V>)
    requires Inv(c) && Enabled(c, e) && Terminal(c.state)
    ensures !e.Receive? && Apply(c, e).state == c.state
  {
  }

  // ── The non-blocking queries, which see `None` while the guard is held ──────

  function Visible<V>(c: Config<V>): Option<State<V>> {
    if c.holder.None? then Some(c.state) else None
  }

  predicate IsDone<V>(c: Config<V>) {
    Visible(c).Some? && (c.state.Done? || c.state.DispatchFailed? || c.state.ExecutionFailed?)
  }

  predicate IsOk<V>(c: Config<V>) {
    Visible(c).Some? && c.state.Done?
  }

  predicate IsErr<V>(c: Config<V>) {
    Visible(c).Some? && (c.state.DispatchFailed? || c.state.ExecutionFailed?)
  }

  function GetErr<V>(c: Config<V>): Option<Result<V>> {
    match Visible(c)
    case Some(DispatchFailed(e)) => Some(NotDispatched(e))
    case Some(ExecutionFailed(m)) => Some(NotExecuted(m))
    case _ => None
  }

  /** Done is ok or err, never both, `getErr` speaks exactly for err, and once a resolver has
      returned, the queries agree with what it returned, whatever else happens. */
  lemma QueriesAgree<V>(c: Config<V>, es: seq<Event<V>>)
    requires Starts(c) && Exec(c, es).Some?
    ensures var d := Exec(c, es).value;
            && (IsDone(d) <==> IsOk(d) || IsErr(d)) && !(IsOk(d) && IsErr(d))
            && (GetErr(d).Some? <==> IsErr(d))
            && forall t :: t in d.tasks && d.tasks[t].Returned? ==>
                 && IsDone(d)
                 && (IsOk(d) <==> d.tasks[t].result.Ok?)
                 && (IsErr(d) ==> GetErr(d) == Some(d.tasks[t].result))
  {
    RunInv(c, es);
  }
}
