/** The two futures with their `resolve` methods, one turn of the scheduler per call. */
module Futures {
  import opened Options
  import F = FutureMachine
  import H = HandlerFutureMachine

  datatype Poll<R> = Suspended | Ready(result: R) | PolledTwice

  class TesseraFuture<V(!new)> {
    var state: F.State<V>
    var channel: F.Channel<V>
    var holder: Option<nat>
    ghost var cfg: F.Config<V>

    ghost predicate Valid()
      reads this
    {
      F.Inv(cfg) && cfg.state == state && cfg.channel == channel && cfg.holder == holder
    }

    ghost method Step(e: F.Event<V>)
      requires F.Inv(cfg) && F.Enabled(cfg, e)
      modifies this`cfg
      ensures F.Inv(cfg) && cfg == F.Apply(old(cfg), e)
    {
      cfg := F.Apply(cfg, e);
    }

    constructor ()
      ensures Valid() && state == F.Pending(true) && channel.Empty?
    {
      state, channel, holder := F.Pending(true), F.Empty, None;
      cfg := F.New();
    }

    function IsDone(): (r: bool)
      reads this
      ensures r ==> state.Resolved?
    {
      holder.None? && state.Resolved?
    }

    /** One turn of `resolve` by task `t`. */
    method PollResolve(t: nat) returns (r: Poll<F.Outcome<V>>)
      requires Valid()
      requires t in cfg.tasks ==> cfg.tasks[t].Queued? || cfg.tasks[t].Holding?
      modifies this`state, this`holder, this`cfg
      ensures Valid()
      ensures t in cfg.tasks && (r.Ready? ==> cfg.tasks[t] == F.Returned(r.result) && state == F.Resolved(r.result))
      ensures r.PolledTwice? <==> old(holder).None? && old(state) == F.Pending(false)
      ensures r.PolledTwice? ==> cfg.cancelledMidWait
      ensures old(state).Resolved? ==> r == Ready(old(state).outcome)
      ensures old(holder).Some? && old(holder) != Some(t) ==> r == Suspended && state == old(state) && holder == old(holder)
      ensures r == Suspended && old(holder).None? ==> holder == Some(t) && channel.Empty?
    {
      if t !in cfg.tasks { Step(F.Call(t)); }
      if holder != Some(t) {
        if holder.Some? { return Suspended; }
        Step(F.Acquire(t));
        match state {
          case Resolved(o) => return Ready(o);
          case Pending(receiver) =>
            if !receiver { return PolledTwice; }
            state := F.Pending(false);
            holder := Some(t);
        }
      }
      if channel.Empty? { return Suspended; }
      var outcome := F.Received(channel);
      Step(F.Receive(t));
      state := F.Resolved(outcome);
      holder := None;
      return Ready(outcome);
    }
  }

  class TesseraHandlerFuture<V(!new)> {
    var state: H.State<V>
    var verdict: H.DispatchChannel
    var execution: F.Channel<V>
    var holder: Option<nat>
    ghost var cfg: H.Config<V>

    ghost predicate Valid()
      reads this
    {
      && H.Inv(cfg)
      && cfg.state == state && cfg.verdict == verdict && cfg.execution == execution && cfg.holder == holder
    }

    ghost method Step(e: H.Event<V>)
      requires H.Inv(cfg) && H.Enabled(cfg, e)
      modifies this`cfg
      ensures H.Inv(cfg) && cfg == H.Apply(old(cfg), e)
    {
      H.StepKeepsInv(cfg, e);
      cfg := H.Apply(cfg, e);
    }

    constructor (initial: H.State<V>)
      requires initial == H.Pending(true) || initial == H.AlreadyDispatched(true) || initial.DispatchFailed?
      ensures Valid() && state == initial && verdict.NoVerdict? && execution.Empty?
    {
      state, verdict, execution, holder := initial, H.NoVerdict, F.Empty, None;
      cfg := H.Config(initial, H.NoVerdict, F.Empty, None, map[], false);
    }

    /** `t` holds the guard and awaits the channel of a state that is not terminal. */
    ghost predicate Awaiting(t: nat)
      reads this
    {
      Valid() && holder == Some(t) && t in cfg.tasks && cfg.tasks[t].Holding? && !H.Terminal(state)
    }

    /** `t` has returned what the terminal state says. */
    ghost predicate Finished(t: nat, result: H.Result<V>)
      reads this
    {
      && Valid() && t in cfg.tasks && cfg.tasks[t] == H.Returned(result)
      && H.Terminal(state) && H.ResultOf(state) == result
    }

    /** Lock the guard and look at the state for the first time. None: go on with the loop. */
    method Enter(t: nat) returns (r: Option<Poll<H.Result<V>>>)
      requires Valid() && holder != Some(t)
      requires t in cfg.tasks ==> cfg.tasks[t].Queued?
      modifies this`state, this`holder, this`cfg
      ensures Valid() && t in cfg.tasks
      ensures match r
              case None => old(holder).None? && !H.Terminal(old(state)) && !H.Taken(old(state)) && Awaiting(t)
              case Some(Suspended) => old(holder).Some? && state == old(state) && holder == old(holder)
              case Some(PolledTwice) => old(holder).None? && H.Taken(old(state)) && cfg.cancelledMidWait
              case Some(Ready(x)) => old(holder).None? && H.Terminal(old(state)) && state == old(state) && Finished(t, x)
    {
      if t !in cfg.tasks { Step(H.Call(t)); }
      if holder.Some? { return Some(Suspended); }
      Step(H.Acquire(t));
      if H.Terminal(state) { return Some(Ready(H.ResultOf(state))); }
      if H.Taken(state) { return Some(PolledTwice); }
      state := H.TakeReceiver(state);
      holder := Some(t);
      return None;
    }

    /** The channel the state waits on has an answer: one more round. None: it awaits again. */
    method Advance(t: nat) returns (r: Option<H.Result<V>>)
      requires Awaiting(t) && H.Answered(cfg)
      modifies this`state, this`holder, this`cfg
      ensures r.None? ==> Awaiting(t) && old(state).Pending? && state.Executing?
      ensures r.Some? ==> Finished(t, r.value)
    {
      Step(H.Receive(t));
      if state.Pending? {
        if verdict == H.Verdict(H.Accepted) {
          state := H.Executing(false);
          return None;
        }
        state := H.DispatchFailed(if verdict.Verdict? then verdict.verdict.error else H.TargetCrashed);
      } else {
        match F.Received(execution) {
          case Ok(v) => state := H.Done(v);
          case Failed(m) => state := H.ExecutionFailed(m);
        }
      }
      holder := None;
      return Some(H.ResultOf(state));
    }

    /** One turn of `resolve`: the loop goes round while the awaited channel already has an answer. */
    method PollResolve(t: nat) returns (r: Poll<H.Result<V>>)
      requires Valid()
      requires t in cfg.tasks ==> cfg.tasks[t].Queued? || cfg.tasks[t].Holding?
      modifies this`state, this`holder, this`cfg
      ensures Valid() && t in cfg.tasks
      ensures r.Ready? ==> Finished(t, r.result)
      ensures r.PolledTwice? <==> old(holder).None? && H.Taken(old(state))
      ensures r.PolledTwice? ==> cfg.cancelledMidWait
      ensures r == Suspended ==>
        (if old(holder).Some? && old(holder) != Some(t) then state == old(state) else Awaiting(t) && !H.Answered(cfg))
    {
      if holder != Some(t) {
        var first := Enter(t);
        if first.Some? { return first.value; }
      }
      var result: Option<H.Result<V>> := None;
      while result.None?
        invariant result.None? ==> Awaiting(t)
        invariant result.Some? ==> Finished(t, result.value)
        decreases result.None?, state.Pending?
      {
        if (if state.Pending? then verdict.NoVerdict? else execution.Empty?) { return Suspended; }
        result := Advance(t);
      }
      return Ready(result.value);
    }
  }
}
