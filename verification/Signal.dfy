/** `TesseraSignal` as a step relation, with the same fine steps as the contract's. */
module SignalMachine {
  import opened Options
  import opened Breakable
  import Notify

  datatype Waiter =
    | Created(seen: nat) | Checked(seen: nat) | Parked | Woken | Succeeded | Failed(reason: BrokenReason) | Cancelled

  datatype Config = Config(
    raised: bool,
    broken: Option<BrokenReason>,
    changed: Notify.State,
    waiters: map<nat, Waiter>,
    raising: nat,                     // `raise` calls between setting `raised` and `notify_waiters`
    breaking: nat)

  const INIT := Config(false, None, Notify.IDLE, map[], 0, 0)

  datatype Event =
    | RaiseSet | RaiseNotify | Reset
    | BreakSet(reason: BrokenReason) | BreakNotify
    | Arrive(w: nat) | Check(w: nat) | Poll(w: nat) | Resume(w: nat) | Cancel(w: nat)

  predicate Enabled(c: Config, e: Event) {
    match e
    case RaiseSet => true
    case RaiseNotify => c.raising > 0
    case Reset => true
    case BreakSet(_) => true
    case BreakNotify => c.breaking > 0
    case Arrive(w) => w !in c.waiters
    case Check(w) => w in c.waiters && c.waiters[w].Created?
    case Poll(w) => w in c.waiters && c.waiters[w].Checked?
    case Resume(w) => w in c.waiters && c.waiters[w].Woken?
    case Cancel(w) => w in c.waiters && (c.waiters[w].Parked? || c.waiters[w].Woken?)
  }

  function WakeAll(c: Config): Config {
    c.(changed := Notify.NotifyAll(c.changed),
       waiters := map w | w in c.waiters :: if c.waiters[w].Parked? then Woken else c.waiters[w])
  }

  function Apply(c: Config, e: Event): Config
    requires Enabled(c, e)
  {
    match e
    case RaiseSet => if c.broken.Some? then c else c.(raised := true, raising := c.raising + 1)
    case RaiseNotify => WakeAll(c.(raising := c.raising - 1))
    case Reset => if c.broken.Some? then c else c.(raised := false)
    case BreakSet(r) => if c.broken.Some? then c else c.(broken := Some(r), breaking := c.breaking + 1)
    case BreakNotify => WakeAll(c.(breaking := c.breaking - 1))
    case Arrive(w) => c.(waiters := c.waiters[w := Created(c.changed.calls)])
    case Check(w) =>
      c.(waiters := c.waiters[w :=
        if c.raised then Succeeded
        else if c.broken.Some? then Failed(c.broken.value)
        else Checked(c.waiters[w].seen)])
    case Poll(w) =>
      (match Notify.PollNew(c.changed, w, c.waiters[w].seen)
       case Ready(n) => c.(changed := n, waiters := c.waiters[w := Created(n.calls)])
       case Pending(n) => c.(changed := n, waiters := c.waiters[w := Parked]))
    case Resume(w) => c.(waiters := c.waiters[w := Created(c.changed.calls)])
    case Cancel(w) =>
      c.(changed := c.changed.(queue := Notify.Without(c.changed.queue, w)), waiters := c.waiters[w := Cancelled])
  }

  ghost function Exec(es: seq<Event>): Option<Config> {
    if es == [] then Some(INIT)
    else
      match Exec(es[..|es| - 1])
      case None => None
      case Some(c) => if Enabled(c, es[|es| - 1]) then Some(Apply(c, es[|es| - 1])) else None
  }

  ghost predicate Reachable(c: Config) {
    exists es :: Exec(es) == Some(c)
  }

  lemma ReachStep(c: Config, e: Event)
    requires Reachable(c) && Enabled(c, e)
    ensures Reachable(Apply(c, e))
  {
    var es :| Exec(es) == Some(c);
    assert (es + [e])[..|es|] == es;
    assert Exec(es + [e]) == Some(Apply(c, e));
  }

  /** While the signal is raised or broken, either somebody is still about to notify, or nobody is
      parked and nobody who already checked can park. */
  ghost predicate Inv(c: Config) {
    && (forall w :: w in c.changed.queue <==> w in c.waiters && c.waiters[w] == Parked)
    && !c.changed.permit
    && (forall w :: w in c.waiters && (c.waiters[w].Created? || c.waiters[w].Checked?) ==> c.waiters[w].seen <= c.changed.calls)
    && (c.breaking > 0 ==> c.broken.Some?)
    && ((c.raised || c.broken.Some?) && c.raising + c.breaking == 0 ==>
        && c.changed.queue == []
        && forall w :: w in c.waiters && c.waiters[w].Checked? ==> c.waiters[w].seen < c.changed.calls)
  }

  lemma {:induction false} RunInv(es: seq<Event>)
    requires Exec(es).Some?
    ensures Inv(Exec(es).value)
  {
    if es != [] {
      RunInv(es[..|es| - 1]);
      StepKeepsInv(Exec(es[..|es| - 1]).value, es[|es| - 1]);
    }
  }

  lemma StepKeepsInv(c: Config, e: Event)
    requires Inv(c) && Enabled(c, e)
    ensures Inv(Apply(c, e))
  {
    var d := Apply(c, e);
    match e
    case Poll(w) => assert w !in c.changed.queue;
    case _ =>
  }

  /** Between two turns no waiter sleeps on a signal that is raised or broken. */
  lemma NoSleeperOnRaisedOrBroken(c: Config)
    requires Reachable(c) && c.raising == 0 && c.breaking == 0 && (c.raised || c.broken.Some?)
    ensures forall w :: w in c.waiters ==> c.waiters[w] != Parked
  {
    var es :| Exec(es) == Some(c);
    RunInv(es);
    assert forall w :: w in c.changed.queue <==> w in c.waiters && c.waiters[w] == Parked;
  }

  /** A wait succeeds only on a raised signal, even a broken one; it fails only on one that is broken
      and not raised. No step ever replaces the recorded reason. */
  lemma WaitOutcome(c: Config, e: Event, w: nat)
    requires Enabled(c, e) && w in c.waiters && w in Apply(c, e).waiters && c.waiters[w] != Apply(c, e).waiters[w]
    ensures Apply(c, e).waiters[w] == Succeeded <==> e == Check(w) && c.raised
    ensures Apply(c, e).waiters[w].Failed? <==> e == Check(w) && !c.raised && c.broken.Some?
    ensures Apply(c, e).waiters[w].Failed? ==> c.broken == Some(Apply(c, e).waiters[w].reason)
    ensures c.broken.Some? ==> Apply(c, e).broken == c.broken && Apply(c, e).raised == c.raised
  {
  }
}

/** `TesseraSignal` with its methods, each one turn of the scheduler. */
module Signals {
  import opened Options
  import opened Breakable
  import Notify
  import M = SignalMachine

  datatype WaitPoll = Suspended | Done(outcome: Option<BrokenReason>)

  class Signal {
    var raised: bool
    var broken: Option<BrokenReason>
    var claimed: bool
    var changed: Notify.State
    ghost var cfg: M.Config

    ghost predicate Synced()
      reads this
    {
      cfg.raised == raised && cfg.broken == broken && cfg.changed == changed && cfg.raising == 0 && cfg.breaking == 0
    }

    ghost predicate Valid()
      reads this
    {
      && M.Reachable(cfg) && Synced()
      && forall w :: w in cfg.waiters ==> !cfg.waiters[w].Created? && !cfg.waiters[w].Checked?
    }

    ghost method Step(e: M.Event)
      requires M.Reachable(cfg) && M.Enabled(cfg, e)
      modifies this`cfg
      ensures M.Reachable(cfg) && cfg == M.Apply(old(cfg), e)
    {
      M.ReachStep(cfg, e);
      cfg := M.Apply(cfg, e);
    }

    constructor ()
      ensures Valid() && !raised && broken == None && !claimed
    {
      raised, broken, claimed, changed := false, None, false, Notify.IDLE;
      cfg := M.INIT;
      assert M.Exec([]) == Some(M.INIT);
    }

    method Raise()
      requires Valid()
      modifies this`raised, this`changed, this`cfg
      ensures Valid() && (IsRaised() <==> broken.None?)
      ensures broken.Some? ==> raised == old(raised) && changed == old(changed)
      ensures broken.None? ==> raised && changed == Notify.NotifyAll(old(changed))
    {
      if broken.Some? { return; }
      raised := true;
      Step(M.RaiseSet);
      changed := Notify.NotifyAll(changed);
      Step(M.RaiseNotify);
    }

    method Reset()
      requires Valid()
      modifies this`raised, this`cfg
      ensures Valid() && raised == (old(raised) && broken.Some?) && !IsRaised()
    {
      Step(M.Reset);
      if broken.Some? { return; }
      raised := false;
    }

    function IsRaised(): (r: bool)
      reads this
      ensures r ==> broken.None?
    {
      raised && broken.None?
    }

    method BreakWith(reason: BrokenReason)
      requires Valid()
      modifies this`broken, this`changed, this`cfg
      ensures Valid() && !IsRaised()
      ensures broken == if old(broken).Some? then old(broken) else Some(reason)
      ensures changed == if old(broken).Some? then old(changed) else Notify.NotifyAll(old(changed))
    {
      if broken.Some? { return; }
      broken := Some(reason);
      Step(M.BreakSet(reason));
      changed := Notify.NotifyAll(changed);
      Step(M.BreakNotify);
    }

    method TryClaimOwnership() returns (won: bool)
      requires Valid()
      modifies this`claimed
      ensures won == !old(claimed) && claimed && Valid()
    {
      won := !claimed;
      claimed := true;
    }

    /** One turn of `wait`: nobody else runs in it, so the loop body decides in one round. A waiter that
        is still parked stays where it is, which happens on a signal neither raised nor broken only. */
    method PollWait(w: nat) returns (r: WaitPoll)
      requires Valid()
      requires w in cfg.waiters ==> cfg.waiters[w].Parked? || cfg.waiters[w].Woken?
      modifies this`changed, this`cfg
      ensures Valid()
      ensures r == if raised then Done(None) else if broken.Some? then Done(broken) else Suspended
      ensures changed == if r == Suspended && w !in old(changed).queue
                         then old(changed).(queue := old(changed).queue + [w]) else old(changed)
    {
      assert M.Inv(cfg) by { var es :| M.Exec(es) == Some(cfg); M.RunInv(es); }
      if w in changed.queue { return Suspended; }
      if w in cfg.waiters { Step(M.Resume(w)); } else { Step(M.Arrive(w)); }
      Step(M.Check(w));
      if raised { return Done(None); }
      if broken.Some? { return Done(broken); }
      assert !changed.permit by { var es :| M.Exec(es) == Some(cfg); M.RunInv(es); }
      Step(M.Poll(w));
      changed := changed.(queue := changed.queue + [w]);
      return Suspended;
    }
  }
}
