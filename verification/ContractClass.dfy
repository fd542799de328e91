/** `TesseraContract` with its methods. Each method runs without an await, so the scheduler never
    sees the machine's intermediate configurations; every call extends a run of the machine. */
module Contracts {
  import opened Options
  import opened Breakable
  import Notify
  import M = ContractMachine

  datatype WaitPoll = Suspended | Done(outcome: Option<BrokenReason>)   // None: the wait succeeded

  class Contract {
    var pending: bool
    var broken: Option<BrokenReason>
    var claimed: bool
    var changed: Notify.State
    var woken: map<nat, Notify.Wake>     // notifications sitting in waiter nodes
    ghost var cfg: M.Config

    /** The fields are those of a reachable configuration of the machine, between two turns. */
    ghost predicate Valid()
      reads this
    {
      M.Reachable(cfg) && Synced() && M.Quiescent(cfg)
    }

    ghost predicate Synced()
      reads this
    {
      && cfg.pending == pending && cfg.broken == broken && cfg.changed == changed
      && (forall w :: w in woken <==> w in cfg.waiters && cfg.waiters[w].Woken?)
      && (forall w :: w in woken ==> cfg.waiters[w] == M.Woken(woken[w]))
    }

    ghost method Step(e: M.Event)
      requires M.Reachable(cfg) && M.Enabled(cfg, e)
      modifies this`cfg
      ensures M.Reachable(cfg) && cfg == M.Apply(old(cfg), e)
    {
      M.ReachStep(cfg, e);
      cfg := M.Apply(cfg, e);
    }

    constructor ()
      ensures Valid() && !pending && broken == None && !claimed && changed == Notify.IDLE
    {
      pending, broken, claimed, changed, woken := false, None, false, Notify.IDLE, map[];
      cfg := M.INIT;
      assert M.Exec([]) == Some(M.INIT);
    }

    /** `notify_one` on the real fields. */
    method NotifyOne()
      modifies this`changed, this`woken
      ensures changed == Notify.NotifyOne(old(changed)).0
      ensures woken == match Notify.NotifyOne(old(changed)).1
                       case None => old(woken)
                       case Some(w) => old(woken)[w := Notify.One]
    {
      if changed.queue == [] {
        changed := changed.(permit := true);
      } else {
        woken := woken[changed.queue[0] := Notify.One];
        changed := changed.(queue := changed.queue[1..]);
      }
    }

    method Fulfill()
      requires Valid()
      modifies this
      ensures Valid() && broken == old(broken) && claimed == old(claimed)
      ensures pending <==> old(pending) || broken.None?
      ensures IsPending() <==> broken.None?
      ensures old(broken.Some? || pending) ==> changed == old(changed) && woken == old(woken)
      ensures old(broken.None? && !pending) ==>
        if old(changed.queue) == [] then changed.permit && woken == old(woken)
        else changed.queue == old(changed.queue[1..]) && woken == old(woken)[old(changed.queue[0]) := Notify.One]
    {
      M.ReachableInv(cfg);
      if broken.Some? || pending { return; }
      pending := true;
      Step(M.FulfillSet);
      NotifyOne();
      Step(M.FulfillNotify);
    }

    /** Breaks the contract; the first reason wins, and everybody parked is woken. */
    method BreakWith(reason: BrokenReason)
      requires Valid()
      modifies this
      ensures Valid() && pending == old(pending) && claimed == old(claimed) && !IsPending()
      ensures broken == if old(broken).Some? then old(broken) else Some(reason)
      ensures old(broken).None? ==> changed.queue == [] && forall w :: w in old(changed).queue ==> w in woken
    {
      M.ReachableInv(cfg);
      if broken.Some? { return; }
      broken := Some(reason);
      Step(M.BreakSet(reason));
      WakeAll();
    }

    /** `notify_waiters`, on the contract just broken. */
    method WakeAll()
      requires M.Reachable(cfg) && Synced() && M.QueueInv(cfg)
      requires cfg.fulfilling == 0 && cfg.breaking == 1
      requires forall w :: w in cfg.waiters ==> !cfg.waiters[w].Created? && !cfg.waiters[w].Checked?
      modifies this`changed, this`woken, this`cfg
      ensures Valid() && changed == Notify.NotifyAll(old(changed))
      ensures forall w :: w in old(changed).queue ==> w in woken
    {
      ghost var c := cfg;
      woken := woken + map w | w in changed.queue :: Notify.All;
      changed := Notify.NotifyAll(changed);
      Step(M.BreakNotify);
      assert forall w :: w in c.waiters ==> w in cfg.waiters;
    }

    function IsPending(): (r: bool)
      reads this
      ensures r ==> broken.None?
    {
      pending && broken.None?
    }

    method TryClaimOwnership() returns (won: bool)
      requires Valid()
      modifies this`claimed
      ensures won == !old(claimed) && claimed
    {
      won := !claimed;
      claimed := true;
    }

    /** `w` holds a fresh future; every other task is suspended. */
    ghost predicate InPoll(w: nat)
      reads this
    {
      && cfg.fulfilling == 0 && cfg.breaking == 0
      && w in cfg.waiters && cfg.waiters[w] == M.Created(changed.calls)
      && forall x :: x in cfg.waiters && x != w ==> !cfg.waiters[x].Created? && !cfg.waiters[x].Checked?
    }

    /** The task is scheduled, received its wakeup if it had one, and creates `notified()`. */
    method NewFuture(w: nat)
      requires Valid()
      requires w in cfg.waiters ==> cfg.waiters[w].Woken?
      modifies this`woken, this`cfg
      ensures M.Reachable(cfg) && Synced() && InPoll(w) && woken == old(woken) - {w}
    {
      if w in woken {
        woken := woken - {w};
        Step(M.Resume(w));
      } else {
        Step(M.Arrive(w));
      }
    }

    /** One round of the loop in `wait`: check the state, then poll the future. None: go round again. */
    method CheckAndPoll(w: nat) returns (r: Option<WaitPoll>)
      requires M.Reachable(cfg) && Synced() && InPoll(w)
      modifies this`pending, this`changed, this`cfg
      ensures M.Reachable(cfg) && Synced() && !pending
      ensures r.Some? ==> M.Quiescent(cfg)
      ensures r.None? ==> InPoll(w) && !old(pending) && broken.None? && old(changed).permit && changed == old(changed).(permit := false)
      ensures r == Some(Suspended) ==>
        !old(pending) && broken.None? && !old(changed).permit && changed == old(changed).(queue := old(changed).queue + [w])
      ensures r.Some? && r.value.Done? ==>
        changed == old(changed) && (if old(pending) then r.value == Done(None) else broken.Some? && r.value == Done(broken))
    {
      Step(M.Check(w));
      if pending {
        pending := false;
        return Some(Done(None));
      }
      if broken.Some? {
        return Some(Done(broken));
      }
      Step(M.Poll(w));
      match Notify.PollNew(changed, w, changed.calls)
      case Ready(n) =>
        changed := n;
        return None;
      case Pending(n) =>
        changed := n;
        return Some(Suspended);
    }

    /** One turn of the task running `wait`. A waiter that is still parked stays where it is, and one
        that arrives or was woken looks at the state. */
    method PollWait(w: nat) returns (r: WaitPoll)
      requires Valid()
      requires w in cfg.waiters ==> cfg.waiters[w].Parked? || cfg.waiters[w].Woken?
      modifies this`pending, this`changed, this`cfg, this`woken
      ensures Valid()
      ensures w in old(changed).queue ==>
        r == Suspended && pending == old(pending) && changed == old(changed) && woken == old(woken)
      ensures w !in old(changed).queue ==> !pending && woken == old(woken) - {w}
      ensures w !in old(changed).queue && old(pending) ==> r == Done(None) && changed == old(changed)
      ensures w !in old(changed).queue && !old(pending) && broken.Some? ==> r == Done(broken) && changed == old(changed)
      ensures w !in old(changed).queue && !old(pending) && broken.None? ==>
        r == Suspended && changed == old(changed).(permit := false, queue := old(changed).queue + [w])
    {
      M.ReachableInv(cfg);
      if w in changed.queue { return Suspended; }
      r := LookAgain(w);
    }

    method LookAgain(w: nat) returns (r: WaitPoll)
      requires Valid()
      requires w in cfg.waiters ==> cfg.waiters[w].Woken?
      modifies this`pending, this`changed, this`cfg, this`woken
      ensures Valid() && !pending && woken == old(woken) - {w}
      ensures old(pending) ==> r == Done(None) && changed == old(changed)
      ensures !old(pending) && broken.Some? ==> r == Done(broken) && changed == old(changed)
      ensures !old(pending) && broken.None? ==>
        r == Suspended && changed == old(changed).(permit := false, queue := old(changed).queue + [w])
    {
      NewFuture(w);
      var round: Option<WaitPoll> := None;
      while round.None?
        invariant M.Reachable(cfg) && Synced()
        invariant woken == old(woken) - {w}
        invariant round.None? ==> InPoll(w) && pending == old(pending)
        invariant round.None? ==> changed == old(changed) || (!pending && broken.None? && changed == old(changed).(permit := false))
        invariant round.Some? ==> M.Quiescent(cfg) && !pending
        invariant round.Some? && old(pending) ==> round.value == Done(None) && changed == old(changed)
        invariant round.Some? && !old(pending) && broken.Some? ==> round.value == Done(broken) && changed == old(changed)
        invariant round.Some? && !old(pending) && broken.None? ==>
          round.value == Suspended && changed == old(changed).(permit := false, queue := old(changed).queue + [w])
        decreases round.None?, changed.permit
      {
        round := CheckAndPoll(w);
      }
      r := round.value;
    }

    /** Drops the future of a suspended `wait`: a single wakeup already received is handed on. */
    method CancelWait(w: nat)
      requires Valid()
      requires w in cfg.waiters && (cfg.waiters[w].Parked? || cfg.waiters[w].Woken?)
      modifies this
      ensures Valid() && pending == old(pending) && broken == old(broken) && claimed == old(claimed)
      ensures w !in changed.queue && w !in woken
    {
      var handOn := w in woken && woken[w] == Notify.One;
      assert handOn <==> cfg.waiters[w] == M.Woken(Notify.One);
      changed := changed.(queue := Notify.Without(changed.queue, w));
      woken := woken - {w};
      Step(M.Cancel(w));
      assert changed.queue != [] ==> changed.queue[0] in changed.queue;
      assert w !in woken && w !in changed.queue;
      if handOn {
        NotifyOne();
        assert w !in changed.queue;
      }
    }
  }
}
