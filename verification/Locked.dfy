/** `TesseraLocked` (crates/tessera-runtime/src/locked.rs) as a step relation.

    Unlike signal and contract, the source creates its `notified()` future after the check, outside
    the mutex, so the check and the parking are separate steps. Under the cooperative scheduler no
    other task runs between them: `Enabled(true, …)`. `Enabled(false, …)` lets every task run at
    every point. */
module LockedMachine {
  import opened Options
  import Notify

  datatype Op<V> = Lock(owner: nat) | Get | Set(v: V)

  datatype Task<V> =
    | Trying(op: Op<V>)               // about to look at `owner`
    | Refused(op: Op<V>)              // found it held, has not parked yet
    | Parked(op: Op<V>)
    | Woken(op: Op<V>)
    | LockHeld(owner: nat) | Reentrant | GotValue(v: V) | Stored
    | Cancelled

  datatype Config<V> = Config(
    value: V,
    owner: Option<nat>,
    queue: seq<nat>,
    tasks: map<nat, Task<V>>,
    running: Option<nat>)             // the task that is in the middle of a turn

  datatype Event<V> =
    | Start(t: nat, op: Op<V>)        // a task calls lock, get or set
    | Check(t: nat)
    | Park(t: nat)
    | Resume(t: nat)
    | Cancel(t: nat)
    | TryLock(id: nat)
    | Unlock(id: nat)

  function Init<V>(v: V): Config<V> {
    Config(v, None, [], map[], None)
  }

  predicate Enabled<V>(cooperative: bool, c: Config<V>, e: Event<V>) {
    match e
    case Start(t, _) => t !in c.tasks && (cooperative ==> c.running.None?)
    case Check(t) => t in c.tasks && c.tasks[t].Trying?
    case Park(t) => t in c.tasks && c.tasks[t].Refused?
    case Resume(t) => t in c.tasks && c.tasks[t].Woken? && (cooperative ==> c.running.None?)
    case Cancel(t) => t in c.tasks && (c.tasks[t].Parked? || c.tasks[t].Woken?) && (cooperative ==> c.running.None?)
    case TryLock(_) => cooperative ==> c.running.None?
    case Unlock(_) => cooperative ==> c.running.None?
  }

  /** The body of the check, under the mutex. */
  function Decide<V>(c: Config<V>, t: nat, op: Op<V>): Config<V> {
    match op
    case Lock(id) =>
      if c.owner == Some(id) then c.(tasks := c.tasks[t := Reentrant], running := None)
      else if c.owner.None? then c.(owner := Some(id), tasks := c.tasks[t := LockHeld(id)], running := None)
      else c.(tasks := c.tasks[t := Refused(op)])
    case Get =>
      if c.owner.None? then c.(tasks := c.tasks[t := GotValue(c.value)], running := None)
      else c.(tasks := c.tasks[t := Refused(op)])
    case Set(v) =>
      if c.owner.None? then c.(value := v, tasks := c.tasks[t := Stored], running := None)
      else c.(tasks := c.tasks[t := Refused(op)])
  }

  function Apply<V>(c: Config<V>, e: Event<V>): Config<V>
    requires Enabled(false, c, e)
  {
    match e
    case Start(t, op) => c.(tasks := c.tasks[t := Trying(op)], running := Some(t))
    case Check(t) => Decide(c, t, c.tasks[t].op)
    case Park(t) => c.(queue := c.queue + [t], tasks := c.tasks[t := Parked(c.tasks[t].op)], running := None)
    case Resume(t) => c.(tasks := c.tasks[t := Trying(c.tasks[t].op)], running := Some(t))
    case Cancel(t) => c.(queue := Notify.Without(c.queue, t), tasks := c.tasks[t := Cancelled])
    case TryLock(id) => if c.owner.None? then c.(owner := Some(id)) else c
    case Unlock(id) =>
      if c.owner != Some(id) then c
      else c.(owner := None, queue := [],
              tasks := map t | t in c.tasks :: if c.tasks[t].Parked? then Woken(c.tasks[t].op) else c.tasks[t])
  }

  ghost function Exec<V>(cooperative: bool, v: V, es: seq<Event<V>>): Option<Config<V>> {
    if es == [] then Some(Init(v))
    else
      match Exec(cooperative, v, es[..|es| - 1])
      case None => None
      case Some(c) =>
        if Enabled(cooperative, c, es[|es| - 1]) then Some(Apply(c, es[|es| - 1])) else None
  }

  ghost predicate Inv<V>(c: Config<V>) {
    && (forall t :: t in c.queue <==> t in c.tasks && c.tasks[t].Parked?)
    && (forall t :: t in c.tasks && (c.tasks[t].Trying? || c.tasks[t].Refused?) ==> c.running == Some(t))
    && (c.running.Some? ==> c.running.value in c.tasks)
    && (c.running.Some? ==> c.tasks[c.running.value].Trying? || c.tasks[c.running.value].Refused?)
    && (c.owner.None? ==> c.queue == [] && forall t :: t in c.tasks ==> !c.tasks[t].Refused?)
  }

  lemma StepKeepsInv<V>(c: Config<V>, e: Event<V>)
    requires Inv(c) && Enabled(true, c, e)
    ensures Inv(Apply(c, e))
  {
    var d := Apply(c, e);
    match e
    case Park(t) => assert t !in c.queue;
    case _ =>
  }

  lemma {:induction false} RunInv<V>(v: V, es: seq<Event<V>>)
    requires Exec(true, v, es).Some?
    ensures Inv(Exec(true, v, es).value)
  {
    if es != [] {
      RunInv(v, es[..|es| - 1]);
      StepKeepsInv(Exec(true, v, es[..|es| - 1]).value, es[|es| - 1]);
    }
  }

  /** In every cooperative run, nobody sleeps while the lock is free. */
  lemma NoSleeperOnFreeLock<V>(v: V, es: seq<Event<V>>)
    requires Exec(true, v, es).Some? && Exec(true, v, es).value.owner.None?
    ensures forall t :: t in Exec(true, v, es).value.tasks ==> !Exec(true, v, es).value.tasks[t].Parked?
  {
    RunInv(v, es);
    var c := Exec(true, v, es).value;
    assert forall t :: t in c.queue <==> t in c.tasks && c.tasks[t].Parked?;
  }

  /** Without the cooperative scheduler this is lost: thread 2 finds the lock held by thread 1, which
      unlocks before thread 2 parks; thread 2 then sleeps on a free lock. */
  lemma PreemptionLosesTheWakeup()
    ensures exists es: seq<Event<int>> ::
      && Exec(false, 0, es).Some?
      && Exec(false, 0, es).value.owner.None?
      && 7 in Exec(false, 0, es).value.tasks && Exec(false, 0, es).value.tasks[7].Parked?
  {
    var e0: seq<Event<int>> := [TryLock(1)];
    var e1: seq<Event<int>> := e0 + [Start(7, Lock(2))];
    var e2: seq<Event<int>> := e1 + [Check(7)];
    var e3: seq<Event<int>> := e2 + [Unlock(1)];
    var e4: seq<Event<int>> := e3 + [Park(7)];
    assert e0[..0] == [];
    assert e1[..1] == e0 && e2[..2] == e1 && e3[..3] == e2 && e4[..4] == e3;
    assert Exec(false, 0, e0).Some?;
    assert Exec(false, 0, e1).Some? && Exec(false, 0, e1).value.tasks[7] == Trying(Lock(2));
    assert Exec(false, 0, e2).Some? && Exec(false, 0, e2).value.tasks[7] == Refused(Lock(2));
    assert Exec(false, 0, e3).Some? && Exec(false, 0, e3).value.tasks[7] == Refused(Lock(2));
    assert Exec(false, 0, e4).Some?;
  }

  /** At every step, cooperative or not: the value changes only while nobody holds the lock, a held
      lock changes hands only through its owner's `unlock`, and no step gives it to a second owner. */
  lemma HeldValueIsStable<V>(c: Config<V>, e: Event<V>)
    requires Enabled(false, c, e) && c.owner.Some?
    ensures Apply(c, e).value == c.value
    ensures Apply(c, e).owner == if e == Unlock(c.owner.value) then None else c.owner
    ensures forall t :: t in c.tasks && !c.tasks[t].LockHeld? && t in Apply(c, e).tasks ==> !Apply(c, e).tasks[t].LockHeld?
  {
  }
}

/** `TesseraLocked` with its methods, each one turn of the scheduler. */
module LockedValue {
  import opened Options
  import Notify
  import M = LockedMachine

  datatype Poll<V> = Suspended | Locked | Reentrant | Value(v: V) | Stored

  class TesseraLocked<V(!new)> {
    var value: V
    var owner: Option<nat>
    var queue: seq<nat>               // the waiters of `notify`; it never stores a permit here
    ghost var cfg: M.Config<V>

    ghost predicate Valid()
      reads this
    {
      && M.Inv(cfg) && cfg.running.None?
      && cfg.value == value && cfg.owner == owner && cfg.queue == queue
    }

    constructor (initial: V)
      ensures Valid() && value == initial && owner.None?
    {
      value, owner, queue := initial, None, [];
      cfg := M.Init(initial);
    }

    ghost method Step(e: M.Event<V>)
      requires M.Inv(cfg) && M.Enabled(true, cfg, e)
      modifies this`cfg
      ensures M.Inv(cfg) && cfg == M.Apply(old(cfg), e)
    {
      M.StepKeepsInv(cfg, e);
      cfg := M.Apply(cfg, e);
    }

    /** Err is None; Ok(acquired) is Some. */
    method TryLock(id: nat) returns (r: Option<bool>)
      requires Valid()
      modifies this`owner, this`cfg
      ensures Valid()
      ensures r == if old(owner) == Some(id) then None else Some(old(owner).None?)
      ensures owner == if old(owner).None? then Some(id) else old(owner)
    {
      Step(M.TryLock(id));
      if owner == Some(id) { return None; }
      if owner.None? {
        owner := Some(id);
        return Some(true);
      }
      return Some(false);
    }

    method Unlock(id: nat) returns (ok: bool)
      requires Valid()
      modifies this`owner, this`queue, this`cfg
      ensures Valid() && ok == (old(owner) == Some(id))
      ensures if ok then owner.None? && queue == [] else owner == old(owner) && queue == old(queue)
    {
      Step(M.Unlock(id));
      if owner == Some(id) {
        owner := None;
        queue := [];
        return true;
      }
      return false;
    }

    /** One turn of a task inside `lock`, `get` or `set`. A task that is still parked stays where it is,
        even behind an owner with its own name. */
    method PollOp(t: nat, op: M.Op<V>) returns (r: Poll<V>)
      requires Valid()
      requires t in cfg.tasks ==> cfg.tasks[t] == M.Parked(op) || cfg.tasks[t] == M.Woken(op)
      modifies this
      ensures Valid()
      ensures t in old(queue) ==> r == Suspended && owner == old(owner) && owner.Some? && value == old(value) && queue == old(queue)
      ensures t !in old(queue) && op.Get? ==> r == (if owner.None? then Value(value) else Suspended)
      ensures t !in old(queue) && op.Set? ==> r == (if owner.None? then Stored else Suspended)
      ensures t !in old(queue) && op.Lock? ==>
        r == (if old(owner).None? then Locked else if old(owner) == Some(op.owner) then Reentrant else Suspended)
      ensures owner == if r == Locked then Some(op.owner) else old(owner)
      ensures value == if r == Stored then op.v else old(value)
      ensures queue == if r == Suspended && t !in old(queue) then old(queue) + [t] else old(queue)
    {
      if t in queue { return Suspended; }
      r := LookAgain(t, op);
    }

    method LookAgain(t: nat, op: M.Op<V>) returns (r: Poll<V>)
      requires Valid()
      requires t in cfg.tasks ==> cfg.tasks[t] == M.Woken(op)
      modifies this
      ensures Valid()
      ensures op.Get? ==> r == (if owner.None? then Value(value) else Suspended)
      ensures op.Set? ==> r == (if owner.None? then Stored else Suspended)
      ensures op.Lock? ==> r == (if old(owner).None? then Locked else if old(owner) == Some(op.owner) then Reentrant else Suspended)
      ensures owner == if r == Locked then Some(op.owner) else old(owner)
      ensures value == if r == Stored then op.v else old(value)
      ensures queue == if r == Suspended then old(queue) + [t] else old(queue)
    {
      if t in cfg.tasks { Step(M.Resume(t)); } else { Step(M.Start(t, op)); }
      Step(M.Check(t));
      match op {
        case Lock(id) =>
          if owner == Some(id) { return Reentrant; }
          if owner.None? {
            owner := Some(id);
            return Locked;
          }
        case Get =>
          if owner.None? { return Value(value); }
        case Set(v) =>
          if owner.None? {
            value := v;
            return Stored;
          }
      }
      Step(M.Park(t));
      queue := queue + [t];
      return Suspended;
    }
  }
}
