/** crates/tessera-runtime/src/signal.rs, `BrokenReason` and `Ownership`. */
module Breakable {
  datatype BrokenReason = OwnerGone | OwnerCrashed | ScopeGone | ScopeCrashed
}

/** `TesseraContract` as a step relation. The steps are finer than the cooperative scheduler's:
    `fulfill` and `break_with` release the mutex before they notify, and a waiter creates its
    `notified()` future, checks the state and polls the future in three separate steps. */
module ContractMachine {
  import opened Options
  import opened Breakable
  import Notify

  /** Where one call of `wait` is. */
  datatype Waiter =
    | Created(seen: nat)              // holds a fresh future, has not checked the state yet
    | Checked(seen: nat)              // saw neither pending nor broken, has not polled yet
    | Parked
    | Woken(wake: Notify.Wake)        // removed from the queue, not scheduled again yet
    | Succeeded
    | Failed(reason: BrokenReason)
    | Cancelled                       // the future was dropped while suspended

  datatype Config = Config(
    pending: bool,
    broken: Option<BrokenReason>,
    changed: Notify.State,
    waiters: map<nat, Waiter>,
    fulfilling: nat,                  // `fulfill` calls between setting `pending` and `notify_one`
    breaking: nat,                    // `break_with` calls between setting `broken` and `notify_waiters`
    sets: nat,                        // how often `pending` was set
    taken: nat)                       // how often a waiter consumed it

  const INIT := Config(false, None, Notify.IDLE, map[], 0, 0, 0, 0)

  datatype Event =
    | FulfillSet | FulfillNotify
    | BreakSet(reason: BrokenReason) | BreakNotify
    | Arrive(w: nat) | Check(w: nat) | Poll(w: nat) | Resume(w: nat) | Cancel(w: nat)

  predicate At(c: Config, w: nat, p: Waiter -> bool) {
    w in c.waiters && p(c.waiters[w])
  }

  predicate Enabled(c: Config, e: Event) {
    match e
    case FulfillSet => true
    case FulfillNotify => c.fulfilling > 0
    case BreakSet(_) => true
    case BreakNotify => c.breaking > 0
    case Arrive(w) => w !in c.waiters
    case Check(w) => w in c.waiters && c.waiters[w].Created?
    case Poll(w) => w in c.waiters && c.waiters[w].Checked?
    case Resume(w) => w in c.waiters && c.waiters[w].Woken?
    // a future is only ever dropped between two polls
    case Cancel(w) => w in c.waiters && (c.waiters[w].Parked? || c.waiters[w].Woken?)
  }

  /** `notify_one`, with the woken waiter's own state. */
  function HandOn(c: Config): Config {
    var (n, woken) := Notify.NotifyOne(c.changed);
    if woken.None? then c.(changed := n)
    else c.(changed := n, waiters := c.waiters[woken.value := Woken(Notify.One)])
  }

  function Apply(c: Config, e: Event): Config
    requires Enabled(c, e)
  {
    match e
    case FulfillSet =>
      if c.broken.Some? || c.pending then c
      else c.(pending := true, sets := c.sets + 1, fulfilling := c.fulfilling + 1)
    case FulfillNotify => HandOn(c.(fulfilling := c.fulfilling - 1))
    case BreakSet(r) =>
      if c.broken.Some? then c else c.(broken := Some(r), breaking := c.breaking + 1)
    case BreakNotify =>
      c.(breaking := c.breaking - 1, changed := Notify.NotifyAll(c.changed),
         waiters := map w | w in c.waiters :: if c.waiters[w].Parked? then Woken(Notify.All) else c.waiters[w])
    case Arrive(w) => c.(waiters := c.waiters[w := Created(c.changed.calls)])
    case Check(w) =>
      if c.pending then c.(pending := false, taken := c.taken + 1, waiters := c.waiters[w := Succeeded])
      else if c.broken.Some? then c.(waiters := c.waiters[w := Failed(c.broken.value)])
      else c.(waiters := c.waiters[w := Checked(c.waiters[w].seen)])
    case Poll(w) =>
      (match Notify.PollNew(c.changed, w, c.waiters[w].seen)
       case Ready(n) => c.(changed := n, waiters := c.waiters[w := Created(n.calls)])
       case Pending(n) => c.(changed := n, waiters := c.waiters[w := Parked]))
    case Resume(w) => c.(waiters := c.waiters[w := Created(c.changed.calls)])
    case Cancel(w) =>
      var d := c.(changed := c.changed.(queue := Notify.Without(c.changed.queue, w)),
                  waiters := c.waiters[w := Cancelled]);
      if c.waiters[w] == Woken(Notify.One) then HandOn(d) else d
  }

  /** The configuration after a sequence of steps, or None when some step was not enabled. */
  ghost function Exec(es: seq<Event>): Option<Config> {
    if es == [] then Some(INIT)
    else
      match Exec(es[..|es| - 1])
      case None => None
      case Some(c) => if Enabled(c, es[|es| - 1]) then Some(Apply(c, es[|es| - 1])) else None
  }

  ghost predicate Reachable(c: Config) {
    exists es :: Exec(es) == Some(c)
  }

  lemma ReachStep(c: Config, e: Event)
    requires Reachable(c) && Enabled(c, e)
    ensures Reachable(Apply(c, e))
  {
    var es :| Exec(es) == Some(c);
    assert (es + [e])[..|es|] == es;
    assert Exec(es + [e]) == Some(Apply(c, e));
  }

  // ── Invariants ─────────────────────────────────────────────────────────────

  ghost predicate QueueInv(c: Config) {
    && Notify.Distinct(c.changed.queue)
    && (forall w :: w in c.changed.queue <==> w in c.waiters && c.waiters[w] == Parked)
    && (c.changed.queue != [] ==> !c.changed.permit)
  }

  /** A wakeup on its way: somebody is about to notify, a permit is stored, or a waiter that was
      woken (or has just arrived) has yet to look at the state. */
  ghost predicate WakeupInFlight(c: Config) {
    || c.fulfilling > 0
    || c.changed.permit
    || exists w :: w in c.waiters && (c.waiters[w] == Woken(Notify.One) || c.waiters[w].Created?)
  }

  ghost predicate TicketInv(c: Config) {
    forall w :: w in c.waiters && (c.waiters[w].Created? || c.waiters[w].Checked?) ==>
      c.waiters[w].seen <= c.changed.calls
  }

  /** Once the break has been announced nobody is parked, and nobody can park any more. */
  ghost predicate BrokenInv(c: Config) {
    && (c.breaking > 0 ==> c.broken.Some?)
    && (c.broken.Some? && c.breaking == 0 ==>
        && c.changed.queue == []
        && forall w :: w in c.waiters && c.waiters[w].Checked? ==> c.waiters[w].seen < c.changed.calls)
  }

  ghost predicate Inv(c: Config) {
    && QueueInv(c) && TicketInv(c) && BrokenInv(c)
    && c.sets == c.taken + (if c.pending then 1 else 0)
    && (c.pending ==> WakeupInFlight(c))
    && c.breaking <= 1
  }

  lemma HandOnKeeps(c: Config)
    requires QueueInv(c) && TicketInv(c) && BrokenInv(c)
    ensures QueueInv(HandOn(c)) && TicketInv(HandOn(c)) && BrokenInv(HandOn(c)) && WakeupInFlight(HandOn(c))
  {
    if c.changed.queue != [] {
      var w := c.changed.queue[0];
      var d := HandOn(c);
      assert d.waiters[w] == Woken(Notify.One);
      assert c.changed.queue == [w] + d.changed.queue;
    }
  }

  lemma {:induction false} StepKeepsInv(c: Config, e: Event)
    requires Inv(c) && Enabled(c, e)
    ensures Inv(Apply(c, e))
  {
    match e
    case FulfillSet => FulfillKeepsInv(c, e);
    case FulfillNotify => FulfillKeepsInv(c, e);
    case BreakSet(_) => BreakKeepsInv(c, e);
    case BreakNotify => BreakKeepsInv(c, e);
    case Arrive(w) => FreshKeepsInv(c, e, w);
    case Resume(w) => FreshKeepsInv(c, e, w);
    case Check(w) => CheckKeepsInv(c, w);
    case Poll(w) => PollKeepsInv(c, w);
    case Cancel(w) => CancelKeepsInv(c, w);
  }

  lemma FulfillKeepsInv(c: Config, e: Event)
    requires Inv(c) && Enabled(c, e) && (e.FulfillSet? || e.FulfillNotify?)
    ensures Inv(Apply(c, e))
  {
    if e.FulfillNotify? { HandOnKeeps(c.(fulfilling := c.fulfilling - 1)); }
  }

  lemma BreakKeepsInv(c: Config, e: Event)
    requires Inv(c) && Enabled(c, e) && (e.BreakSet? || e.BreakNotify?)
    ensures Inv(Apply(c, e))
  {
    if c.pending { WakeupSurvives(c, Apply(c, e)); }
  }

  /** A waiter that has just arrived, or was scheduled again, carries a wakeup itself. */
  lemma FreshKeepsInv(c: Config, e: Event, w: nat)
    requires Inv(c) && Enabled(c, e) && (e == Arrive(w) || e == Resume(w))
    ensures Inv(Apply(c, e))
  {
    assert Apply(c, e).waiters[w].Created?;
  }

  lemma CheckKeepsInv(c: Config, w: nat)
    requires Inv(c) && Enabled(c, Check(w))
    ensures Inv(Apply(c, Check(w)))
  {
  }

  lemma PollKeepsInv(c: Config, w: nat)
    requires Inv(c) && Enabled(c, Poll(w))
    ensures Inv(Apply(c, Poll(w)))
  {
    var d := Apply(c, Poll(w));
    assert w !in c.changed.queue;
    assert d.waiters[w] == Parked || d.waiters[w].Created?;
    if c.pending && d.waiters[w] == Parked { WakeupElsewhere(c, d, w); }
  }

  lemma CancelKeepsInv(c: Config, w: nat)
    requires Inv(c) && Enabled(c, Cancel(w))
    ensures Inv(Apply(c, Cancel(w)))
  {
    Notify.WithoutDistinct(c.changed.queue, w);
    var m := c.(changed := c.changed.(queue := Notify.Without(c.changed.queue, w)),
                waiters := c.waiters[w := Cancelled]);
    assert QueueInv(m);
    if c.waiters[w] == Woken(Notify.One) {
      HandOnKeeps(m);
    } else if c.pending {
      WakeupElsewhere(c, m, w);
    }
  }

  /** The wakeup was not carried by the one waiter that changed. */
  lemma WakeupElsewhere(c: Config, d: Config, w: nat)
    requires WakeupInFlight(c) && w in c.waiters && !c.waiters[w].Created? && c.waiters[w] != Woken(Notify.One)
    requires d.fulfilling == c.fulfilling && d.changed.permit == c.changed.permit
    requires forall x :: x in c.waiters && x != w ==> x in d.waiters && d.waiters[x] == c.waiters[x]
    ensures WakeupInFlight(d)
  {
    if c.fulfilling == 0 && !c.changed.permit {
      var x :| x in c.waiters && (c.waiters[x] == Woken(Notify.One) || c.waiters[x].Created?);
      assert d.waiters[x] == c.waiters[x];
    }
  }

  lemma WakeupSurvives(c: Config, d: Config)
    requires WakeupInFlight(c)
    requires d.fulfilling == c.fulfilling && d.changed.permit == c.changed.permit
    requires forall x :: x in c.waiters && c.waiters[x] != Parked ==> x in d.waiters && d.waiters[x] == c.waiters[x]
    ensures WakeupInFlight(d)
  {
    if c.fulfilling == 0 && !c.changed.permit {
      var x :| x in c.waiters && (c.waiters[x] == Woken(Notify.One) || c.waiters[x].Created?);
      assert d.waiters[x] == c.waiters[x];
    }
  }

  lemma {:induction false} RunInv(es: seq<Event>)
    requires Exec(es).Some?
    ensures Inv(Exec(es).value)
  {
    if es != [] {
      RunInv(es[..|es| - 1]);
      StepKeepsInv(Exec(es[..|es| - 1]).value, es[|es| - 1]);
    }
  }

  lemma ReachableInv(c: Config)
    requires Reachable(c)
    ensures Inv(c)
  {
    var es :| Exec(es) == Some(c);
    RunInv(es);
  }

  // ── What the documentation promises ────────────────────────────────────────

  /** No task is in the middle of `fulfill`, `break_with` or a poll: what one sees between two
      turns of the cooperative scheduler. */
  ghost predicate Quiescent(c: Config) {
    && c.fulfilling == 0 && c.breaking == 0
    && forall w :: w in c.waiters ==> !c.waiters[w].Created? && !c.waiters[w].Checked?
  }

  /** Every notification is consumed at most once and none is lost, broken or not. */
  lemma NotificationsAreLinear(c: Config)
    requires Reachable(c)
    ensures c.sets == c.taken + (if c.pending then 1 else 0)
  {
    ReachableInv(c);
  }

  /** Between two turns, a waiter is parked beside a pending notification only while another
      waiter already holds the wakeup, and nobody is parked on a broken contract. */
  lemma NoStuckWaiter(c: Config)
    requires Reachable(c) && Quiescent(c)
    ensures c.pending && c.changed.queue != [] ==> exists w :: w in c.waiters && c.waiters[w] == Woken(Notify.One)
    ensures c.broken.Some? ==> forall w :: w in c.waiters ==> c.waiters[w] != Parked
  {
    ReachableInv(c);
    assert forall w :: w in c.changed.queue <==> w in c.waiters && c.waiters[w] == Parked;
    if c.pending && c.changed.queue != [] {
      var w :| w in c.waiters && (c.waiters[w] == Woken(Notify.One) || c.waiters[w].Created?);
      assert c.waiters[w] == Woken(Notify.One);
    }
  }

  /** The only step that clears `pending` is the one that lets a `wait` succeed; breaking does not
      discard it, and the first broken reason stays. */
  lemma PendingOnlyConsumed(c: Config, e: Event)
    requires Enabled(c, e)
    ensures c.pending && !Apply(c, e).pending <==>
            c.pending && e.Check?
    ensures c.pending && e.Check? ==> Apply(c, e).waiters[e.w] == Succeeded
    ensures c.broken.Some? ==> Apply(c, e).broken == c.broken
  {
  }

  /** A `wait` reports failure only when the contract is broken and nothing was pending. */
  lemma FailsOnlyWhenBroken(c: Config, e: Event, w: nat)
    requires Inv(c) && Enabled(c, e)
    requires w in c.waiters && !c.waiters[w].Failed? && w in Apply(c, e).waiters && Apply(c, e).waiters[w].Failed?
    ensures e == Check(w) && !c.pending && c.broken == Some(Apply(c, e).waiters[w].reason)
  {
  }
}
