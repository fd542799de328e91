/** `TesseraPermit`: a counting semaphore that is closed to break it. */
module Permits {
  import opened Options
  import opened Breakable
  import Notify

  /** tokio's `Semaphore` for single-permit requests: `granted` holds the waiters a permit was
      assigned to and that have not run since. */
  datatype Semaphore = Semaphore(permits: nat, queue: seq<nat>, granted: set<nat>, closed: bool)

  /** `add_permits`: the oldest waiters are served first, what is left is stored. */
  function AddPermits(s: Semaphore, n: nat): Semaphore
    decreases n
  {
    if n == 0 then s
    else if s.queue == [] then s.(permits := s.permits + n)
    else AddPermits(s.(queue := s.queue[1..], granted := s.granted + {s.queue[0]}), n - 1)
  }

  ghost predicate Fair(s: Semaphore) {
    && (s.queue != [] ==> s.permits == 0)
    && Notify.Distinct(s.queue)
    && (forall w :: w in s.queue ==> w !in s.granted)
  }

  function Served(s: Semaphore, n: nat): (k: nat)
    ensures k <= |s.queue|
  {
    if n < |s.queue| then n else |s.queue|
  }

  /** `n` permits go to the `n` oldest waiters; the rest, and only the rest, is stored. */
  lemma {:induction false} AddPermitsServesOldest(s: Semaphore, n: nat)
    ensures var r := AddPermits(s, n);
            && r.queue == s.queue[Served(s, n)..]
            && r.granted == s.granted + (set w | w in s.queue[..Served(s, n)])
            && r.permits == s.permits + (n - Served(s, n))
            && r.closed == s.closed
    decreases n
  {
    if n > 0 && s.queue != [] {
      var t := s.(queue := s.queue[1..], granted := s.granted + {s.queue[0]});
      AddPermitsServesOldest(t, n - 1);
      var k := Served(s, n);
      assert t.queue[k - 1..] == s.queue[k..];
      assert s.queue[..k] == [s.queue[0]] + t.queue[..k - 1];
    }
  }

  /** Releasing keeps the queue fair and accounts for every permit. */
  lemma {:induction false} AddPermitsConserves(s: Semaphore, n: nat)
    requires Fair(s)
    ensures var r := AddPermits(s, n);
            Fair(r) && r.closed == s.closed && |r.granted| + r.permits == |s.granted| + s.permits + n
    ensures forall w :: w in AddPermits(s, n).queue ==> w in s.queue
    ensures forall w :: w in AddPermits(s, n).granted ==> w in s.granted || w in s.queue
    decreases n
  {
    if n > 0 && s.queue != [] {
      var t := s.(queue := s.queue[1..], granted := s.granted + {s.queue[0]});
      assert s.queue[0] in s.queue;
      assert forall w :: w in t.queue ==> w in s.queue && w != s.queue[0];
      AddPermitsConserves(t, n - 1);
    }
  }

  datatype AcquirePoll = Suspended | Acquired | Failed(reason: BrokenReason)

  class Permit {
    var sem: Semaphore
    var broken: Option<BrokenReason>
    var claimed: bool
    ghost var acquired: nat               // permits consumed by successful waits
    ghost var released: nat               // the initial count and everything released since

    /** A closed permit always has a recorded reason, and no permit appears or disappears. */
    ghost predicate Valid()
      reads this
    {
      && Fair(sem)
      && (sem.closed <==> broken.Some?)
      && (sem.closed ==> sem.queue == [])
      && released == acquired + sem.permits + |sem.granted|
    }

    constructor (initial: nat)
      ensures Valid() && sem == Semaphore(initial, [], {}, false) && broken == None && !claimed
      ensures released == initial
    {
      sem, broken, claimed := Semaphore(initial, [], {}, false), None, false;
      acquired, released := 0, initial;
    }

    method ReleaseN(n: nat)
      requires Valid() && n > 0
      modifies this`sem, this`released
      ensures Valid()
      ensures sem.closed ==> sem == old(sem)
      ensures !sem.closed ==> released == old(released) + n && sem == AddPermits(old(sem), n)
    {
      if sem.closed { return; }
      AddPermitsConserves(sem, n);
      sem := AddPermits(sem, n);
      released := released + n;
    }

    function Count(): (n: nat)
      reads this
      ensures n > 0 ==> !sem.closed
    {
      if sem.closed then 0 else sem.permits
    }

    method BreakWith(reason: BrokenReason)
      requires Valid()
      modifies this`sem, this`broken
      ensures Valid() && sem.closed && Count() == 0
      ensures broken == if old(broken).Some? then old(broken) else Some(reason)
    {
      if broken.Some? { return; }
      broken := Some(reason);
      sem := sem.(closed := true, queue := []);
    }

    method TryClaimOwnership() returns (won: bool)
      requires Valid()
      modifies this`claimed
      ensures won == !old(claimed) && claimed && Valid()
    {
      won := !claimed;
      claimed := true;
    }

    /** One turn of `acquire`; an acquirer in the queue keeps its place. The reason reported is always the recorded one: the fallback
        `OwnerGone` of the source is never needed. */
    method PollAcquire(w: nat) returns (r: AcquirePoll)
      requires Valid()
      modifies this`sem, this`acquired
      ensures Valid()
      ensures r == (if sem.closed then Failed(broken.value)
                    else if w in old(sem).granted || old(sem).permits > 0 then Acquired else Suspended)
      ensures old(Count()) > 0 ==> r == Acquired
      ensures acquired == old(acquired) + (if r == Acquired then 1 else 0)
      ensures r == Suspended ==>
        sem == if w in old(sem).queue then old(sem) else old(sem).(queue := old(sem).queue + [w])
    {
      var mine := w in sem.granted;
      if sem.closed {
        if mine {
          sem := sem.(granted := sem.granted - {w}, permits := sem.permits + 1);
        }
        r := Failed(match broken case Some(reason) => reason case None => OwnerGone);
      } else if mine {
        sem := sem.(granted := sem.granted - {w});
        acquired := acquired + 1;
        r := Acquired;
      } else if sem.permits > 0 {
        sem := sem.(permits := sem.permits - 1);
        acquired := acquired + 1;
        r := Acquired;
      } else {
        if w !in sem.queue { sem := sem.(queue := sem.queue + [w]); }
        r := Suspended;
      }
    }

    /** Drops a suspended `acquire`: a permit already assigned to it goes to the next waiter. */
    method CancelAcquire(w: nat)
      requires Valid()
      modifies this`sem
      ensures Valid() && w !in sem.queue && w !in sem.granted
      ensures |old(sem).granted| + old(sem).permits == |sem.granted| + sem.permits
    {
      var mine := w in sem.granted;
      Notify.WithoutDistinct(sem.queue, w);
      sem := sem.(queue := Notify.Without(sem.queue, w), granted := sem.granted - {w});
      if mine {
        AddPermitsConserves(sem, 1);
        sem := AddPermits(sem, 1);
      }
    }
  }
}
