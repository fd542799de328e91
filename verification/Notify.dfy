/** tokio's `Notify`, by its documented behaviour: a FIFO queue of parked waiters, at most one
    stored permit, and a count of `notify_waiters` calls that every `notified()` future captures
    when it is created. */
module Notify {
  import opened Options

  datatype State = State(queue: seq<nat>, permit: bool, calls: nat)

  /** How a waiter was woken. A `One` wakeup that is never received is handed on; an `All` is not. */
  datatype Wake = One | All

  const IDLE := State([], false, 0)

  /** `notify_one`: wake the oldest parked waiter, or store the permit. */
  function NotifyOne(n: State): (r: (State, Option<nat>)) {
    if n.queue == [] then (n.(permit := true), None) else (n.(queue := n.queue[1..]), Some(n.queue[0]))
  }

  /** `notify_waiters`: wake everybody parked now; store nothing. */
  function NotifyAll(n: State): State {
    n.(queue := [], calls := n.calls + 1)
  }

  datatype Poll = Ready(state: State) | Pending(state: State)

  /** First poll of a `notified()` future created when the count was `seen`: the stored permit is
      taken first, then a `notify_waiters` since creation counts, and otherwise the waiter parks. */
  function PollNew(n: State, w: nat, seen: nat): Poll {
    if n.permit then Ready(n.(permit := false))
    else if n.calls != seen then Ready(n)
    else Pending(n.(queue := n.queue + [w]))
  }

  /** Whoever polls first takes the stored permit, called in the meantime or not; without one, a call since
      the future was created lets it go on, and only otherwise it waits behind all others. */
  lemma PermitComesFirst(n: State, w: nat, seen: nat)
    ensures n.permit ==> PollNew(n, w, seen).Ready? && !PollNew(n, w, seen).state.permit
    ensures !n.permit ==> (PollNew(n, w, seen).Ready? <==> n.calls != seen)
    ensures PollNew(n, w, seen).state.calls == n.calls
    ensures PollNew(n, w, seen).state.queue == n.queue + (if PollNew(n, w, seen).Pending? then [w] else [])
  {
  }

  function Without(q: seq<nat>, w: nat): (r: seq<nat>)
    ensures forall x :: x in r <==> x in q && x != w
  {
    if q == [] then []
    else if q[0] == w then Without(q[1..], w)
    else [q[0]] + Without(q[1..], w)
  }

  ghost predicate Distinct<T>(q: seq<T>) {
    forall i, j :: 0 <= i < j < |q| ==> q[i] != q[j]
  }

  lemma {:induction false} WithoutDistinct(q: seq<nat>, w: nat)
    requires Distinct(q)
    ensures Distinct(Without(q, w))
  {
    if q != [] {
      assert Distinct(q[1..]);
      WithoutDistinct(q[1..], w);
      if q[0] != w {
        var r := Without(q[1..], w);
        assert q[0] !in r;
      }
    }
  }
}
