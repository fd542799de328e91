/** Which thread owns which primitive, and what breaks it (crates/tessera-runtime/src/thread_state.rs,
    `set_status` and `register_owned`; crates/tessera-interp/src/eval.rs, `maybe_sync_expose` and the
    scope blocks), over every run of any number of threads. */
module OwnershipMachine {
  import opened Options
  import opened Breakable
  import T = ThreadProtocol
  import I = ThreadInvariants

  /** `atEnd` is the owned list at the moment the thread became terminal. */
  datatype Thread = Thread(status: T.Status, owned: seq<nat>, atEnd: Option<seq<nat>>)

  datatype Prim = Prim(claimed: bool, broken: Option<BrokenReason>)

  datatype World = World(threads: seq<Thread>, prims: seq<Prim>)

  datatype Event =
    | NewThread
    | NewPrim
    | Expose(t: nat, p: nat)
    | SetStatus(t: nat, status: T.Status)
    | ScopeBreak(p: nat, crashed: bool)

  const INIT := World([], [])

  predicate Enabled(w: World, e: Event) {
    match e
    case NewThread => true
    case NewPrim => true
    case Expose(t, p) => t < |w.threads| && p < |w.prims|
    // the lifecycle theorem: a terminal status is never followed by another one
    case SetStatus(t, s) => t < |w.threads| && I.Allowed(w.threads[t].status, s)
    case ScopeBreak(p, _) => p < |w.prims|
  }

  function Break(p: Prim, reason: BrokenReason): Prim {
    if p.broken.Some? then p else p.(broken := Some(reason))
  }

  function Reason(s: T.Status): Option<BrokenReason> {
    match s
    case Terminated => Some(OwnerGone)
    case Crashed(_) => Some(OwnerCrashed)
    case _ => None
  }

  function BreakAll(prims: seq<Prim>, owned: seq<nat>, reason: BrokenReason): (r: seq<Prim>)
    ensures |r| == |prims|
  {
    seq(|prims|, i requires 0 <= i < |prims| => if i in owned then Break(prims[i], reason) else prims[i])
  }

  function Apply(w: World, e: Event): World
    requires Enabled(w, e)
  {
    match e
    case NewThread => w.(threads := w.threads + [Thread(T.Running, [], None)])
    case NewPrim => w.(prims := w.prims + [Prim(false, None)])
    case Expose(t, p) =>
      if w.prims[p].claimed then w
      else
        World(w.threads[t := w.threads[t].(owned := w.threads[t].owned + [p])], w.prims[p := w.prims[p].(claimed := true)])
    case SetStatus(t, s) =>
      var th := w.threads[t];
      if Reason(s).None? then w.(threads := w.threads[t := th.(status := s)])
      else World(w.threads[t := th.(status := s, atEnd := Some(th.owned))], BreakAll(w.prims, th.owned, Reason(s).value))
    case ScopeBreak(p, crashed) =>
      w.(prims := w.prims[p := Break(w.prims[p], if crashed then ScopeCrashed else ScopeGone)])
  }

  ghost function Exec(es: seq<Event>): Option<World>
    decreases |es|, 1
  {
    if es == [] then Some(INIT) else ExecLast(es)
  }

  ghost function ExecLast(es: seq<Event>): Option<World>
    requires es != []
    decreases |es|, 0
  {
    match Exec(es[..|es| - 1])
    case None => None
    case Some(w) => if Enabled(w, es[|es| - 1]) then Some(Apply(w, es[|es| - 1])) else None
  }

  predicate Owns(w: World, t: nat, j: nat, p: nat) {
    t < |w.threads| && j < |w.threads[t].owned| && w.threads[t].owned[j] == p
  }

  predicate Ended(w: World, t: nat, p: nat) {
    t < |w.threads| && w.threads[t].atEnd.Some? && p in w.threads[t].atEnd.value
  }

  ghost predicate Inv(w: World) {
    && (forall t: nat, j: nat, p: nat :: Owns(w, t, j, p) ==> p < |w.prims| && w.prims[p].claimed)
    && (forall t: nat, j: nat, u: nat, k: nat, p: nat :: Owns(w, t, j, p) && Owns(w, u, k, p) ==> t == u && j == k)
    && (forall t :: 0 <= t < |w.threads| ==> (T.IsTerminal(w.threads[t].status) <==> w.threads[t].atEnd.Some?))
    && (forall t: nat, p: nat :: Ended(w, t, p) ==> p < |w.prims| && w.prims[p].broken.Some?)
  }

  lemma ExposeKeepsInv(w: World, t: nat, p: nat)
    requires Inv(w) && Enabled(w, Expose(t, p)) && !w.prims[p].claimed
    ensures Inv(Apply(w, Expose(t, p)))
  {
    var d := Apply(w, Expose(t, p));
    var n := |w.threads[t].owned|;
    forall u: nat, k: nat, q: nat | Owns(d, u, k, q) ensures Owns(w, u, k, q) || (u == t && k == n && q == p) {
    }
    assert forall u: nat, k: nat :: !Owns(w, u, k, p);
    assert forall u: nat, q: nat :: Ended(d, u, q) <==> Ended(w, u, q);
  }

  lemma StatusKeepsInv(w: World, t: nat, s: T.Status)
    requires Inv(w) && Enabled(w, SetStatus(t, s))
    ensures Inv(Apply(w, SetStatus(t, s)))
  {
    var d := Apply(w, SetStatus(t, s));
    assert forall u: nat, k: nat, q: nat :: Owns(d, u, k, q) <==> Owns(w, u, k, q);
    forall u: nat, p: nat | Ended(d, u, p) ensures p < |d.prims| && d.prims[p].broken.Some? {
      if u == t && T.IsTerminal(s) {
        var j: nat :| j < |w.threads[t].owned| && w.threads[t].owned[j] == p;
        assert Owns(w, t, j, p);
        assert d.prims[p] == Break(w.prims[p], Reason(s).value);
      } else {
        assert Ended(w, u, p);
      }
    }
  }

  lemma StepKeepsInv(w: World, e: Event)
    requires Inv(w) && Enabled(w, e)
    ensures Inv(Apply(w, e))
  {
    var d := Apply(w, e);
    match e {
      case Expose(t, p) => if !w.prims[p].claimed { ExposeKeepsInv(w, t, p); }
      case SetStatus(t, s) => StatusKeepsInv(w, t, s);
      case NewThread =>
        assert forall u: nat, k: nat, q: nat :: Owns(d, u, k, q) <==> Owns(w, u, k, q);
        assert forall u: nat, q: nat :: Ended(d, u, q) <==> Ended(w, u, q);
      case NewPrim =>
        assert forall u: nat, k: nat, q: nat :: Owns(d, u, k, q) <==> Owns(w, u, k, q);
        assert forall u: nat, q: nat :: Ended(d, u, q) <==> Ended(w, u, q);
      case ScopeBreak(p, _) =>
        assert forall u: nat, k: nat, q: nat :: Owns(d, u, k, q) <==> Owns(w, u, k, q);
        assert forall u: nat, q: nat :: Ended(d, u, q) <==> Ended(w, u, q);
    }
  }

  lemma {:induction false} RunInv(es: seq<Event>)
    requires Exec(es).Some?
    ensures Inv(Exec(es).value)
  {
    if es != [] {
      assert Exec(es) == ExecLast(es);
      RunInv(es[..|es| - 1]);
      StepKeepsInv(Exec(es[..|es| - 1]).value, es[|es| - 1]);
    }
  }

  /** In every run, a primitive has at most one owner, once. */
  lemma OwnedByAtMostOneThread(es: seq<Event>, t: nat, j: nat, u: nat, k: nat, p: nat)
    requires Exec(es).Some? && Owns(Exec(es).value, t, j, p) && Owns(Exec(es).value, u, k, p)
    ensures t == u && j == k
    ensures p < |Exec(es).value.prims| && Exec(es).value.prims[p].claimed
  {
    RunInv(es);
  }

  /** In every run, everything a terminated or crashed thread owned at its end is broken. */
  lemma DeadThreadsBreakWhatTheyOwned(es: seq<Event>, t: nat)
    requires Exec(es).Some? && t < |Exec(es).value.threads| && T.IsTerminal(Exec(es).value.threads[t].status)
    ensures var w := Exec(es).value;
            && w.threads[t].atEnd.Some?
            && forall p :: p in w.threads[t].atEnd.value ==> p < |w.prims| && w.prims[p].broken.Some?
  {
    RunInv(es);
    assert forall p :: p in Exec(es).value.threads[t].atEnd.value ==> Ended(Exec(es).value, t, p);
  }

  /** The reason a primitive breaks with is the fate of its owner or of its scope, and it is final. */
  lemma FirstReasonStays(w: World, e: Event, p: nat)
    requires Inv(w) && Enabled(w, e) && p < |w.prims|
    ensures p < |Apply(w, e).prims|
    ensures w.prims[p].broken.Some? ==> Apply(w, e).prims[p].broken == w.prims[p].broken
    ensures w.prims[p].broken.None? && Apply(w, e).prims[p].broken.Some? ==>
      match Apply(w, e).prims[p].broken.value
      case OwnerGone => e.SetStatus? && e.status == T.Terminated && p in w.threads[e.t].owned
      case OwnerCrashed => e.SetStatus? && e.status.Crashed? && p in w.threads[e.t].owned
      case ScopeGone => e == ScopeBreak(p, false)
      case ScopeCrashed => e == ScopeBreak(p, true)
  {
    if e.SetStatus? && T.IsTerminal(e.status) {
      var owned := w.threads[e.t].owned;
      assert Apply(w, e).prims[p] == if p in owned then Break(w.prims[p], Reason(e.status).value) else w.prims[p];
    }
  }
}

/** `ThreadState::set_status` and `maybe_sync_expose` on the primitives themselves. */
module OwnedPrimitives {
  import opened Options
  import opened Breakable
  import T = ThreadProtocol
  import M = OwnershipMachine
  import Signals
  import Contracts
  import Permits

  datatype Primitive =
    | SignalRef(signal: Signals.Signal)
    | ContractRef(contract: Contracts.Contract)
    | PermitRef(permit: Permits.Permit)
  {
    function Object(): object {
      match this
      case SignalRef(s) => s
      case ContractRef(c) => c
      case PermitRef(p) => p
    }

    ghost predicate Valid()
      reads Object()
    {
      match this
      case SignalRef(s) => s.Valid()
      case ContractRef(c) => c.Valid()
      case PermitRef(p) => p.Valid()
    }

    function Broken(): Option<BrokenReason>
      reads Object()
    {
      match this
      case SignalRef(s) => s.broken
      case ContractRef(c) => c.broken
      case PermitRef(p) => p.broken
    }

    function Claimed(): bool
      reads Object()
    {
      match this
      case SignalRef(s) => s.claimed
      case ContractRef(c) => c.claimed
      case PermitRef(p) => p.claimed
    }

    method BreakWith(reason: BrokenReason)
      requires Valid()
      modifies Object()
      ensures Valid() && Claimed() == old(Claimed())
      ensures Broken() == if old(Broken()).Some? then old(Broken()) else Some(reason)
    {
      match this
      case SignalRef(s) => s.BreakWith(reason);
      case ContractRef(c) => c.BreakWith(reason);
      case PermitRef(p) => p.BreakWith(reason);
    }

    method TryClaimOwnership() returns (won: bool)
      requires Valid()
      modifies Object()
      ensures Valid() && Broken() == old(Broken())
      ensures won == !old(Claimed()) && Claimed()
    {
      match this
      case SignalRef(s) => won := s.TryClaimOwnership();
      case ContractRef(c) => won := c.TryClaimOwnership();
      case PermitRef(p) => won := p.TryClaimOwnership();
    }
  }

  /** Breaks every primitive of a list; the first reason of each one stays. A datatype value stands
      for its object: two references to one object are the same value. */
  method BreakEach(prims: seq<Primitive>, reason: BrokenReason)
    requires forall p :: p in prims ==> p.Valid()
    modifies set p | p in prims :: p.Object()
    ensures forall p :: p in prims ==> p.Valid()
    ensures forall p :: p in prims ==> p.Broken() == if old(p.Broken()).Some? then old(p.Broken()) else Some(reason)
  {
    for k := 0 to |prims|
      invariant forall p :: p in prims ==> p.Valid()
      invariant forall p :: p in prims && old(p.Broken()).Some? ==> p.Broken() == old(p.Broken())
      invariant forall p :: p in prims && old(p.Broken()).None? ==> p.Broken() == None || p.Broken() == Some(reason)
      invariant forall p :: p in prims[..k] ==> p.Broken().Some?
    {
      var p := prims[k];
      assert p in prims;
      p.BreakWith(reason);
      assert forall q :: q in prims && q.Object() == p.Object() ==> q == p;
      assert forall q :: q in prims[..k + 1] <==> q in prims[..k] || q == p;
    }
  }

  /** The end of a scope block: its own primitives break, with the body's fate as the reason. */
  method BreakScope(prims: seq<Primitive>, bodyCrashed: bool)
    requires forall p :: p in prims ==> p.Valid()
    modifies set p | p in prims :: p.Object()
    ensures forall p :: p in prims ==> p.Valid()
    ensures forall p :: p in prims ==>
      p.Broken() == if old(p.Broken()).Some? then old(p.Broken()) else Some(if bodyCrashed then ScopeCrashed else ScopeGone)
  {
    BreakEach(prims, if bodyCrashed then ScopeCrashed else ScopeGone);
  }

  class ThreadState {
    var status: T.Status
    var owned: seq<Primitive>

    ghost function Objects(): set<object>
      reads this
    {
      set p | p in owned :: p.Object()
    }

    ghost predicate Valid()
      reads this, Objects()
    {
      this !in Objects() && forall p :: p in owned ==> p.Valid()
    }

    constructor ()
      ensures status.Running? && owned == []
    {
      status, owned := T.Running, [];
    }

    /** A terminal status breaks every owned primitive; a primitive that was already broken keeps its
        reason, and nothing else changes. */
    method SetStatus(s: T.Status)
      requires Valid()
      modifies this`status, Objects()
      ensures status == s && owned == old(owned)
      ensures forall p :: p in owned ==> p.Valid()
      ensures forall p :: p in owned ==>
        p.Broken() == if old(p.Broken()).Some? || M.Reason(s).None? then old(p.Broken()) else M.Reason(s)
    {
      status := s;
      var reason := M.Reason(s);
      if reason.Some? { BreakEach(owned, reason.value); }
    }

    /** Binding by exposure: the first thread to expose a primitive owns it. */
    method Expose(p: Primitive)
      requires Valid() && p.Valid() && p.Object() != this
      modifies this`owned, p.Object()
      ensures p.Claimed() && p.Broken() == old(p.Broken())
      ensures owned == if old(p.Claimed()) then old(owned) else old(owned) + [p]
    {
      var won := p.TryClaimOwnership();
      if won { owned := owned + [p]; }
    }
  }
}
