/** Lists, objects, errors and the other things a script builds (crates/tessera-interp/src/eval.rs):
    what is written is what is read, and nothing else changes. */
module HeapFacts {
  import opened Options
  import opened Ast
  import opened Values
  import opened Evaluator
  import G = Grammar

  // ── Constructors ───────────────────────────────────────────────────────────

  /** The constructors of the evaluator are those the parser knows by name, and two more, which it knows
      by their brackets or their lack of arguments. */
  lemma ConstructorsAreKnown(c: Context, name: string, vs: seq<Value>, st: State)
    ensures Construct(c, name, vs, st).r.Done? <==> G.IsConstructor(name) || name == "None" || name == "Map"
    ensures !Construct(c, name, vs, st).r.Done? ==> Construct(c, name, vs, st) == Ran(Fail(c, "Panic"), st)
  {
  }

  /** `Ok`, `Err` and `Some` wrap their first argument, or void; `None` is the literal. */
  lemma Wrappers(c: Context, vs: seq<Value>, st: State)
    ensures Construct(c, "Ok", vs, st) == Ran(Done(OkV(if |vs| > 0 then vs[0] else VoidV)), st)
    ensures Construct(c, "Err", vs, st) == Ran(Done(ErrV(if |vs| > 0 then vs[0] else VoidV)), st)
    ensures Construct(c, "Some", vs, st) == Ran(Done(SomeV(if |vs| > 0 then vs[0] else VoidV)), st)
    ensures Construct(c, "None", vs, st) == Ran(Done(LiteralValue(NoneLit)), st)
  {
  }

  /** The reference of a value that has one. */
  function RefOf(v: Value): Option<nat> {
    match v
    case ListV(r) => Some(r)
    case MapV(r) => Some(r)
    case ObjectV(r) => Some(r)
    case HandleV(_, r) => Some(r)
    case _ => None
  }

  /** What is created gets a reference of its own, of its kind, and no object or list changes. */
  lemma NewThingsAreNew(c: Context, name: string, vs: seq<Value>, st: State)
    requires name in {"List", "Map", "locked", "Queue"}
    ensures var a := Construct(c, name, vs, st);
      && a.r.Done? && RefOf(a.r.v) == Some(st.w.next) && a.st.w.next == st.w.next + 1
      && (name == "List" <==> a.r.v.ListV?) && (name == "Map" <==> a.r.v.MapV?)
      && (name == "locked" <==> a.r.v.HandleV? && a.r.v.handle.Locked?)
      && (name == "Queue" <==> a.r.v.HandleV? && a.r.v.handle.Queue?)
      && a.st.scopes == st.scopes && a.st.w.heap.objects == st.w.heap.objects
      && forall r: nat :: r != st.w.next ==> ListAt(a.st.w.heap, r) == ListAt(st.w.heap, r)
  {
  }

  /** The builtins that make a primitive make one of their kind; a permit does so for a count that is not
      negative. */
  lemma NewPrimitives(c: Context, args: seq<Expr>, st: State, call: Call)
    ensures EvalCall(c, "signal", args, st, call) == Ran(Done(HandleV(Signal, st.w.next)), st.(w := st.w.(next := st.w.next + 1)))
    ensures EvalCall(c, "contract", args, st, call) == Ran(Done(HandleV(Contract, st.w.next)), st.(w := st.w.(next := st.w.next + 1)))
    ensures args == [] ==>
      EvalCall(c, "permit", args, st, call) == Ran(Done(HandleV(Permit, st.w.next)), st.(w := st.w.(next := st.w.next + 1)))
    ensures args != [] ==>
      var a := Eval(c, args[0], st, call);
      var p := EvalCall(c, "permit", args, st, call);
      if a.r.Done? && a.r.v.IntV? && a.r.v.n >= 0
      then p.r == Done(HandleV(Permit, a.st.w.next)) && p.st.w.next == a.st.w.next + 1
      else !p.r.Done? && p.st == a.st
  {
  }

  /** The builtins that talk to the host: `print` evaluates all its arguments and `asleep` the first, each
      for nothing; `keepalive` never comes back; and a character is what the host answers. */
  lemma HostBuiltins(c: Context, name: string, args: seq<Expr>, st: State, call: Call)
    ensures name == "print" || name == "println" ==>
      var vs := EvalArgs(c, args, st, call);
      EvalCall(c, name, args, st, call) == if vs.Args? then Ran(Done(VoidV), vs.st) else Ran(vs.r, vs.st)
    ensures EvalCall(c, "asleep", [], st, call) == Ran(Done(VoidV), st)
    ensures args != [] ==>
      var a := Eval(c, args[0], st, call);
      EvalCall(c, "asleep", args, st, call) == if a.r.Done? then Ran(Done(VoidV), a.st) else a
    ensures EvalCall(c, "keepalive", args, st, call) == Ran(Stopped(Waiting), st)
    ensures EvalCall(c, "getchar", args, st, call) == Ask(st)
  {
  }

  /** Any other name is that of a function: an unknown one is an error before any argument is evaluated,
      and an asynchronous one gives a future at once. */
  lemma CallsByName(c: Context, name: string, args: seq<Expr>, st: State, call: Call)
    requires name !in {"print", "println", "asleep", "keepalive", "getchar", "signal", "contract", "permit"}
    ensures name !in c.funcs ==> EvalCall(c, name, args, st, call) == Ran(Fail(c, "Panic"), st)
    ensures name in c.funcs ==>
      var vs := EvalArgs(c, args, st, call);
      EvalCall(c, name, args, st, call) ==
      if vs.NoArgs? then Ran(vs.r, vs.st)
      else if c.funcs[name].kind.Async? then Ran(Done(HandleV(Future, vs.st.w.next)), vs.st.(w := vs.st.w.(next := vs.st.w.next + 1)))
      else call(c.funcs[name], vs.vs, vs.st)
  {
  }

  // ── Lists and texts ────────────────────────────────────────────────────────

  /** A new list holds the values it was made of, by their places. */
  lemma ListsHoldTheirElements(c: Context, vs: seq<Value>, st: State, i: int)
    ensures var a := Construct(c, "List", vs, st);
      a.r.Done? && ElementOf(c, a.r.v, IntV(i), a.st.w.heap) == if 0 <= i < |vs| then Done(vs[i]) else Fail(c, "IndexOutOfBounds")
  {
  }

  /** A text is indexed by character. */
  lemma TextsHoldTheirCharacters(c: Context, s: string, i: int, h: Heap)
    ensures ElementOf(c, StrV(s), IntV(i), h) == if 0 <= i < |s| then Done(CharV(s[i])) else Fail(c, "IndexOutOfBounds")
  {
  }

  /** An element that was assigned is the one that is read, at its place and in its list only; out of
      bounds nothing is assigned; and what is no list is left alone. */
  lemma ElementWritten(c: Context, o: Value, i: Value, v: Value, st: State, p: Value, j: int)
    requires p.ListV?
    ensures var a := AssignElement(c, o, i, v, st);
      var before, after := ElementOf(c, p, IntV(j), st.w.heap), ElementOf(c, p, IntV(j), a.st.w.heap);
      if o.ListV? && i.IntV? && ElementOf(c, o, i, st.w.heap).Done?
      then a.r == Done(VoidV) && after == (if p == o && j == i.n then Done(v) else before)
      else a.st == st && (a.r.Done? <==> !(o.ListV? && i.IntV?)) && (a.r.Failed? ==> a.r.e.kind == "IndexOutOfBounds")
  {
  }

  // ── Objects and errors ─────────────────────────────────────────────────────

  /** A field that was assigned is the one that is read, of its object and by its name only. */
  lemma FieldWritten(c: Context, o: Value, name: string, v: Value, st: State, p: Value, other: string)
    requires o.ObjectV? && p.ObjectV?
    ensures var a := AssignField(c, o, name, v, st);
      a.r == Done(VoidV) && FieldOf(c, p, other, a.st).r == if p == o && other == name then Done(v) else FieldOf(c, p, other, st).r
  {
  }

  /** Nothing but objects and thread handles has fields to assign. */
  lemma NoFieldToAssign(c: Context, o: Value, name: string, v: Value, st: State)
    requires !o.ObjectV? && !(o.HandleV? && o.handle.ThreadHandle?)
    ensures AssignField(c, o, name, v, st) == Ran(Fail(c, "Panic"), st)
  {
  }

  /** A caught error says of what kind it is and what its message is, and a caught value is `Ok` of it. */
  lemma CaughtErrorsSpeak(c: Context, e: Expr, st: State, call: Call)
    ensures var a, t := Eval(c, e, st, call), Eval(c, Try(e), st, call);
      && t.st == a.st
      && (a.r.Done? ==> t.r == Done(OkV(a.r.v)))
      && (a.r.Failed? ==>
           && t.r.Done? && t.r.v.ErrV?
           && FieldOf(c, t.r.v.inner, "kind", t.st) == Ran(Done(StrV(a.r.e.kind)), t.st)
           && FieldOf(c, t.r.v.inner, "message", t.st) == Ran(Done(StrV(a.r.e.message)), t.st))
  {
  }

  /** What a script panics with is the message of the error that is caught. */
  lemma PanicsAreCaught(c: Context, s: string, st: State, call: Call)
    ensures Eval(c, Try(Expr.Panic(Lit(Str(s)))), st, call) == Ran(Done(ErrV(ErrorV("Panic", s))), st)
  {
    assert Eval(c, Lit(Str(s)), st, call) == Ran(Done(StrV(s)), st);
    assert Eval(c, Expr.Panic(Lit(Str(s))), st, call) == Ran(Failed(RuntimeError("Panic", s)), st);
  }

  // ── Exposed fields ─────────────────────────────────────────────────────────

  /** In a thread a field that is exposed, mutable or not, is published with its value, and a primitive
      in it that nobody owns yet becomes the thread's; anything else changes nothing. */
  lemma Publishing(c: Context, name: string, v: Value, w: World)
    ensures var after := SyncExpose(c, name, v, w);
      if c.hasThread && (name in c.exposed || name in c.exposedMutable)
      then
        var claims := v.HandleV? && (v.handle.Signal? || v.handle.Contract? || v.handle.Permit?) && v.ref !in w.heap.claimed;
        && after.exposed == w.exposed[name := v]
        && after.owned == (if claims then w.owned + [v.ref] else w.owned)
        && (forall r: nat :: r in after.heap.claimed <==> r in w.heap.claimed || (claims && r == v.ref))
        && after.heap.(claimed := {}) == w.heap.(claimed := {})
      else after == w
  {
  }

  /** So no primitive is ever owned twice by way of exposure. */
  lemma OwnedOnce(c: Context, name: string, v: Value, w: World)
    requires forall i :: 0 <= i < |w.owned| ==> w.owned[i] in w.heap.claimed
    requires forall i, j :: 0 <= i < j < |w.owned| ==> w.owned[i] != w.owned[j]
    ensures var after := SyncExpose(c, name, v, w);
      && (forall i :: 0 <= i < |after.owned| ==> after.owned[i] in after.heap.claimed)
      && (forall i, j :: 0 <= i < j < |after.owned| ==> after.owned[i] != after.owned[j])
  {
  }

  // ── Names ──────────────────────────────────────────────────────────────────

  /** `self` is the template's object where there is one, and a variable like any other elsewhere. */
  lemma NamesMean(c: Context, name: string, st: State)
    ensures name == "self" && c.self.Some? ==> IdentValue(c, name, st) == Done(ObjectV(c.self.value))
    ensures name != "self" || c.self.None? ==>
      match Lookup(st.scopes, name)
      case Some(v) => IdentValue(c, name, st) == Done(v)
      case None => IdentValue(c, name, st).Failed?
                   && IdentValue(c, name, st).e.kind == if name == "self" then "Panic" else "UndefinedVariable"
  {
  }

  /** What waits for another task: futures and primitives. */
  lemma OnlyTheseWait(c: Context, x: Expr, st: State, call: Call)
    requires Eval(c, x, st, call).r.Done?
    ensures var a := Eval(c, x, st, call);
      Eval(c, Await(x), st, call) ==
      if a.r.v.HandleV? && (a.r.v.handle.Future? || a.r.v.handle.HandlerFuture? || a.r.v.handle.Signal?
                            || a.r.v.handle.Contract? || a.r.v.handle.Permit?)
      then Ask(a.st) else a
  {
  }

  /** A primitive breaks for the reason it is given, and is then equal to the error of that text. */
  lemma BrokenPrimitivesSpeak(c: Context, p: nat, crashed: bool, st: State, kind: HandleKind)
    requires p !in st.w.heap.faults && kind in {Signal, Contract, Permit}
    ensures var after := BreakAll([p], if crashed then SCOPE_CRASHED else SCOPE_GONE, st).w.heap.faults;
      BinaryOp(c, OpEq, HandleV(kind, p), ErrV(StrV(if crashed then "ScopeCrashed" else "ScopeGone")), after) == Done(BoolV(true))
  {
    var reason := if crashed then SCOPE_CRASHED else SCOPE_GONE;
    assert [p][1..] == [] && BreakFaults([p], reason, st.w.heap.faults) == st.w.heap.faults[p := reason];
  }
}
