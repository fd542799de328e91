/** Calls, scope templates and the order of evaluation (crates/tessera-interp/src/eval.rs): which
    arguments a function takes, what a scope's object holds, whose error comes first. */
module CallFacts {
  import opened Options
  import opened Ast
  import opened Values
  import opened Evaluator
  import F = EvalFacts
  import O = OperatorFacts

  // ── Arguments ──────────────────────────────────────────────────────────────

  /** What counts is how many parameters have no default, wherever they stand. */
  lemma {:induction false} RequiredCounts(ps: seq<Param>, qs: seq<Param>, p: Param)
    ensures Required(ps + qs) == Required(ps) + Required(qs)
    ensures Required([]) == 0 && Required([p]) == if p.default.None? then 1 else 0
    decreases |ps|
  {
    assert [p][1..] == [];
    if ps == [] {
      assert ps + qs == qs;
    } else {
      assert (ps + qs)[1..] == ps[1..] + qs;
      RequiredCounts(ps[1..], qs, p);
    }
  }

  predicate DefaultsLast(ps: seq<Param>) {
    forall i, j :: 0 <= i < j < |ps| && ps[i].default.Some? ==> ps[j].default.Some?
  }

  /** With its defaults last, a function takes arguments exactly if there are not too many, each fits its
      parameter, and the parameters without one have a default. */
  lemma AcceptsIff(f: FuncDef, vs: seq<Value>)
    requires DefaultsLast(f.params)
    ensures Accepts(f, vs) <==>
      && |vs| <= |f.params|
      && (forall i :: 0 <= i < |vs| && i < |f.params| ==> TypeMatches(f.params[i].ty, vs[i]))
      && (forall i :: |vs| <= i < |f.params| ==> f.params[i].default.Some?)
  {
    F.ArgsMatchIff(f.params, vs);
    RequiredLast(f.params, |vs|);
  }

  lemma {:induction false} RequiredLast(ps: seq<Param>, n: nat)
    requires DefaultsLast(ps)
    ensures Required(ps) <= n <==> forall i :: n <= i < |ps| ==> ps[i].default.Some?
    decreases |ps|
  {
    if ps != [] {
      assert DefaultsLast(ps[1..]);
      assert forall i :: 0 < i < |ps| ==> ps[i] == ps[1..][i - 1];
      if ps[0].default.None? {
        if n > 0 { RequiredLast(ps[1..], n - 1); }
      } else {
        RequiredLast(ps[1..], 0);
      }
    }
  }

  /** The default of a parameter without an argument is not evaluated: the name is not bound by the call. */
  lemma DefaultsAreNotBound(f: FuncDef, vs: seq<Value>, st: State, i: nat)
    requires |vs| <= i < |f.params| && forall j :: 0 <= j < |vs| ==> f.params[j].name != f.params[i].name
    ensures Lookup(EnterFunc(f, vs, st).scopes, f.params[i].name) == Lookup(st.scopes, f.params[i].name)
  {
    F.ParametersAreBound(Push(st.scopes), f.params, vs, f.params[i].name);
    assert Pop(Push(st.scopes)) == st.scopes;
  }

  // ── The object of a scope block ────────────────────────────────────────────

  /** Its parameters hold the arguments; of two with one name, the later. */
  lemma {:induction false} ScopeParameters(ps: seq<Param>, vs: seq<Value>, name: string)
    ensures var last := F.LastOf(ps, |vs|, name);
      && (name in BindParams(ps, vs) <==> last.Some?)
      && (last.Some? ==> BindParams(ps, vs)[name] == vs[last.value])
    decreases |ps|
  {
    if ps != [] && vs != [] { ScopeParameters(ps[1..], vs[1..], name); }
  }

  /** Its fields are filled one after the other, each from where the one before has left off, and the
      first that fails is the last. */
  lemma {:induction false} FieldsInOrder(
      c: Context, first: seq<ScopeMember>, others: seq<ScopeMember>, o: map<string, Value>, st: State, call: Call)
    ensures var a := InitFields(c, first, o, st, call);
      InitFields(c, first + others, o, st, call) == if a.0.Done? then InitFields(c, others, a.1, a.2, call) else a
    decreases |first|
  {
    if first == [] {
      assert first + others == others;
    } else {
      assert (first + others)[1..] == first[1..] + others;
      if !first[0].ScopeDefine? {
        FieldsInOrder(c, first[1..], others, o, st, call);
      } else if first[0].d.initializer.None? {
        FieldsInOrder(c, first[1..], others, o[first[0].d.name := DefaultValue(first[0].d.ty)], st, call);
      } else {
        var a := Eval(c, first[0].d.initializer.value, st, call);
        if a.r.Done? { FieldsInOrder(c, first[1..], others, o[first[0].d.name := a.r.v], a.st, call); }
      }
    }
  }

  /** One field holds what its initializer gives, or the zero of its type. */
  lemma OneField(c: Context, m: ScopeMember, o: map<string, Value>, st: State, call: Call)
    ensures var a := InitFields(c, [m], o, st, call);
      if !m.ScopeDefine? then a == (Done(VoidV), o, st)
      else if m.d.initializer.None? then a == (Done(VoidV), o[m.d.name := DefaultValue(m.d.ty)], st)
      else
        var e := Eval(c, m.d.initializer.value, st, call);
        if e.r.Done? then a == (Done(VoidV), o[m.d.name := e.r.v], e.st) else a.0 == e.r && a.2 == e.st
  {
    assert [m][1..] == [];
  }

  // ── Scope blocks ───────────────────────────────────────────────────────────

  /** A named template is used as if it were written at the block; a name that has none means a plain block. */
  lemma NamesOfTemplates(c: Context, fuel: nat, name: string, args: seq<Expr>, body: Block, st: State)
    ensures name in c.scopes ==>
      ExecScopeBlock(c, fuel, NamedScope(name), args, body, st)
      == ExecScopeBlock(c, fuel, AnonymousScope(c.scopes[name]), args, body, st)
    ensures name !in c.scopes ==>
      var b := ExecBlock(c, fuel, body, PushScope(st));
      ExecScopeBlock(c, fuel, NamedScope(name), args, body, st) == if b.flow.Halted? then b else Went(b.flow, PopScope(b.st))
  {
  }

  /** A template takes as many arguments as it has parameters, and no less. */
  lemma TemplateArity(c: Context, fuel: nat, d: ScopeDecl, args: seq<Expr>, body: Block, st: State)
    requires |d.params| != |args|
    ensures var x := ExecScopeBlock(c, fuel, AnonymousScope(d), args, body, st);
      x.flow.Threw? && x.flow.e.kind == "Panic" && x.st == PushScope(st)
  {
  }

  /** The hooks and body of a block whose arguments and fields have values: the first error of enter hook,
      body and exit hook is the block's; the body does not run behind a failed enter hook, but the exit
      hook does behind a failed body; and otherwise the block goes as its body. */
  lemma FirstErrorOfAScope(c: Context, fuel: nat, d: ScopeDecl, args: seq<Expr>, body: Block, other: Block, st: State)
    requires |d.params| == |args|
    requires EvalArgs(c, args, PushScope(st), CallAt(c, fuel)).Args?
    requires var vs := EvalArgs(c, args, PushScope(st), CallAt(c, fuel));
      InitFields(c, d.members, BindParams(d.params, vs.vs), vs.st, CallAt(c, fuel)).0.Done?
    ensures var vs := EvalArgs(c, args, PushScope(st), CallAt(c, fuel));
      var fields := InitFields(c, d.members, BindParams(d.params, vs.vs), vs.st, CallAt(c, fuel));
      var enter := ExecHook(c, fuel, Hook(d.members, true), BindSelf(fields.1, fields.2));
      var x := ExecScopeBlock(c, fuel, AnonymousScope(d), args, body, st);
      if enter.flow.Threw? then x.flow == enter.flow && x == ExecScopeBlock(c, fuel, AnonymousScope(d), args, other, st)
      else if enter.flow.Halted? then x == enter
      else
        var b := ExecBlock(c, fuel, body, enter.st);
        var exit := ExecHook(c, fuel, Hook(d.members, false), b.st);
        if b.flow.Halted? then x == b
        else if exit.flow.Halted? then x == exit
        else x.flow == if b.flow.Threw? then b.flow else if exit.flow.Threw? then exit.flow else b.flow
  {
    AsInScope(c, fuel, d, args, body, st);
    AsInScope(c, fuel, d, args, other, st);
    var vs := EvalArgs(c, args, PushScope(st), CallAt(c, fuel));
    var fields := InitFields(c, d.members, BindParams(d.params, vs.vs), vs.st, CallAt(c, fuel));
    var enter := ExecHook(c, fuel, Hook(d.members, true), BindSelf(fields.1, fields.2));
    if !enter.flow.Threw? && !enter.flow.Halted? {
      var prims := FieldPrims(d.members, ObjectAt(enter.st.w.heap, fields.2.w.next));
      assert ExecInScope(c, fuel, d, body, fields.1, fields.2) == ExecScopeBody(c, fuel, d, body, prims, enter.st);
      var b := ExecBlock(c, fuel, body, enter.st);
      if !b.flow.Halted? { assert ExecScopeBody(c, fuel, d, body, prims, enter.st) == ExecExit(c, fuel, d, prims, b); }
    }
  }

  lemma AsInScope(c: Context, fuel: nat, d: ScopeDecl, args: seq<Expr>, body: Block, st: State)
    requires |d.params| == |args|
    requires EvalArgs(c, args, PushScope(st), CallAt(c, fuel)).Args?
    requires var vs := EvalArgs(c, args, PushScope(st), CallAt(c, fuel));
      InitFields(c, d.members, BindParams(d.params, vs.vs), vs.st, CallAt(c, fuel)).0.Done?
    ensures var vs := EvalArgs(c, args, PushScope(st), CallAt(c, fuel));
      var fields := InitFields(c, d.members, BindParams(d.params, vs.vs), vs.st, CallAt(c, fuel));
      ExecScopeBlock(c, fuel, AnonymousScope(d), args, body, st) == ExecInScope(c, fuel, d, body, fields.1, fields.2)
  {
    var vs := EvalArgs(c, args, PushScope(st), CallAt(c, fuel));
    assert ExecScopeBlock(c, fuel, AnonymousScope(d), args, body, st) == ExecWithArgs(c, fuel, d, vs.vs, body, vs.st);
  }

  // ── Order of evaluation ────────────────────────────────────────────────────

  /** What comes first and has no value ends the evaluation, whatever comes later. */
  lemma FirstFailureEnds(c: Context, op: BinOp, l: Expr, r: Expr, target: AssignTarget, value: Expr, st: State, call: Call)
    ensures !Eval(c, l, st, call).r.Done? ==> Eval(c, Binary(op, l, r), st, call) == Eval(c, l, st, call)
    ensures !Eval(c, l, st, call).r.Done? ==> Eval(c, Index(l, r), st, call) == Eval(c, l, st, call)
    ensures !Eval(c, value, st, call).r.Done? ==> AssignTo(c, target, value, st, call) == Eval(c, value, st, call)
  {
  }

  /** Arguments are evaluated one after the other, each from where the one before has left off. */
  lemma {:induction false} ArgumentsInOrder(c: Context, first: seq<Expr>, others: seq<Expr>, st: State, call: Call)
    ensures var a := EvalArgs(c, first, st, call);
      if a.NoArgs? then EvalArgs(c, first + others, st, call) == a
      else
        var b := EvalArgs(c, others, a.st, call);
        EvalArgs(c, first + others, st, call) == if b.Args? then Args(a.vs + b.vs, b.st) else b
    decreases |first|
  {
    if first == [] {
      assert first + others == others;
      var b := EvalArgs(c, others, st, call);
      assert b.Args? ==> [] + b.vs == b.vs;
    } else {
      assert (first + others)[1..] == first[1..] + others;
      var a := Eval(c, first[0], st, call);
      if a.r.Done? {
        ArgumentsInOrder(c, first[1..], others, a.st, call);
        var more := EvalArgs(c, first[1..], a.st, call);
        if more.Args? {
          var b := EvalArgs(c, others, more.st, call);
          assert b.Args? ==> [a.r.v] + (more.vs + b.vs) == ([a.r.v] + more.vs) + b.vs;
        }
      }
    }
  }

  // ── Conditions ─────────────────────────────────────────────────────────────

  /** An `if` takes its first branch unless the condition is one of the three false values. */
  lemma IfDecides(c: Context, fuel: nat, i: IfStmt, st: State)
    requires Eval(c, i.condition, st, CallAt(c, fuel)).r.Done?
    ensures var a := Eval(c, i.condition, st, CallAt(c, fuel));
      ExecIf(c, fuel, i, st) ==
      if a.r.v !in {BoolV(false), IntV(0), NoneV} then ExecBlock(c, fuel, i.thenBlock, a.st)
      else
        match i.elseBranch
        case NoElse => Went(Fell, a.st)
        case Else(b) => ExecBlock(c, fuel, b, a.st)
        case ElseIf(next) => ExecIf(c, fuel, next, a.st)
  {
    O.OnlyThreeAreFalse(Eval(c, i.condition, st, CallAt(c, fuel)).r.v);
  }

  /** A loop ends at a condition that is one of them, and runs its body at any other. */
  lemma LoopsDecide(c: Context, fuel: nat, s: Stmt, st: State)
    requires s.While? && Eval(c, s.condition, st, CallAt(c, fuel)).r.Done?
    ensures var a := Eval(c, s.condition, st, CallAt(c, fuel));
      if a.r.v in {BoolV(false), IntV(0), NoneV} then ExecWhile(c, fuel, s, st) == Went(Fell, a.st)
      else
        var b := ExecBlock(c, fuel, s.body, a.st);
        && (b.flow.Threw? || b.flow.Halted? ==> ExecWhile(c, fuel, s, st) == b)
        && (b.flow == Gave(NeverV) ==> ExecWhile(c, fuel, s, st) == Went(Fell, b.st))
        && (b.flow.Gave? && b.flow.v != NeverV ==> ExecWhile(c, fuel, s, st) == b)
        && (b.flow.Fell? && fuel > 0 ==> ExecWhile(c, fuel, s, st) == ExecWhile(c, fuel - 1, s, b.st))
  {
    O.OnlyThreeAreFalse(Eval(c, s.condition, st, CallAt(c, fuel)).r.v);
    var a := Eval(c, s.condition, st, CallAt(c, fuel));
    if Truthy(a.r.v) { assert ExecWhile(c, fuel, s, st) == ExecRound(c, fuel, s, a.st); }
  }

  // ── Single statements ──────────────────────────────────────────────────────

  /** In a thread an exclusive block runs with the flag up and leaves it down, however it ends; nested
      blocks do not count. Outside threads the flag is not touched. */
  lemma ExclusiveBlockEnds(c: Context, fuel: nat, body: Block, st: State)
    ensures var x := Exec(c, fuel, ExclusiveBlock(body), st);
      var inside := if c.hasThread then st.(w := st.w.(exclusive := true)) else st;
      var b := ExecBlock(c, fuel, body, inside);
      && x.flow == b.flow
      && (!x.flow.Halted? ==> if c.hasThread then !x.st.w.exclusive && x.st == b.st.(w := b.st.w.(exclusive := false)) else x.st == b.st)
  {
  }

  /** A `let` binds its name to its value in the innermost scope and nothing else; if it fails it binds nothing. */
  lemma LetBinds(c: Context, fuel: nat, name: string, ty: Option<TypeExpr>, init: Expr, st: State, other: string)
    requires Eval(c, init, st, CallAt(c, fuel)).st.scopes != []
    ensures var a, x := Eval(c, init, st, CallAt(c, fuel)), Exec(c, fuel, Let(name, ty, init), st);
      if a.r.Done?
      then x.flow.Fell? && Lookup(x.st.scopes, other) == if other == name then Some(a.r.v) else Lookup(a.st.scopes, other)
      else x.st == a.st && !x.flow.Fell? && !x.flow.Gave?
  {
    var a := Eval(c, init, st, CallAt(c, fuel));
    if a.r.Done? { F.DefineThenLookup(a.st.scopes, name, a.r.v, other); }
  }

  /** A spawn goes on once the other side is ready, and binds the new handle to the name it was given. */
  lemma SpawnBindsItsHandle(c: Context, args: seq<Expr>, handle: HandleBind, st: State, call: Call, other: string)
    requires EvalArgs(c, args, st, call).Args? && Ask(EvalArgs(c, args, st, call).st).st.scopes != []
    ensures var ready := Ask(EvalArgs(c, args, st, call).st);
      var x := SpawnThread(c, args, handle, st, call);
      if ready.r.Stopped? then x == ready
      else
        && x.r == Done(VoidV) && x.st.w.next == ready.st.w.next + 1
        && Lookup(x.st.scopes, other) == (if handle == Bind(other) then Some(HandleV(ThreadHandle, ready.st.w.next))
                                          else Lookup(ready.st.scopes, other))
  {
    var ready := Ask(EvalArgs(c, args, st, call).st);
    if handle.Bind? { F.DefineThenLookup(ready.st.scopes, handle.name, HandleV(ThreadHandle, ready.st.w.next), other); }
  }
}
