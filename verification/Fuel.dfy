/** Fuel only bounds a run: a run that ends without asking for more is the same with any more of it.
    So a statement about every fuel is one about every finite run of the evaluator. */
module Fuel {
  import opened Options
  import opened Ast
  import opened Values
  import opened Evaluator
  import opened Cutoff

  predicate MoreWent(a: Went, b: Went) {
    a.flow == Halted(OutOfFuel) || a == b
  }

  lemma {:induction false} CallsMore(c: Context, f: nat, g: nat)
    requires f <= g
    ensures CutCalls(OutOfFuel, CallAt(c, f), CallAt(c, g))
    decreases f, 0
  {
    forall d: FuncDef, vs: seq<Value>, st: State ensures Cut(OutOfFuel, CallAt(c, f)(d, vs, st), CallAt(c, g)(d, vs, st)) {
      if f > 0 { CallFuncMore(c, f - 1, g - 1, d, vs, st); }
    }
  }

  lemma {:induction false} CallFuncMore(c: Context, f: nat, g: nat, d: FuncDef, vs: seq<Value>, st: State)
    requires f <= g
    ensures Cut(OutOfFuel, CallFunc(c, f, d, vs, st), CallFunc(c, g, d, vs, st))
    decreases f, 3
  {
    BlockMore(c, f, g, d.body, EnterFunc(d, vs, PushFrame(d, st)));
  }

  lemma {:induction false} ExecMore(c: Context, f: nat, g: nat, s: Stmt, st: State)
    requires f <= g
    ensures MoreWent(Exec(c, f, s, st), Exec(c, g, s, st))
    decreases f, 1, s, 1
  {
    match s {
      case If(i) => IfMore(c, f, g, i, st);
      case While(_, _) => WhileMore(c, f, g, s, st);
      case For(first, _, _, _) =>
        if first.Some? { ExecMore(c, f, g, first.value, PushScope(st)); }
        var init := if first.Some? then Exec(c, f, first.value, PushScope(st)) else Went(Fell, PushScope(st));
        ForMore(c, f, g, s, init.st);
      case ExclusiveBlock(body) => BlockMore(c, f, g, body, SetExclusive(c, true, st));
      case ScopeBlock(scope, args, body) => if f > 0 { ScopeBlockMore(c, f - 1, g - 1, scope, args, body, st); }
      case Break =>
      case Continue =>
      case Let(_, _, init) => CallsMore(c, f, g); EvalCut(c, OutOfFuel, init, st, CallAt(c, f), CallAt(c, g));
      case Assign(t, v) => CallsMore(c, f, g); AssignCut(c, OutOfFuel, t, v, st, CallAt(c, f), CallAt(c, g));
      case Return(e) =>
        CallsMore(c, f, g);
        if e.Some? { EvalCut(c, OutOfFuel, e.value, st, CallAt(c, f), CallAt(c, g)); }
      case ThreadSpawn(_, args, _, _) => CallsMore(c, f, g); ArgsCut(c, OutOfFuel, args, st, CallAt(c, f), CallAt(c, g));
      case ExprStmt(e) => CallsMore(c, f, g); EvalCut(c, OutOfFuel, e, st, CallAt(c, f), CallAt(c, g));
    }
  }

  lemma {:induction false} IfMore(c: Context, f: nat, g: nat, i: IfStmt, st: State)
    requires f <= g
    ensures MoreWent(ExecIf(c, f, i, st), ExecIf(c, g, i, st))
    decreases f, 1, i, 1
  {
    CallsMore(c, f, g);
    EvalCut(c, OutOfFuel, i.condition, st, CallAt(c, f), CallAt(c, g));
    var cond := Eval(c, i.condition, st, CallAt(c, f));
    BlockMore(c, f, g, i.thenBlock, cond.st);
    if i.elseBranch.Else? {
      BlockMore(c, f, g, i.elseBranch.block, cond.st);
    } else if i.elseBranch.ElseIf? {
      IfMore(c, f, g, i.elseBranch.next, cond.st);
    }
  }

  lemma {:induction false} WhileMore(c: Context, f: nat, g: nat, s: Stmt, st: State)
    requires f <= g && s.While?
    ensures MoreWent(ExecWhile(c, f, s, st), ExecWhile(c, g, s, st))
    decreases f, 1, s, 0
  {
    CallsMore(c, f, g);
    EvalCut(c, OutOfFuel, s.condition, st, CallAt(c, f), CallAt(c, g));
    var a := Eval(c, s.condition, st, CallAt(c, f));
    BlockMore(c, f, g, s.body, a.st);
    if f > 0 { WhileMore(c, f - 1, g - 1, s, ExecBlock(c, f, s.body, a.st).st); }
    assert MoreWent(ExecRound(c, f, s, a.st), ExecRound(c, g, s, a.st));
  }

  lemma {:induction false} ForMore(c: Context, f: nat, g: nat, s: Stmt, st: State)
    requires f <= g && s.For?
    ensures MoreWent(ExecFor(c, f, s, st), ExecFor(c, g, s, st))
    decreases f, 1, s, 0
  {
    CallsMore(c, f, g);
    if s.test.Some? { EvalCut(c, OutOfFuel, s.test.value, st, CallAt(c, f), CallAt(c, g)); }
    var a := ForTest(c, s, st, CallAt(c, f));
    BlockMore(c, f, g, s.body, a.st);
    var b := ExecBlock(c, f, s.body, a.st);
    if s.update.Some? { ExecMore(c, f, g, s.update.value, b.st); }
    var u := if s.update.Some? then Exec(c, f, s.update.value, b.st) else Went(Fell, b.st);
    if f > 0 { ForMore(c, f - 1, g - 1, s, u.st); }
    assert MoreWent(ExecUpdate(c, f, s, b.st), ExecUpdate(c, g, s, b.st));
    assert MoreWent(ExecTurn(c, f, s, a.st), ExecTurn(c, g, s, a.st));
  }

  lemma {:induction false} BlockMore(c: Context, f: nat, g: nat, b: Block, st: State)
    requires f <= g
    ensures MoreWent(ExecBlock(c, f, b, st), ExecBlock(c, g, b, st))
    decreases f, 1, b, 1
  {
    StmtsMore(c, f, g, b.stmts, PushScope(st));
  }

  lemma {:induction false} StmtsMore(c: Context, f: nat, g: nat, ss: seq<Stmt>, st: State)
    requires f <= g
    ensures MoreWent(ExecStmts(c, f, ss, st), ExecStmts(c, g, ss, st))
    decreases f, 1, ss, 1
  {
    if ss != [] {
      ExecMore(c, f, g, ss[0], st);
      StmtsMore(c, f, g, ss[1..], Exec(c, f, ss[0], st).st);
    }
  }

  lemma {:induction false} HookMore(c: Context, f: nat, g: nat, b: Option<Block>, st: State)
    requires f <= g
    ensures MoreWent(ExecHook(c, f, b, st), ExecHook(c, g, b, st))
    decreases f, 2, 0
  {
    if b.Some? { BlockMore(c, f, g, b.value, st); }
  }

  lemma {:induction false} ScopeBlockMore(c: Context, f: nat, g: nat, scope: ScopeRef, args: seq<Expr>, body: Block, st: State)
    requires f <= g
    ensures MoreWent(ExecScopeBlock(c, f, scope, args, body, st), ExecScopeBlock(c, g, scope, args, body, st))
    decreases f, 4
  {
    var decl := ScopeOf(c, scope);
    var st0 := PushScope(st);
    if decl.None? {
      BlockMore(c, f, g, body, st0);
    } else if |decl.value.params| == |args| {
      CallsMore(c, f, g);
      ArgsCut(c, OutOfFuel, args, st0, CallAt(c, f), CallAt(c, g));
      var vs := EvalArgs(c, args, st0, CallAt(c, f));
      if vs.Args? {
        var o := BindParams(decl.value.params, vs.vs);
        InitCut(c, OutOfFuel, decl.value.members, o, vs.st, CallAt(c, f), CallAt(c, g));
        var fields := InitFields(c, decl.value.members, o, vs.st, CallAt(c, f));
        if fields.0.Done? { InScopeMore(c, f, g, decl.value, body, fields.1, fields.2); }
      }
    }
  }

  lemma {:induction false} InScopeMore(c: Context, f: nat, g: nat, d: ScopeDecl, body: Block, o: map<string, Value>, st: State)
    requires f <= g
    ensures MoreWent(ExecInScope(c, f, d, body, o, st), ExecInScope(c, g, d, body, o, st))
    decreases f, 3
  {
    HookMore(c, f, g, Hook(d.members, true), BindSelf(o, st));
    var enter := ExecHook(c, f, Hook(d.members, true), BindSelf(o, st));
    BodyMore(c, f, g, d, body, FieldPrims(d.members, ObjectAt(enter.st.w.heap, st.w.next)), enter.st);
  }

  lemma {:induction false} BodyMore(c: Context, f: nat, g: nat, d: ScopeDecl, body: Block, prims: seq<nat>, st: State)
    requires f <= g
    ensures MoreWent(ExecScopeBody(c, f, d, body, prims, st), ExecScopeBody(c, g, d, body, prims, st))
    decreases f, 2, 1
  {
    BlockMore(c, f, g, body, st);
    HookMore(c, f, g, Hook(d.members, false), ExecBlock(c, f, body, st).st);
  }

  /** A run that ends is the run of every fuel from some point on. */
  lemma EndedRunsStay(c: Context, f: nat, g: nat, s: Stmt, st: State)
    requires f <= g && Exec(c, f, s, st).flow != Halted(OutOfFuel)
    ensures Exec(c, g, s, st) == Exec(c, f, s, st)
  {
    ExecMore(c, f, g, s, st);
  }
}
