/** A guarded reference run is the plain reference run, unless it strays. */
module Guard {
  import opened Options
  import opened Ast
  import opened Values
  import opened Evaluator
  import opened Cutoff
  import opened Reference

  predicate CutWent(a: RefWent, b: RefWent) {
    a.flow == Stuck(Strayed) || a == b
  }

  lemma {:induction false} CallsUnguarded(c: Context, fuel: nat)
    ensures CutCalls(Strayed, RefCallAt(c, true, fuel), RefCallAt(c, false, fuel))
    decreases fuel, 0
  {
    forall d: FuncDef, vs: seq<Value>, st: State ensures Cut(Strayed, RefCallAt(c, true, fuel)(d, vs, st), RefCallAt(c, false, fuel)(d, vs, st)) {
      if fuel > 0 { CallFuncUnguarded(c, fuel - 1, d, vs, st); }
    }
  }

  lemma {:induction false} CallFuncUnguarded(c: Context, fuel: nat, d: FuncDef, vs: seq<Value>, st: State)
    ensures Cut(Strayed, RefCallFunc(c, true, fuel, d, vs, st), RefCallFunc(c, false, fuel, d, vs, st))
    decreases fuel, 3
  {
    BlockUnguarded(c, fuel, d.body, EnterFunc(d, vs, PushFrame(d, st)));
  }

  lemma {:induction false} ExecUnguarded(c: Context, fuel: nat, s: Stmt, st: State)
    ensures CutWent(RefExec(c, true, fuel, s, st), RefExec(c, false, fuel, s, st))
    decreases fuel, 1, s, 1
  {
    match s {
      case If(i) => IfUnguarded(c, fuel, i, st);
      case While(_, _) => WhileUnguarded(c, fuel, s, st);
      case For(first, _, _, _) =>
        if first.Some? { ExecUnguarded(c, fuel, first.value, PushScope(st)); }
        var init := if first.Some? then RefExec(c, true, fuel, first.value, PushScope(st)) else RefWent(Normal, PushScope(st));
        ForUnguarded(c, fuel, s, init.st);
      case ExclusiveBlock(body) => BlockUnguarded(c, fuel, body, SetExclusive(c, true, st));
      case ScopeBlock(scope, args, body) => if fuel > 0 { ScopeBlockUnguarded(c, fuel - 1, scope, args, body, st); }
      case Break =>
      case Continue =>
      case Let(_, _, init) => CallsUnguarded(c, fuel); EvalCut(c, Strayed, init, st, RefCallAt(c, true, fuel), RefCallAt(c, false, fuel));
      case Assign(t, v) => CallsUnguarded(c, fuel); AssignCut(c, Strayed, t, v, st, RefCallAt(c, true, fuel), RefCallAt(c, false, fuel));
      case Return(e) =>
        CallsUnguarded(c, fuel);
        if e.Some? { EvalCut(c, Strayed, e.value, st, RefCallAt(c, true, fuel), RefCallAt(c, false, fuel)); }
      case ThreadSpawn(_, args, _, _) => CallsUnguarded(c, fuel); ArgsCut(c, Strayed, args, st, RefCallAt(c, true, fuel), RefCallAt(c, false, fuel));
      case ExprStmt(e) => CallsUnguarded(c, fuel); EvalCut(c, Strayed, e, st, RefCallAt(c, true, fuel), RefCallAt(c, false, fuel));
    }
  }

  lemma {:induction false} IfUnguarded(c: Context, fuel: nat, i: IfStmt, st: State)
    ensures CutWent(RefIf(c, true, fuel, i, st), RefIf(c, false, fuel, i, st))
    decreases fuel, 1, i, 1
  {
    CallsUnguarded(c, fuel);
    EvalCut(c, Strayed, i.condition, st, RefCallAt(c, true, fuel), RefCallAt(c, false, fuel));
    var cond := Eval(c, i.condition, st, RefCallAt(c, true, fuel));
    BlockUnguarded(c, fuel, i.thenBlock, cond.st);
    if i.elseBranch.Else? {
      BlockUnguarded(c, fuel, i.elseBranch.block, cond.st);
    } else if i.elseBranch.ElseIf? {
      IfUnguarded(c, fuel, i.elseBranch.next, cond.st);
    }
  }

  lemma {:induction false} WhileUnguarded(c: Context, fuel: nat, s: Stmt, st: State)
    requires s.While?
    ensures CutWent(RefWhile(c, true, fuel, s, st), RefWhile(c, false, fuel, s, st))
    decreases fuel, 1, s, 0
  {
    CallsUnguarded(c, fuel);
    EvalCut(c, Strayed, s.condition, st, RefCallAt(c, true, fuel), RefCallAt(c, false, fuel));
    var a := Eval(c, s.condition, st, RefCallAt(c, true, fuel));
    BlockUnguarded(c, fuel, s.body, a.st);
    if fuel > 0 { WhileUnguarded(c, fuel - 1, s, RefBlock(c, true, fuel, s.body, a.st).st); }
    assert CutWent(RefRound(c, true, fuel, s, a.st), RefRound(c, false, fuel, s, a.st));
  }

  lemma {:induction false} ForUnguarded(c: Context, fuel: nat, s: Stmt, st: State)
    requires s.For?
    ensures CutWent(RefFor(c, true, fuel, s, st), RefFor(c, false, fuel, s, st))
    decreases fuel, 1, s, 0
  {
    CallsUnguarded(c, fuel);
    if s.test.Some? { EvalCut(c, Strayed, s.test.value, st, RefCallAt(c, true, fuel), RefCallAt(c, false, fuel)); }
    var a := ForTest(c, s, st, RefCallAt(c, true, fuel));
    BlockUnguarded(c, fuel, s.body, a.st);
    var b := RefBlock(c, true, fuel, s.body, a.st);
    if s.update.Some? { ExecUnguarded(c, fuel, s.update.value, b.st); }
    var u := if s.update.Some? then RefExec(c, true, fuel, s.update.value, b.st) else RefWent(Normal, b.st);
    if fuel > 0 { ForUnguarded(c, fuel - 1, s, u.st); }
    assert CutWent(RefUpdate(c, true, fuel, s, b.st), RefUpdate(c, false, fuel, s, b.st));
    assert CutWent(RefTurn(c, true, fuel, s, a.st), RefTurn(c, false, fuel, s, a.st));
  }

  lemma {:induction false} BlockUnguarded(c: Context, fuel: nat, b: Block, st: State)
    ensures CutWent(RefBlock(c, true, fuel, b, st), RefBlock(c, false, fuel, b, st))
    decreases fuel, 1, b, 1
  {
    StmtsUnguarded(c, fuel, b.stmts, PushScope(st));
  }

  lemma {:induction false} StmtsUnguarded(c: Context, fuel: nat, ss: seq<Stmt>, st: State)
    ensures CutWent(RefStmts(c, true, fuel, ss, st), RefStmts(c, false, fuel, ss, st))
    decreases fuel, 1, ss, 1
  {
    if ss != [] {
      ExecUnguarded(c, fuel, ss[0], st);
      StmtsUnguarded(c, fuel, ss[1..], RefExec(c, true, fuel, ss[0], st).st);
    }
  }

  lemma {:induction false} HookUnguarded(c: Context, fuel: nat, b: Option<Block>, st: State)
    ensures CutWent(RefHook(c, true, fuel, b, st), RefHook(c, false, fuel, b, st))
    decreases fuel, 2, 0
  {
    if b.Some? { BlockUnguarded(c, fuel, b.value, st); }
  }

  lemma {:induction false} ScopeBlockUnguarded(c: Context, fuel: nat, scope: ScopeRef, args: seq<Expr>, body: Block, st: State)
    ensures CutWent(RefScopeBlock(c, true, fuel, scope, args, body, st), RefScopeBlock(c, false, fuel, scope, args, body, st))
    decreases fuel, 4
  {
    var decl := ScopeOf(c, scope);
    var st0 := PushScope(st);
    if decl.None? {
      BlockUnguarded(c, fuel, body, st0);
    } else if |decl.value.params| == |args| {
      CallsUnguarded(c, fuel);
      ArgsCut(c, Strayed, args, st0, RefCallAt(c, true, fuel), RefCallAt(c, false, fuel));
      var vs := EvalArgs(c, args, st0, RefCallAt(c, true, fuel));
      if vs.Args? {
        var o := BindParams(decl.value.params, vs.vs);
        InitCut(c, Strayed, decl.value.members, o, vs.st, RefCallAt(c, true, fuel), RefCallAt(c, false, fuel));
        var fields := InitFields(c, decl.value.members, o, vs.st, RefCallAt(c, true, fuel));
        if fields.0.Done? { InScopeUnguarded(c, fuel, decl.value, body, fields.1, fields.2); }
      }
    }
  }

  lemma {:induction false} InScopeUnguarded(c: Context, fuel: nat, d: ScopeDecl, body: Block, o: map<string, Value>, st: State)
    ensures CutWent(RefInScope(c, true, fuel, d, body, o, st), RefInScope(c, false, fuel, d, body, o, st))
    decreases fuel, 3
  {
    HookUnguarded(c, fuel, Hook(d.members, true), BindSelf(o, st));
    var enter := RefHook(c, true, fuel, Hook(d.members, true), BindSelf(o, st));
    BodyUnguarded(c, fuel, d, body, FieldPrims(d.members, ObjectAt(enter.st.w.heap, st.w.next)), enter.st);
  }

  lemma {:induction false} BodyUnguarded(c: Context, fuel: nat, d: ScopeDecl, body: Block, prims: seq<nat>, st: State)
    ensures CutWent(RefScopeBody(c, true, fuel, d, body, prims, st), RefScopeBody(c, false, fuel, d, body, prims, st))
    decreases fuel, 2, 1
  {
    BlockUnguarded(c, fuel, body, st);
    HookUnguarded(c, fuel, Hook(d.members, false), RefBlock(c, true, fuel, body, st).st);
  }

}
