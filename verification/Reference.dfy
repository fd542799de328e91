/** A reference semantics of statements, with a separate outcome for `break`, `continue` and `return`.
    The evaluator (crates/tessera-interp/src/eval.rs) differs from it by design in two places: it drops
    what a clause of a `for` gives, and it goes on behind a `continue`. A guarded run stops there. */
module Reference {
  import opened Options
  import opened Ast
  import opened Values
  import opened Evaluator
  import opened LoopRule

  datatype RefFlow = Normal | Broke | Continued | Returned(v: Value) | Erred(e: RuntimeError) | Stuck(why: StopReason)

  datatype RefWent = RefWent(flow: RefFlow, st: State)

  function RefAfter(r: Result): RefFlow {
    match r
    case Done(_) => Normal
    case Failed(e) => Erred(e)
    case Stopped(why) => Stuck(why)
  }

  function RefResult(flow: RefFlow): Result {
    match flow
    case Returned(v) => Done(v)
    case Erred(e) => Failed(e)
    case Stuck(why) => Stopped(why)
    case _ => Done(VoidV)
  }

  /** No outcome but an error, or no more steps, leaves scopes behind. */
  predicate Leaves(flow: RefFlow) {
    flow.Erred? || flow.Stuck?
  }

  /** A `for` that one of its clauses leaves. */
  function Left(guarded: bool, clause: RefWent): RefWent {
    if guarded then RefWent(Stuck(Strayed), clause.st) else RefWent(clause.flow, PopScope(clause.st))
  }

  // ── The reference semantics ────────────────────────────────────────────────

  function RefExec(c: Context, guarded: bool, fuel: nat, s: Stmt, st: State): RefWent
    decreases fuel, 1, s, 3
  {
    match s
    case Let(name, _, init) =>
      var a := Eval(c, init, st, RefCallAt(c, guarded, fuel));
      RefWent(RefAfter(a.r), if a.r.Done? then DefineVar(c, name, a.r.v, a.st) else a.st)
    case Assign(target, value) =>
      var a := AssignTo(c, target, value, st, RefCallAt(c, guarded, fuel));
      RefWent(RefAfter(a.r), a.st)
    case If(i) => RefIf(c, guarded, fuel, i, st)
    case While(_, _) => RefWhile(c, guarded, fuel, s, st)
    case For(first, _, _, _) =>
      var init := if first.Some? then RefExec(c, guarded, fuel, first.value, PushScope(st)) else RefWent(Normal, PushScope(st));
      if Leaves(init.flow) then init
      else if init.flow != Normal then Left(guarded, init)
      else RefFor(c, guarded, fuel, s, init.st)
    case Return(None) => RefWent(Returned(VoidV), st)
    case Return(Some(e)) =>
      var a := Eval(c, e, st, RefCallAt(c, guarded, fuel));
      RefWent(if a.r.Done? then Returned(a.r.v) else RefAfter(a.r), a.st)
    case Break => RefWent(Broke, st)
    case Continue => RefWent(Continued, st)
    case ExclusiveBlock(body) =>
      var b := RefBlock(c, guarded, fuel, body, SetExclusive(c, true, st));
      if b.flow.Stuck? then b else RefWent(b.flow, SetExclusive(c, false, b.st))
    case ThreadSpawn(_, args, _, handle) =>
      var a := SpawnThread(c, args, handle, st, RefCallAt(c, guarded, fuel));
      RefWent(RefAfter(a.r), a.st)
    case ScopeBlock(scope, args, body) =>
      if fuel == 0 then RefWent(Stuck(OutOfFuel), st) else RefScopeBlock(c, guarded, fuel - 1, scope, args, body, st)
    case ExprStmt(e) =>
      var a := Eval(c, e, st, RefCallAt(c, guarded, fuel));
      RefWent(RefAfter(a.r), a.st)
  }

  function RefIf(c: Context, guarded: bool, fuel: nat, i: IfStmt, st: State): RefWent
    decreases fuel, 1, i, 1
  {
    var cond := Eval(c, i.condition, st, RefCallAt(c, guarded, fuel));
    if !cond.r.Done? then RefWent(RefAfter(cond.r), cond.st)
    else if Truthy(cond.r.v) then RefBlock(c, guarded, fuel, i.thenBlock, cond.st)
    else
      match i.elseBranch
      case NoElse => RefWent(Normal, cond.st)
      case Else(b) => RefBlock(c, guarded, fuel, b, cond.st)
      case ElseIf(next) => RefIf(c, guarded, fuel, next, cond.st)
  }

  /** A `break` ends the loop, a `continue` the turn, and a `return` the function. */
  function RefWhile(c: Context, guarded: bool, fuel: nat, s: Stmt, st: State): RefWent
    requires s.While?
    decreases fuel, 1, s, 1
  {
    var a := Eval(c, s.condition, st, RefCallAt(c, guarded, fuel));
    if !a.r.Done? then RefWent(RefAfter(a.r), a.st)
    else if !Truthy(a.r.v) then RefWent(Normal, a.st)
    else RefRound(c, guarded, fuel, s, a.st)
  }

  function RefRound(c: Context, guarded: bool, fuel: nat, s: Stmt, st: State): RefWent
    requires s.While?
    decreases fuel, 1, s, 0
  {
    var b := RefBlock(c, guarded, fuel, s.body, st);
    if b.flow.Broke? then RefWent(Normal, b.st)
    else if b.flow.Returned? || Leaves(b.flow) then b
    else if fuel == 0 then RefWent(Stuck(OutOfFuel), b.st)
    else RefWhile(c, guarded, fuel - 1, s, b.st)
  }

  function RefFor(c: Context, guarded: bool, fuel: nat, s: Stmt, st: State): RefWent
    requires s.For?
    decreases fuel, 1, s, 2
  {
    var a := ForTest(c, s, st, RefCallAt(c, guarded, fuel));
    if !a.r.Done? then RefWent(RefAfter(a.r), a.st)
    else if !Truthy(a.r.v) then RefWent(Normal, PopScope(a.st))
    else RefTurn(c, guarded, fuel, s, a.st)
  }

  function RefTurn(c: Context, guarded: bool, fuel: nat, s: Stmt, st: State): RefWent
    requires s.For?
    decreases fuel, 1, s, 1
  {
    var b := RefBlock(c, guarded, fuel, s.body, st);
    if Leaves(b.flow) then b
    else if b.flow.Broke? then RefWent(Normal, PopScope(b.st))
    else if b.flow.Returned? then RefWent(b.flow, PopScope(b.st))
    else RefUpdate(c, guarded, fuel, s, b.st)
  }

  function RefUpdate(c: Context, guarded: bool, fuel: nat, s: Stmt, st: State): RefWent
    requires s.For?
    decreases fuel, 1, s, 0
  {
    var u := if s.update.Some? then RefExec(c, guarded, fuel, s.update.value, st) else RefWent(Normal, st);
    if Leaves(u.flow) then u
    else if u.flow != Normal then Left(guarded, u)
    else if fuel == 0 then RefWent(Stuck(OutOfFuel), u.st)
    else RefFor(c, guarded, fuel - 1, s, u.st)
  }

  function RefBlock(c: Context, guarded: bool, fuel: nat, b: Block, st: State): RefWent
    decreases fuel, 1, b, 1
  {
    var a := RefStmts(c, guarded, fuel, b.stmts, PushScope(st));
    if Leaves(a.flow) then a else RefWent(a.flow, PopScope(a.st))
  }

  function RefStmts(c: Context, guarded: bool, fuel: nat, ss: seq<Stmt>, st: State): RefWent
    decreases fuel, 1, ss, 1
  {
    if ss == [] then RefWent(Normal, st)
    else
      var a := RefExec(c, guarded, fuel, ss[0], st);
      if a.flow.Normal? then RefStmts(c, guarded, fuel, ss[1..], a.st)
      else if guarded && a.flow.Continued? && |ss| > 1 then RefWent(Stuck(Strayed), a.st)
      else a
  }

  function RefHook(c: Context, guarded: bool, fuel: nat, b: Option<Block>, st: State): RefWent
    decreases fuel, 2, 0
  {
    if b.None? then RefWent(Normal, st) else RefBlock(c, guarded, fuel, b.value, st)
  }

  function RefScopeBlock(c: Context, guarded: bool, fuel: nat, scope: ScopeRef, args: seq<Expr>, body: Block, st: State): RefWent
    decreases fuel, 4
  {
    var decl := ScopeOf(c, scope);
    var st0 := PushScope(st);
    if decl.None? then
      var b := RefBlock(c, guarded, fuel, body, st0);
      if b.flow.Stuck? then b else RefWent(b.flow, PopScope(b.st))
    else if |decl.value.params| != |args| then RefWent(RefAfter(Fail(c, "Panic")), st0)
    else
      var vs := EvalArgs(c, args, st0, RefCallAt(c, guarded, fuel));
      if vs.NoArgs? then RefWent(RefAfter(vs.r), vs.st) else RefWithArgs(c, guarded, fuel, decl.value, vs.vs, body, vs.st)
  }

  function RefWithArgs(c: Context, guarded: bool, fuel: nat, d: ScopeDecl, vs: seq<Value>, body: Block, st: State): RefWent
    decreases fuel, 3, 1
  {
    var fields := InitFields(c, d.members, BindParams(d.params, vs), st, RefCallAt(c, guarded, fuel));
    if !fields.0.Done? then RefWent(RefAfter(fields.0), fields.2)
    else RefInScope(c, guarded, fuel, d, body, fields.1, fields.2)
  }

  function RefInScope(c: Context, guarded: bool, fuel: nat, d: ScopeDecl, body: Block, o: map<string, Value>, st: State): RefWent
    decreases fuel, 3, 0
  {
    var self := st.w.next;
    var enter := RefHook(c, guarded, fuel, Hook(d.members, true), BindSelf(o, st));
    if enter.flow.Stuck? then enter
    else
      var prims := FieldPrims(d.members, ObjectAt(enter.st.w.heap, self));
      if enter.flow.Erred? then RefWent(enter.flow, PopScope(BreakAll(prims, SCOPE_CRASHED, enter.st)))
      else RefScopeBody(c, guarded, fuel, d, body, prims, enter.st)
  }

  function RefScopeBody(c: Context, guarded: bool, fuel: nat, d: ScopeDecl, body: Block, prims: seq<nat>, st: State): RefWent
    decreases fuel, 2, 2
  {
    var b := RefBlock(c, guarded, fuel, body, st);
    if b.flow.Stuck? then b else RefExit(c, guarded, fuel, d, prims, b)
  }

  function RefExit(c: Context, guarded: bool, fuel: nat, d: ScopeDecl, prims: seq<nat>, b: RefWent): RefWent
    decreases fuel, 2, 1
  {
    var exit := RefHook(c, guarded, fuel, Hook(d.members, false), b.st);
    if exit.flow.Stuck? then exit
    else
      RefWent(if !b.flow.Erred? && exit.flow.Erred? then exit.flow else b.flow,
              PopScope(BreakAll(prims, if b.flow.Erred? then SCOPE_CRASHED else SCOPE_GONE, exit.st)))
  }

  function RefCallAt(c: Context, guarded: bool, fuel: nat): Call
    decreases fuel, 0
  {
    (f, vs, st) => if fuel == 0 then Ran(Stopped(OutOfFuel), st) else RefCallFunc(c, guarded, fuel - 1, f, vs, st)
  }

  function RefCallFunc(c: Context, guarded: bool, fuel: nat, f: FuncDef, vs: seq<Value>, st: State): Ran
    decreases fuel, 3
  {
    var inner := RefCallInner(c, guarded, fuel, f, vs, PushFrame(f, st));
    if inner.r.Stopped? then inner else Ran(inner.r, LeaveFrame(inner.r, inner.st))
  }

  function RefCallInner(c: Context, guarded: bool, fuel: nat, f: FuncDef, vs: seq<Value>, st: State): Ran
    decreases fuel, 2
  {
    if !Accepts(f, vs) then Ran(Fail(c, "Panic"), st)
    else
      var b := RefBlock(c, guarded, fuel, f.body, EnterFunc(f, vs, st));
      Ran(RefResult(b.flow), if b.flow.Stuck? then b.st else PopScope(b.st))
  }

  // ── Statements without a `return` ──────────────────────────────────────────

  lemma {:induction false} NeverReturns(c: Context, guarded: bool, fuel: nat, s: Stmt, st: State)
    requires ReturnFree(s)
    ensures !RefExec(c, guarded, fuel, s, st).flow.Returned?
    decreases fuel, 1, s, 1
  {
    match s {
      case If(i) => IfNeverReturns(c, guarded, fuel, i, st);
      case While(_, _) => LoopNeverReturns(c, guarded, fuel, s, st);
      case For(first, _, _, _) =>
        if first.Some? { NeverReturns(c, guarded, fuel, first.value, PushScope(st)); }
        var init := if first.Some? then RefExec(c, guarded, fuel, first.value, PushScope(st)) else RefWent(Normal, PushScope(st));
        LoopNeverReturns(c, guarded, fuel, s, init.st);
      case ExclusiveBlock(body) => BlockNeverReturns(c, guarded, fuel, body, SetExclusive(c, true, st));
      case ScopeBlock(scope, args, body) =>
        if fuel > 0 { ScopeBlockNeverReturns(c, guarded, fuel - 1, scope, args, body, st); }
      case _ =>
    }
  }

  lemma {:induction false} IfNeverReturns(c: Context, guarded: bool, fuel: nat, i: IfStmt, st: State)
    requires ReturnFreeIf(i)
    ensures !RefIf(c, guarded, fuel, i, st).flow.Returned?
    decreases fuel, 1, i, 1
  {
    var cond := Eval(c, i.condition, st, RefCallAt(c, guarded, fuel));
    BlockNeverReturns(c, guarded, fuel, i.thenBlock, cond.st);
    if i.elseBranch.Else? {
      BlockNeverReturns(c, guarded, fuel, i.elseBranch.block, cond.st);
    } else if i.elseBranch.ElseIf? {
      IfNeverReturns(c, guarded, fuel, i.elseBranch.next, cond.st);
    }
  }

  lemma {:induction false} LoopNeverReturns(c: Context, guarded: bool, fuel: nat, s: Stmt, st: State)
    requires (s.While? || s.For?) && ReturnFree(s)
    ensures s.While? ==> !RefWhile(c, guarded, fuel, s, st).flow.Returned?
    ensures s.For? ==> !RefFor(c, guarded, fuel, s, st).flow.Returned?
    decreases fuel, 1, s, 0
  {
    if s.While? {
      var a := Eval(c, s.condition, st, RefCallAt(c, guarded, fuel));
      BlockNeverReturns(c, guarded, fuel, s.body, a.st);
      if fuel > 0 { LoopNeverReturns(c, guarded, fuel - 1, s, RefBlock(c, guarded, fuel, s.body, a.st).st); }
      assert !RefRound(c, guarded, fuel, s, a.st).flow.Returned?;
    } else {
      var a := ForTest(c, s, st, RefCallAt(c, guarded, fuel));
      BlockNeverReturns(c, guarded, fuel, s.body, a.st);
      var b := RefBlock(c, guarded, fuel, s.body, a.st);
      if s.update.Some? { NeverReturns(c, guarded, fuel, s.update.value, b.st); }
      var u := if s.update.Some? then RefExec(c, guarded, fuel, s.update.value, b.st) else RefWent(Normal, b.st);
      if fuel > 0 { LoopNeverReturns(c, guarded, fuel - 1, s, u.st); }
      assert !RefUpdate(c, guarded, fuel, s, b.st).flow.Returned?;
      assert !RefTurn(c, guarded, fuel, s, a.st).flow.Returned?;
    }
  }

  lemma {:induction false} BlockNeverReturns(c: Context, guarded: bool, fuel: nat, b: Block, st: State)
    requires ReturnFreeStmts(b.stmts)
    ensures !RefBlock(c, guarded, fuel, b, st).flow.Returned?
    decreases fuel, 1, b, 1
  {
    StmtsNeverReturn(c, guarded, fuel, b.stmts, PushScope(st));
  }

  lemma {:induction false} StmtsNeverReturn(c: Context, guarded: bool, fuel: nat, ss: seq<Stmt>, st: State)
    requires ReturnFreeStmts(ss)
    ensures !RefStmts(c, guarded, fuel, ss, st).flow.Returned?
    decreases fuel, 1, ss, 1
  {
    if ss != [] {
      NeverReturns(c, guarded, fuel, ss[0], st);
      StmtsNeverReturn(c, guarded, fuel, ss[1..], RefExec(c, guarded, fuel, ss[0], st).st);
    }
  }

  /** What a hook returns is dropped. */
  lemma {:induction false} ScopeBlockNeverReturns(c: Context, guarded: bool, fuel: nat, scope: ScopeRef, args: seq<Expr>, body: Block, st: State)
    requires ReturnFreeStmts(body.stmts)
    ensures !RefScopeBlock(c, guarded, fuel, scope, args, body, st).flow.Returned?
    decreases fuel, 4
  {
    var decl := ScopeOf(c, scope);
    var st0 := PushScope(st);
    if decl.None? {
      BlockNeverReturns(c, guarded, fuel, body, st0);
    } else if |decl.value.params| == |args| {
      var vs := EvalArgs(c, args, st0, RefCallAt(c, guarded, fuel));
      if vs.Args? {
        var fields := InitFields(c, decl.value.members, BindParams(decl.value.params, vs.vs), vs.st, RefCallAt(c, guarded, fuel));
        if fields.0.Done? { InScopeNeverReturns(c, guarded, fuel, decl.value, body, fields.1, fields.2); }
        assert !RefWithArgs(c, guarded, fuel, decl.value, vs.vs, body, vs.st).flow.Returned?;
      }
    }
  }

  lemma {:induction false} InScopeNeverReturns(c: Context, guarded: bool, fuel: nat, d: ScopeDecl, body: Block, o: map<string, Value>, st: State)
    requires ReturnFreeStmts(body.stmts)
    ensures !RefInScope(c, guarded, fuel, d, body, o, st).flow.Returned?
    decreases fuel, 3
  {
    var enter := RefHook(c, guarded, fuel, Hook(d.members, true), BindSelf(o, st));
    var prims := FieldPrims(d.members, ObjectAt(enter.st.w.heap, st.w.next));
    BlockNeverReturns(c, guarded, fuel, body, enter.st);
    assert !RefScopeBody(c, guarded, fuel, d, body, prims, enter.st).flow.Returned?;
  }
}
