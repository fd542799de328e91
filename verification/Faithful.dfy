/** The evaluator's encoding of `break` as the value `Never` (crates/tessera-interp/src/eval.rs) against
    the reference semantics, for every program that obeys the loop rule: no expression ever evaluates
    to `Never`, and the evaluator goes as the guarded reference run unless that run strays. */
module Faithful {
  import opened Options
  import opened Ast
  import opened Values
  import opened Evaluator
  import opened LoopRule
  import opened PlainValues
  import opened Reference

  /** How the evaluator writes an outcome; a `continue` that ends its turn is a normal end. */
  function Encode(flow: RefFlow): Flow {
    match flow
    case Normal => Fell
    case Continued => Fell
    case Broke => Gave(NeverV)
    case Returned(v) => Gave(v)
    case Erred(e) => Threw(e)
    case Stuck(why) => Halted(why)
  }

  /** The evaluator went as the reference does. */
  predicate Agrees(x: Went, r: RefWent, loop: bool) {
    && x == Went(Encode(r.flow), r.st)
    && (r.flow.Broke? || r.flow.Continued? ==> loop)
    && (r.flow.Returned? ==> Plain(r.flow.v))
  }

  /** The evaluator's own promise: values stay plain, and only a `break` of a loop around gives `Never`. */
  predicate Sound(x: Went, loop: bool) {
    && PlainState(x.st)
    && x.flow != Halted(Strayed)
    && (x.flow.Gave? ==> Plain(x.flow.v) || (x.flow.v == NeverV && loop))
  }

  /** Either the guarded run strayed, which tidy statements never do, or the evaluator went its way. */
  predicate Tracks(tidy: bool, x: Went, r: RefWent, loop: bool, last: bool) {
    || (!tidy && r.flow == Stuck(Strayed))
    || (Agrees(x, r, loop) && (tidy && r.flow.Continued? ==> last))
  }

  // ── Calls ──────────────────────────────────────────────────────────────────

  lemma {:induction false} CallsAgree(c: Context, tidy: bool, fuel: nat)
    requires LawfulContext(c) && (tidy ==> TidyContext(c))
    ensures SameCalls(c, tidy, CallAt(c, fuel), RefCallAt(c, true, fuel))
    decreases fuel, 0, 0
  {
    forall f: FuncDef, vs: seq<Value>, st: State | f in c.funcs.Values && PlainSeq(vs) && PlainState(st)
      ensures PlainRan(CallAt(c, fuel)(f, vs, st))
      ensures Follows(tidy, CallAt(c, fuel)(f, vs, st), RefCallAt(c, true, fuel)(f, vs, st))
    {
      if fuel > 0 {
        CallFuncAgrees(c, tidy, fuel - 1, f, vs, st);
      }
    }
  }

  lemma {:induction false} CallFuncAgrees(c: Context, tidy: bool, fuel: nat, f: FuncDef, vs: seq<Value>, st: State)
    requires LawfulContext(c) && LawfulFunc(f) && PlainSeq(vs) && PlainState(st)
    requires tidy ==> TidyContext(c) && TidyFunc(f)
    ensures PlainRan(CallFunc(c, fuel, f, vs, st))
    ensures Follows(tidy, CallFunc(c, fuel, f, vs, st), RefCallFunc(c, true, fuel, f, vs, st))
    decreases fuel, 3
  {
    var st0 := PushFrame(f, st);
    if Accepts(f, vs) {
      DefineAllPlain(Push(st0.scopes), f.params, vs);
      BlockAgrees(c, tidy, fuel, f.body, EnterFunc(f, vs, st0), false, false);
    }
  }

  lemma {:induction false} ValueAgrees(c: Context, tidy: bool, fuel: nat, e: Expr, st: State)
    requires LawfulContext(c) && PlainState(st) && (tidy ==> TidyContext(c))
    ensures PlainRan(Eval(c, e, st, CallAt(c, fuel)))
    ensures Follows(tidy, Eval(c, e, st, CallAt(c, fuel)), Eval(c, e, st, RefCallAt(c, true, fuel)))
    decreases fuel, 0, 1
  {
    CallsAgree(c, tidy, fuel);
    EvalSame(c, tidy, e, st, CallAt(c, fuel), RefCallAt(c, true, fuel));
  }

  // ── Statements ─────────────────────────────────────────────────────────────

  lemma {:induction false} ExecAgrees(c: Context, tidy: bool, fuel: nat, s: Stmt, st: State, loop: bool, last: bool)
    requires LawfulContext(c) && Lawful(s, loop) && PlainState(st)
    requires tidy ==> TidyContext(c) && Tidy(s, last)
    ensures Sound(Exec(c, fuel, s, st), loop)
    ensures Tracks(tidy, Exec(c, fuel, s, st), RefExec(c, true, fuel, s, st), loop, last)
    decreases fuel, 1, s, 4
  {
    match s {
      case If(i) => IfAgrees(c, tidy, fuel, i, st, loop, last);
      case While(_, _) => WhileAgrees(c, tidy, fuel, s, st);
      case For(_, _, _, _) => ForAgrees(c, tidy, fuel, s, st, loop);
      case ExclusiveBlock(_) => NestedAgrees(c, tidy, fuel, s, st, loop, last);
      case ScopeBlock(_, _, _) => NestedAgrees(c, tidy, fuel, s, st, loop, last);
      case Break =>
      case Continue =>
      case _ => SimpleAgrees(c, tidy, fuel, s, st);
    }
  }

  lemma {:induction false} NestedAgrees(c: Context, tidy: bool, fuel: nat, s: Stmt, st: State, loop: bool, last: bool)
    requires s.ExclusiveBlock? || s.ScopeBlock?
    requires LawfulContext(c) && Lawful(s, loop) && PlainState(st)
    requires tidy ==> TidyContext(c) && Tidy(s, last)
    ensures Sound(Exec(c, fuel, s, st), loop)
    ensures Tracks(tidy, Exec(c, fuel, s, st), RefExec(c, true, fuel, s, st), loop, last)
    decreases fuel, 1, s, 0
  {
    if s.ExclusiveBlock? {
      BlockAgrees(c, tidy, fuel, s.body, SetExclusive(c, true, st), loop, last);
    } else if fuel > 0 {
      ScopeBlockAgrees(c, tidy, fuel - 1, s.scope, s.args, s.body, st, loop, last);
    }
  }

  /** Statements without a body. */
  lemma {:induction false} SimpleAgrees(c: Context, tidy: bool, fuel: nat, s: Stmt, st: State)
    requires s.Let? || s.Assign? || s.Return? || s.ThreadSpawn? || s.ExprStmt?
    requires LawfulContext(c) && PlainState(st) && (tidy ==> TidyContext(c))
    ensures Sound(Exec(c, fuel, s, st), false)
    ensures Tracks(tidy, Exec(c, fuel, s, st), RefExec(c, true, fuel, s, st), false, false)
    decreases fuel, 0, 2
  {
    match s {
      case Let(name, _, init) =>
        ValueAgrees(c, tidy, fuel, init, st);
        var a := Eval(c, init, st, CallAt(c, fuel));
        if a.r.Done? { LetPlain(c, name, a.r.v, a.st); }
      case Return(e) => if e.Some? { ValueAgrees(c, tidy, fuel, e.value, st); }
      case ExprStmt(e) => ValueAgrees(c, tidy, fuel, e, st);
      case _ => EffectAgrees(c, tidy, fuel, s, st);
    }
  }

  lemma {:induction false} EffectAgrees(c: Context, tidy: bool, fuel: nat, s: Stmt, st: State)
    requires s.Assign? || s.ThreadSpawn?
    requires LawfulContext(c) && PlainState(st) && (tidy ==> TidyContext(c))
    ensures Sound(Exec(c, fuel, s, st), false)
    ensures Tracks(tidy, Exec(c, fuel, s, st), RefExec(c, true, fuel, s, st), false, false)
    decreases fuel, 0, 1
  {
    CallsAgree(c, tidy, fuel);
    if s.Assign? {
      AssignSame(c, tidy, s.target, s.value, st, CallAt(c, fuel), RefCallAt(c, true, fuel));
    } else {
      SpawnSame(c, tidy, s.args, s.handle, st, CallAt(c, fuel), RefCallAt(c, true, fuel));
    }
  }

  lemma {:induction false} IfAgrees(c: Context, tidy: bool, fuel: nat, i: IfStmt, st: State, loop: bool, last: bool)
    requires LawfulContext(c) && LawfulIf(i, loop) && PlainState(st)
    requires tidy ==> TidyContext(c) && TidyIf(i, last)
    ensures Sound(ExecIf(c, fuel, i, st), loop)
    ensures Tracks(tidy, ExecIf(c, fuel, i, st), RefIf(c, true, fuel, i, st), loop, last)
    decreases fuel, 1, i, 1
  {
    ValueAgrees(c, tidy, fuel, i.condition, st);
    var cond := Eval(c, i.condition, st, CallAt(c, fuel));
    if cond.r.Done? {
      if Truthy(cond.r.v) {
        BlockAgrees(c, tidy, fuel, i.thenBlock, cond.st, loop, last);
      } else if i.elseBranch.Else? {
        BlockAgrees(c, tidy, fuel, i.elseBranch.block, cond.st, loop, last);
      } else if i.elseBranch.ElseIf? {
        IfAgrees(c, tidy, fuel, i.elseBranch.next, cond.st, loop, last);
      }
    }
  }

  lemma {:induction false} WhileAgrees(c: Context, tidy: bool, fuel: nat, s: Stmt, st: State)
    requires LawfulContext(c) && s.While? && LawfulBlock(s.body, true) && PlainState(st)
    requires tidy ==> TidyContext(c) && TidyStmts(s.body.stmts, true)
    ensures Sound(ExecWhile(c, fuel, s, st), false)
    ensures Tracks(tidy, ExecWhile(c, fuel, s, st), RefWhile(c, true, fuel, s, st), false, false)
    decreases fuel, 1, s, 1
  {
    ValueAgrees(c, tidy, fuel, s.condition, st);
    var a := Eval(c, s.condition, st, CallAt(c, fuel));
    if a.r.Done? && Truthy(a.r.v) { RoundAgrees(c, tidy, fuel, s, a.st); }
  }

  lemma {:induction false} RoundAgrees(c: Context, tidy: bool, fuel: nat, s: Stmt, st: State)
    requires LawfulContext(c) && s.While? && LawfulBlock(s.body, true) && PlainState(st)
    requires tidy ==> TidyContext(c) && TidyStmts(s.body.stmts, true)
    ensures Sound(ExecRound(c, fuel, s, st), false)
    ensures Tracks(tidy, ExecRound(c, fuel, s, st), RefRound(c, true, fuel, s, st), false, false)
    decreases fuel, 1, s, 0
  {
    BlockAgrees(c, tidy, fuel, s.body, st, true, true);
    var b := ExecBlock(c, fuel, s.body, st);
    if b.flow.Fell? && fuel > 0 { WhileAgrees(c, tidy, fuel - 1, s, b.st); }
  }

  /** What the turns of a `for` ask of it: nothing about its first clause. */
  predicate LawfulTurns(s: Stmt, loop: bool)
    requires s.For?
  {
    (s.update.Some? ==> Lawful(s.update.value, loop)) && LawfulBlock(s.body, true)
  }

  predicate TidyTurns(s: Stmt)
    requires s.For?
  {
    (s.update.Some? ==> Contained(s.update.value)) && TidyStmts(s.body.stmts, true)
  }

  lemma {:induction false} ForAgrees(c: Context, tidy: bool, fuel: nat, s: Stmt, st: State, loop: bool)
    requires LawfulContext(c) && s.For? && Lawful(s, loop) && PlainState(st)
    requires tidy ==> TidyContext(c) && Tidy(s, false)
    ensures Sound(Exec(c, fuel, s, st), false)
    ensures Tracks(tidy, Exec(c, fuel, s, st), RefExec(c, true, fuel, s, st), false, false)
    decreases fuel, 1, s, 3
  {
    var st0 := PushScope(st);
    if s.first.Some? { ClauseAgrees(c, tidy, fuel, s.first.value, st0, loop); }
    var init := if s.first.Some? then Exec(c, fuel, s.first.value, st0) else Went(Fell, st0);
    if init.flow.Fell? || init.flow.Gave? { TurnsAgree(c, tidy, fuel, s, init.st, loop); }
  }

  lemma {:induction false} TurnsAgree(c: Context, tidy: bool, fuel: nat, s: Stmt, st: State, loop: bool)
    requires LawfulContext(c) && s.For? && LawfulTurns(s, loop) && PlainState(st)
    requires tidy ==> TidyContext(c) && TidyTurns(s)
    ensures Sound(ExecFor(c, fuel, s, st), false)
    ensures Tracks(tidy, ExecFor(c, fuel, s, st), RefFor(c, true, fuel, s, st), false, false)
    decreases fuel, 1, s, 2
  {
    if s.test.Some? { ValueAgrees(c, tidy, fuel, s.test.value, st); }
    var a := ForTest(c, s, st, CallAt(c, fuel));
    if a.r.Done? && Truthy(a.r.v) { TurnAgrees(c, tidy, fuel, s, a.st, loop); }
  }

  lemma {:induction false} TurnAgrees(c: Context, tidy: bool, fuel: nat, s: Stmt, st: State, loop: bool)
    requires LawfulContext(c) && s.For? && LawfulTurns(s, loop) && PlainState(st)
    requires tidy ==> TidyContext(c) && TidyTurns(s)
    ensures Sound(ExecTurn(c, fuel, s, st), false)
    ensures Tracks(tidy, ExecTurn(c, fuel, s, st), RefTurn(c, true, fuel, s, st), false, false)
    decreases fuel, 1, s, 1
  {
    BlockAgrees(c, tidy, fuel, s.body, st, true, true);
    var b := ExecBlock(c, fuel, s.body, st);
    if b.flow.Fell? { UpdateAgrees(c, tidy, fuel, s, b.st, loop); }
  }

  lemma {:induction false} UpdateAgrees(c: Context, tidy: bool, fuel: nat, s: Stmt, st: State, loop: bool)
    requires LawfulContext(c) && s.For? && LawfulTurns(s, loop) && PlainState(st)
    requires tidy ==> TidyContext(c) && TidyTurns(s)
    ensures Sound(ExecUpdate(c, fuel, s, st), false)
    ensures Tracks(tidy, ExecUpdate(c, fuel, s, st), RefUpdate(c, true, fuel, s, st), false, false)
    decreases fuel, 1, s, 0
  {
    if s.update.Some? { ClauseAgrees(c, tidy, fuel, s.update.value, st, loop); }
    var u := if s.update.Some? then Exec(c, fuel, s.update.value, st) else Went(Fell, st);
    if (u.flow.Fell? || u.flow.Gave?) && fuel > 0 { TurnsAgree(c, tidy, fuel - 1, s, u.st, loop); }
  }

  /** A clause of a `for`: a contained one ends normally or not at all. */
  lemma {:induction false} ClauseAgrees(c: Context, tidy: bool, fuel: nat, s: Stmt, st: State, loop: bool)
    requires LawfulContext(c) && Lawful(s, loop) && PlainState(st)
    requires tidy ==> TidyContext(c) && Contained(s)
    ensures Sound(Exec(c, fuel, s, st), loop)
    ensures Tracks(tidy, Exec(c, fuel, s, st), RefExec(c, true, fuel, s, st), loop, false)
    ensures tidy ==> var r := RefExec(c, true, fuel, s, st); r.flow.Normal? || Leaves(r.flow)
    decreases fuel, 1, s, 5
  {
    if tidy {
      ExecAgrees(c, true, fuel, s, st, false, false);
      NeverReturns(c, true, fuel, s, st);
    } else {
      ExecAgrees(c, false, fuel, s, st, loop, false);
    }
  }

  lemma {:induction false} BlockAgrees(c: Context, tidy: bool, fuel: nat, b: Block, st: State, loop: bool, last: bool)
    requires LawfulContext(c) && LawfulBlock(b, loop) && PlainState(st)
    requires tidy ==> TidyContext(c) && TidyStmts(b.stmts, last)
    ensures Sound(ExecBlock(c, fuel, b, st), loop)
    ensures Tracks(tidy, ExecBlock(c, fuel, b, st), RefBlock(c, true, fuel, b, st), loop, last)
    decreases fuel, 1, b, 1
  {
    StmtsAgree(c, tidy, fuel, b.stmts, PushScope(st), loop, last);
  }

  lemma {:induction false} StmtsAgree(c: Context, tidy: bool, fuel: nat, ss: seq<Stmt>, st: State, loop: bool, last: bool)
    requires LawfulContext(c) && LawfulStmts(ss, loop) && PlainState(st)
    requires tidy ==> TidyContext(c) && TidyStmts(ss, last)
    ensures Sound(ExecStmts(c, fuel, ss, st), loop)
    ensures Tracks(tidy, ExecStmts(c, fuel, ss, st), RefStmts(c, true, fuel, ss, st), loop, last)
    decreases fuel, 1, ss, 1
  {
    if ss != [] {
      ExecAgrees(c, tidy, fuel, ss[0], st, loop, last && |ss| == 1);
      var a := Exec(c, fuel, ss[0], st);
      if a.flow.Fell? { StmtsAgree(c, tidy, fuel, ss[1..], a.st, loop, last); }
    }
  }

  // ── Scope blocks ───────────────────────────────────────────────────────────

  lemma {:induction false} HookObeys(ms: seq<ScopeMember>, enter: bool)
    requires forall i :: 0 <= i < |ms| ==> LawfulScopeMember(ms[i])
    ensures Hook(ms, enter).Some? ==> LawfulBlock(Hook(ms, enter).value, false)
    ensures Hook(ms, enter).Some? && TidyMembers(ms) ==> TidyStmts(Hook(ms, enter).value.stmts, false)
  {
    if ms != [] {
      assert LawfulScopeMember(ms[0]) && (TidyMembers(ms) ==> TidyMember(ms[0]) && TidyMembers(ms[1..]));
      assert !ms[0].ScopeDefine? ==> LawfulFunc(ms[0].f);
      assert TidyMember(ms[0]) && !ms[0].ScopeDefine? ==> TidyFunc(ms[0].f);
      HookObeys(ms[1..], enter);
    }
  }

  lemma {:induction false} HookAgrees(c: Context, tidy: bool, fuel: nat, d: ScopeDecl, enter: bool, st: State)
    requires LawfulContext(c) && LawfulScope(d) && PlainState(st)
    requires tidy ==> TidyContext(c) && TidyScope(d)
    ensures Sound(ExecHook(c, fuel, Hook(d.members, enter), st), false)
    ensures Tracks(tidy, ExecHook(c, fuel, Hook(d.members, enter), st), RefHook(c, true, fuel, Hook(d.members, enter), st), false, false)
    decreases fuel, 2, 0
  {
    HookObeys(d.members, enter);
    if Hook(d.members, enter).Some? { BlockAgrees(c, tidy, fuel, Hook(d.members, enter).value, st, false, false); }
  }

  lemma {:induction false} ScopeBlockAgrees(
      c: Context, tidy: bool, fuel: nat, scope: ScopeRef, args: seq<Expr>, body: Block, st: State, loop: bool, last: bool)
    requires LawfulContext(c) && PlainState(st) && LawfulBlock(body, loop)
    requires scope.AnonymousScope? ==> LawfulScope(scope.decl)
    requires tidy ==> TidyContext(c) && TidyStmts(body.stmts, last) && (scope.AnonymousScope? ==> TidyScope(scope.decl))
    ensures Sound(ExecScopeBlock(c, fuel, scope, args, body, st), loop)
    ensures Tracks(tidy, ExecScopeBlock(c, fuel, scope, args, body, st), RefScopeBlock(c, true, fuel, scope, args, body, st), loop, last)
    decreases fuel, 4
  {
    var decl := ScopeOf(c, scope);
    var st0 := PushScope(st);
    if decl.None? {
      BlockAgrees(c, tidy, fuel, body, st0, loop, last);
    } else if |decl.value.params| == |args| {
      var call1, call2 := CallAt(c, fuel), RefCallAt(c, true, fuel);
      CallsAgree(c, tidy, fuel);
      ArgsSame(c, tidy, args, st0, call1, call2);
      var vs := EvalArgs(c, args, st0, call1);
      if vs.Args? { WithArgsAgrees(c, tidy, fuel, decl.value, vs.vs, body, vs.st, loop, last); }
    }
  }

  lemma {:induction false} WithArgsAgrees(
      c: Context, tidy: bool, fuel: nat, d: ScopeDecl, vs: seq<Value>, body: Block, st: State, loop: bool, last: bool)
    requires LawfulContext(c) && LawfulScope(d) && LawfulBlock(body, loop) && PlainSeq(vs) && PlainState(st)
    requires tidy ==> TidyContext(c) && TidyScope(d) && TidyStmts(body.stmts, last)
    ensures Sound(ExecWithArgs(c, fuel, d, vs, body, st), loop)
    ensures Tracks(tidy, ExecWithArgs(c, fuel, d, vs, body, st), RefWithArgs(c, true, fuel, d, vs, body, st), loop, last)
    decreases fuel, 3, 1
  {
    var o, call1, call2 := BindParams(d.params, vs), CallAt(c, fuel), RefCallAt(c, true, fuel);
    CallsAgree(c, tidy, fuel);
    BindParamsPlain(d.params, vs);
    InitSame(c, tidy, d.members, o, st, call1, call2);
    var fields := InitFields(c, d.members, o, st, call1);
    if fields.0.Done? { InScopeAgrees(c, tidy, fuel, d, body, fields.1, fields.2, loop, last); }
  }

  lemma {:induction false} InScopeAgrees(
      c: Context, tidy: bool, fuel: nat, d: ScopeDecl, body: Block, o: map<string, Value>, st: State, loop: bool, last: bool)
    requires LawfulContext(c) && LawfulScope(d) && LawfulBlock(body, loop) && PlainMap(o) && PlainState(st)
    requires tidy ==> TidyContext(c) && TidyScope(d) && TidyStmts(body.stmts, last)
    ensures Sound(ExecInScope(c, fuel, d, body, o, st), loop)
    ensures Tracks(tidy, ExecInScope(c, fuel, d, body, o, st), RefInScope(c, true, fuel, d, body, o, st), loop, last)
    decreases fuel, 3, 0
  {
    BindSelfPlain(o, st);
    HookAgrees(c, tidy, fuel, d, true, BindSelf(o, st));
    var enter := ExecHook(c, fuel, Hook(d.members, true), BindSelf(o, st));
    if !enter.flow.Threw? && !enter.flow.Halted? {
      var prims := FieldPrims(d.members, ObjectAt(enter.st.w.heap, st.w.next));
      ScopeBodyAgrees(c, tidy, fuel, d, body, prims, enter.st, loop, last);
    }
  }

  lemma {:induction false} ScopeBodyAgrees(
      c: Context, tidy: bool, fuel: nat, d: ScopeDecl, body: Block, prims: seq<nat>, st: State, loop: bool, last: bool)
    requires LawfulContext(c) && LawfulScope(d) && LawfulBlock(body, loop) && PlainState(st)
    requires tidy ==> TidyContext(c) && TidyScope(d) && TidyStmts(body.stmts, last)
    ensures Sound(ExecScopeBody(c, fuel, d, body, prims, st), loop)
    ensures Tracks(tidy, ExecScopeBody(c, fuel, d, body, prims, st), RefScopeBody(c, true, fuel, d, body, prims, st), loop, last)
    decreases fuel, 2, 2
  {
    BlockAgrees(c, tidy, fuel, body, st, loop, last);
    var b := ExecBlock(c, fuel, body, st);
    if !b.flow.Halted? { ExitAgrees(c, tidy, fuel, d, prims, b, RefBlock(c, true, fuel, body, st), loop, last); }
  }

  lemma {:induction false} ExitAgrees(
      c: Context, tidy: bool, fuel: nat, d: ScopeDecl, prims: seq<nat>, b: Went, q: RefWent, loop: bool, last: bool)
    requires LawfulContext(c) && LawfulScope(d) && (tidy ==> TidyContext(c) && TidyScope(d))
    requires Sound(b, loop) && Tracks(tidy, b, q, loop, last) && !b.flow.Halted?
    ensures Sound(ExecExit(c, fuel, d, prims, b), loop)
    ensures !q.flow.Stuck? ==> Tracks(tidy, ExecExit(c, fuel, d, prims, b), RefExit(c, true, fuel, d, prims, q), loop, last)
    decreases fuel, 2, 1
  {
    HookAgrees(c, tidy, fuel, d, false, b.st);
  }
}
