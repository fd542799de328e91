/** What a task's scope chain and call stack look like after it ran
    (crates/tessera-interp/src/eval.rs, env.rs): frames are always balanced and the chain never gets
    shorter; without `try` it comes back with the same scopes, names and types. */
module ScopeDiscipline {
  import opened Options
  import opened Ast
  import opened Values
  import opened Evaluator

  // ── Relations on scope chains ──────────────────────────────────────────────

  /** A variable keeps its run-time type, unless that was void. */
  predicate KeepsType(a: Value, b: Value) {
    TypeName(a) == "void" || TypeName(a) == TypeName(b)
  }

  predicate SameScope(a: Scope, b: Scope) {
    a.Keys == b.Keys && forall k :: k in a ==> KeepsType(a[k], b[k])
  }

  /** The same scopes with the same names, and no type changed. */
  predicate Same(a: seq<Scope>, b: seq<Scope>) {
    |a| == |b| && forall i :: 0 <= i < |a| ==> SameScope(a[i], b[i])
  }

  /** As `Same`, but the innermost scope may have new names and redefined ones. */
  predicate Grown(a: seq<Scope>, b: seq<Scope>) {
    && |a| == |b|
    && (forall i :: 0 <= i < |a| - 1 ==> SameScope(a[i], b[i]))
    && (|a| > 0 ==> a[|a| - 1].Keys <= b[|b| - 1].Keys)
  }

  predicate Under(a: State, b: State) {
    && a.w.frames == b.w.frames && |a.scopes| <= |b.scopes|
    && (a.w.backtrace.Some? ==> b.w.backtrace == a.w.backtrace)
  }

  /** After an expression: frames and depth in any case, and the chain itself when `strict`. */
  predicate Keeps(strict: bool, st: State, x: Ran) {
    x.r.Stopped? || (Under(st, x.st) && (strict && x.r.Done? ==> Same(st.scopes, x.st.scopes)))
  }

  predicate KeepsArgs(strict: bool, st: State, x: RanArgs) {
    && (x.NoArgs? ==> !x.r.Done?)
    && ((x.NoArgs? && x.r.Stopped?) || (Under(st, x.st) && (strict && x.Args? ==> Same(st.scopes, x.st.scopes))))
  }

  /** After a statement, whose definitions may stay in the innermost scope. */
  predicate Extends(strict: bool, st: State, x: Went) {
    x.flow.Halted? || (Under(st, x.st) && (strict && !x.flow.Threw? ==> Grown(st.scopes, x.st.scopes)))
  }

  /** After a block, which has its own scope. */
  predicate Restores(strict: bool, st: State, x: Went) {
    x.flow.Halted? || (Under(st, x.st) && (strict && !x.flow.Threw? ==> Same(st.scopes, x.st.scopes)))
  }

  /** After something that also pops the scope it started in. */
  predicate RestoresOuter(strict: bool, st: State, x: Went) {
    || x.flow.Halted?
    || (&& st.w.frames == x.st.w.frames && |st.scopes| - 1 <= |x.st.scopes|
        && (st.w.backtrace.Some? ==> x.st.w.backtrace == st.w.backtrace)
        && (strict && !x.flow.Threw? ==> Same(Pop(st.scopes), x.st.scopes)))
  }

  ghost predicate KeepingCalls(c: Context, strict: bool, call: Call) {
    forall f: FuncDef, vs: seq<Value>, st: State :: f in c.funcs.Values ==> Keeps(strict, st, call(f, vs, st))
  }

  // ── Try-free programs ──────────────────────────────────────────────────────

  predicate TryFree(e: Expr) {
    match e
    case Lit(_) => true
    case Ident(_) => true
    case Binary(_, l, r) => TryFree(l) && TryFree(r)
    case Unary(_, x) => TryFree(x)
    case Call(f, args) => TryFree(f) && AllTryFree(args)
    case MethodCall(o, _, args) => TryFree(o) && AllTryFree(args)
    case FieldAccess(o, _) => TryFree(o)
    case Index(o, i) => TryFree(o) && TryFree(i)
    case Await(x) => TryFree(x)
    case Try(_) => false
    case Panic(m) => TryFree(m)
    case Assert(x, note) => TryFree(x) && MaybeTryFree(note)
    case TypeCtor(_, _, args) => AllTryFree(args)
  }

  predicate AllTryFree(es: seq<Expr>) {
    es == [] || (TryFree(es[0]) && AllTryFree(es[1..]))
  }

  predicate MaybeTryFree(e: Option<Expr>) {
    e.Some? ==> TryFree(e.value)
  }

  predicate TargetTryFree(t: AssignTarget) {
    match t
    case ToIdent(_) => true
    case ToField(o, _) => TryFree(o)
    case ToIndex(o, i) => TryFree(o) && TryFree(i)
  }

  predicate StmtTryFree(s: Stmt) {
    match s
    case Let(_, _, init) => TryFree(init)
    case Assign(t, v) => TargetTryFree(t) && TryFree(v)
    case If(i) => IfTryFree(i)
    case While(cond, body) => TryFree(cond) && StmtsTryFree(body.stmts)
    case For(first, test, update, body) =>
      && (first.Some? ==> StmtTryFree(first.value)) && MaybeTryFree(test)
      && (update.Some? ==> StmtTryFree(update.value)) && StmtsTryFree(body.stmts)
    case Return(e) => MaybeTryFree(e)
    case ThreadSpawn(_, args, _, _) => AllTryFree(args)
    case ScopeBlock(r, args, body) =>
      AllTryFree(args) && StmtsTryFree(body.stmts) && (r.AnonymousScope? ==> MembersTryFree(r.decl.members))
    case ExclusiveBlock(body) => StmtsTryFree(body.stmts)
    case ExprStmt(e) => TryFree(e)
    case _ => true
  }

  predicate StmtsTryFree(ss: seq<Stmt>) {
    ss == [] || (StmtTryFree(ss[0]) && StmtsTryFree(ss[1..]))
  }

  predicate IfTryFree(i: IfStmt) {
    && TryFree(i.condition) && StmtsTryFree(i.thenBlock.stmts)
    && match i.elseBranch {
         case NoElse => true
         case Else(b) => StmtsTryFree(b.stmts)
         case ElseIf(next) => IfTryFree(next)
       }
  }

  predicate MembersTryFree(ms: seq<ScopeMember>) {
    ms == [] || (MemberTryFree(ms[0]) && MembersTryFree(ms[1..]))
  }

  predicate MemberTryFree(m: ScopeMember) {
    if m.ScopeDefine? then MaybeTryFree(m.d.initializer) else StmtsTryFree(m.f.body.stmts)
  }

  predicate ContextTryFree(c: Context) {
    && (forall f :: f in c.funcs.Values ==> StmtsTryFree(f.body.stmts))
    && (forall d :: d in c.scopes.Values ==> MembersTryFree(d.members))
  }

  // ── The scope chain ────────────────────────────────────────────────────────

  lemma SameIsTransitive(a: seq<Scope>, b: seq<Scope>, d: seq<Scope>)
    requires Same(a, b) && Same(b, d)
    ensures Same(a, d)
  {
    forall i | 0 <= i < |a| ensures SameScope(a[i], d[i]) {
      assert SameScope(a[i], b[i]) && SameScope(b[i], d[i]);
    }
  }

  lemma GrownIsTransitive(a: seq<Scope>, b: seq<Scope>, d: seq<Scope>)
    requires Grown(a, b) && Grown(b, d)
    ensures Grown(a, d)
  {
    forall i | 0 <= i < |a| - 1 ensures SameScope(a[i], d[i]) {
      assert SameScope(a[i], b[i]) && SameScope(b[i], d[i]);
    }
  }

  lemma SameIsGrown(a: seq<Scope>, b: seq<Scope>)
    requires Same(a, b)
    ensures Grown(a, b)
  {
    if |a| > 0 { assert SameScope(a[|a| - 1], b[|b| - 1]); }
  }

  lemma DefineGrows(scopes: seq<Scope>, name: string, v: Value)
    ensures Grown(scopes, DefineIn(scopes, name, v))
  {
  }

  lemma PopGrows(a: seq<Scope>, b: seq<Scope>)
    requires Grown(a, b)
    ensures Same(Pop(a), Pop(b))
  {
  }

  /** What happens above a scope leaves it, once the top is popped. */
  lemma PopGrown(scopes: seq<Scope>, inner: seq<Scope>)
    requires Grown(Push(scopes), inner)
    ensures Same(scopes, Pop(inner))
  {
    forall i | 0 <= i < |scopes| ensures SameScope(scopes[i], Pop(inner)[i]) {
      assert Push(scopes)[i] == scopes[i];
    }
  }

  lemma {:induction false} RebindKeeps(scopes: seq<Scope>, name: string, v: Value)
    requires MayAssign(Lookup(scopes, name), v)
    ensures Same(scopes, Rebind(scopes, name, v))
    decreases |scopes|
  {
    if scopes != [] {
      var top := scopes[|scopes| - 1];
      var after := Rebind(scopes, name, v);
      if name !in top { RebindKeeps(Pop(scopes), name, v); }
      forall i | 0 <= i < |scopes| ensures SameScope(scopes[i], after[i]) {
        if i < |scopes| - 1 { assert Pop(scopes)[i] == scopes[i]; }
      }
    }
  }

  lemma {:induction false} DefineAllGrows(scopes: seq<Scope>, ps: seq<Param>, vs: seq<Value>)
    ensures Grown(scopes, DefineAll(scopes, ps, vs))
    decreases |ps|
  {
    if ps != [] && vs != [] {
      DefineGrows(scopes, ps[0].name, vs[0]);
      DefineAllGrows(DefineIn(scopes, ps[0].name, vs[0]), ps[1..], vs[1..]);
      GrownIsTransitive(scopes, DefineIn(scopes, ps[0].name, vs[0]), DefineAll(scopes, ps, vs));
    }
  }

  // ── Expressions ────────────────────────────────────────────────────────────

  /** One evaluation after another. */
  lemma KeepsThen(strict: bool, st: State, a: Ran, b: Ran)
    requires Keeps(strict, st, a) && a.r.Done? && Keeps(strict, a.st, b)
    ensures Keeps(strict, st, b)
  {
    if strict && b.r.Done? { SameIsTransitive(st.scopes, a.st.scopes, b.st.scopes); }
  }

  lemma {:induction false} EvalKeeps(c: Context, strict: bool, e: Expr, st: State, call: Call)
    requires KeepingCalls(c, strict, call) && (strict ==> TryFree(e))
    ensures Keeps(strict, st, Eval(c, e, st, call))
    decreases e, 1
  {
    match e {
      case Lit(_) =>
      case Ident(_) =>
      case Binary(_, l, r) => BinaryKeeps(c, strict, e, st, call);
      case Unary(_, x) => EvalKeeps(c, strict, x, st, call);
      case Call(f, args) => if f.Ident? { CallKeeps(c, strict, f.name, args, st, call); }
      case MethodCall(o, _, args) => MethodKeeps(c, strict, e, st, call);
      case FieldAccess(o, _) => EvalKeeps(c, strict, o, st, call);
      case Index(o, i) => IndexKeeps(c, strict, e, st, call);
      case Await(x) => EvalKeeps(c, strict, x, st, call);
      case Try(x) => EvalKeeps(c, strict, x, st, call);
      case Panic(m) => EvalKeeps(c, strict, m, st, call);
      case Assert(x, note) =>
        EvalKeeps(c, strict, x, st, call);
        if note.Some? {
          var a := Eval(c, x, st, call);
          EvalKeeps(c, strict, note.value, a.st, call);
        }
      case TypeCtor(_, _, args) => ArgsKeep(c, strict, args, st, call);
    }
  }

  lemma {:induction false} BinaryKeeps(c: Context, strict: bool, e: Expr, st: State, call: Call)
    requires e.Binary? && KeepingCalls(c, strict, call) && (strict ==> TryFree(e))
    ensures Keeps(strict, st, Eval(c, e, st, call))
    decreases e, 0
  {
    EvalKeeps(c, strict, e.left, st, call);
    var a := Eval(c, e.left, st, call);
    if a.r.Done? {
      EvalKeeps(c, strict, e.right, a.st, call);
      KeepsThen(strict, st, a, Eval(c, e.right, a.st, call));
    }
  }

  lemma {:induction false} IndexKeeps(c: Context, strict: bool, e: Expr, st: State, call: Call)
    requires e.Index? && KeepingCalls(c, strict, call) && (strict ==> TryFree(e))
    ensures Keeps(strict, st, Eval(c, e, st, call))
    decreases e, 0
  {
    EvalKeeps(c, strict, e.object', st, call);
    var a := Eval(c, e.object', st, call);
    if a.r.Done? {
      EvalKeeps(c, strict, e.index, a.st, call);
      KeepsThen(strict, st, a, Eval(c, e.index, a.st, call));
    }
  }

  lemma {:induction false} MethodKeeps(c: Context, strict: bool, e: Expr, st: State, call: Call)
    requires e.MethodCall? && KeepingCalls(c, strict, call) && (strict ==> TryFree(e))
    ensures Keeps(strict, st, Eval(c, e, st, call))
    decreases e, 0
  {
    EvalKeeps(c, strict, e.receiver, st, call);
    var a := Eval(c, e.receiver, st, call);
    if a.r.Done? {
      ArgsKeep(c, strict, e.args, a.st, call);
      var vs := EvalArgs(c, e.args, a.st, call);
      if strict && vs.Args? { SameIsTransitive(st.scopes, a.st.scopes, vs.st.scopes); }
    }
  }

  lemma {:induction false} ArgsKeep(c: Context, strict: bool, es: seq<Expr>, st: State, call: Call)
    requires KeepingCalls(c, strict, call) && (strict ==> AllTryFree(es))
    ensures KeepsArgs(strict, st, EvalArgs(c, es, st, call))
    decreases es, 0
  {
    if es != [] {
      EvalKeeps(c, strict, es[0], st, call);
      var a := Eval(c, es[0], st, call);
      if a.r.Done? {
        ArgsKeep(c, strict, es[1..], a.st, call);
        var more := EvalArgs(c, es[1..], a.st, call);
        if strict && more.Args? { SameIsTransitive(st.scopes, a.st.scopes, more.st.scopes); }
      }
    }
  }

  lemma {:induction false} CallKeeps(c: Context, strict: bool, name: string, args: seq<Expr>, st: State, call: Call)
    requires KeepingCalls(c, strict, call) && (strict ==> AllTryFree(args))
    ensures Keeps(strict, st, EvalCall(c, name, args, st, call))
    decreases args, 1
  {
    ArgsKeep(c, strict, args, st, call);
    if name in BUILTINS {
      if args != [] { EvalKeeps(c, strict, args[0], st, call); }
    } else if name in c.funcs {
      var vs := EvalArgs(c, args, st, call);
      if vs.Args? && c.funcs[name].kind != Async {
        assert c.funcs[name] in c.funcs.Values;
        var b := call(c.funcs[name], vs.vs, vs.st);
        if strict && b.r.Done? { SameIsTransitive(st.scopes, vs.st.scopes, b.st.scopes); }
      }
    }
  }

  // ── Assignments, spawns and fields ─────────────────────────────────────────

  lemma AssignVarKeeps(c: Context, strict: bool, name: string, v: Value, st: State)
    ensures Keeps(strict, st, AssignVar(c, name, v, st))
  {
    if MayAssign(Lookup(st.scopes, name), v) { RebindKeeps(st.scopes, name, v); }
  }

  lemma AssignKeeps(c: Context, strict: bool, target: AssignTarget, value: Expr, st: State, call: Call)
    requires KeepingCalls(c, strict, call) && (strict ==> TargetTryFree(target) && TryFree(value))
    ensures Keeps(strict, st, AssignTo(c, target, value, st, call))
  {
    EvalKeeps(c, strict, value, st, call);
    var a := Eval(c, value, st, call);
    if a.r.Done? {
      if target.ToIdent? {
        AssignVarKeeps(c, strict, target.name, a.r.v, a.st);
        KeepsThen(strict, st, a, AssignVar(c, target.name, a.r.v, a.st));
      } else {
        EvalKeeps(c, strict, target.object', a.st, call);
        var b := Eval(c, target.object', a.st, call);
        KeepsThen(strict, st, a, b);
        if b.r.Done? && target.ToField? {
          KeepsThen(strict, st, b, AssignField(c, b.r.v, target.field, a.r.v, b.st));
        } else if b.r.Done? {
          EvalKeeps(c, strict, target.index, b.st, call);
          var i := Eval(c, target.index, b.st, call);
          KeepsThen(strict, st, b, i);
          if i.r.Done? { KeepsThen(strict, st, i, AssignElement(c, b.r.v, i.r.v, a.r.v, i.st)); }
        }
      }
    }
  }

  lemma SpawnExtends(c: Context, strict: bool, args: seq<Expr>, handle: HandleBind, st: State, call: Call)
    requires KeepingCalls(c, strict, call) && (strict ==> AllTryFree(args))
    ensures var a := SpawnThread(c, args, handle, st, call); Extends(strict, st, Went(AfterExpr(a.r), a.st))
  {
    ArgsKeep(c, strict, args, st, call);
    var vs := EvalArgs(c, args, st, call);
    if vs.Args? {
      var ready := Ask(vs.st).st;
      if handle.Bind? { DefineGrows(ready.scopes, handle.name, HandleV(ThreadHandle, ready.w.next)); }
      if strict {
        SameIsGrown(st.scopes, vs.st.scopes);
        if handle.Bind? {
          GrownIsTransitive(st.scopes, ready.scopes, DefineIn(ready.scopes, handle.name, HandleV(ThreadHandle, ready.w.next)));
        }
      }
    }
  }

  lemma {:induction false} InitKeeps(c: Context, strict: bool, ms: seq<ScopeMember>, o: map<string, Value>, st: State, call: Call)
    requires KeepingCalls(c, strict, call) && (strict ==> MembersTryFree(ms))
    ensures var r := InitFields(c, ms, o, st, call); Keeps(strict, st, Ran(r.0, r.2))
    decreases |ms|
  {
    if ms != [] {
      if !ms[0].ScopeDefine? {
        InitKeeps(c, strict, ms[1..], o, st, call);
      } else if ms[0].d.initializer.None? {
        InitKeeps(c, strict, ms[1..], o[ms[0].d.name := DefaultValue(ms[0].d.ty)], st, call);
      } else {
        EvalKeeps(c, strict, ms[0].d.initializer.value, st, call);
        var a := Eval(c, ms[0].d.initializer.value, st, call);
        if a.r.Done? {
          InitKeeps(c, strict, ms[1..], o[ms[0].d.name := a.r.v], a.st, call);
          var r := InitFields(c, ms[1..], o[ms[0].d.name := a.r.v], a.st, call);
          KeepsThen(strict, st, a, Ran(r.0, r.2));
        }
      }
    }
  }

  // ── Statements ─────────────────────────────────────────────────────────────

  lemma {:induction false} CallsKeep(c: Context, strict: bool, fuel: nat)
    requires strict ==> ContextTryFree(c)
    ensures KeepingCalls(c, strict, CallAt(c, fuel))
    decreases fuel, 0, 0
  {
    forall f: FuncDef, vs: seq<Value>, st: State | f in c.funcs.Values
      ensures Keeps(strict, st, CallAt(c, fuel)(f, vs, st))
    {
      if fuel > 0 { CallFuncKeeps(c, strict, fuel - 1, f, vs, st); }
    }
  }

  lemma {:induction false} CallFuncKeeps(c: Context, strict: bool, fuel: nat, f: FuncDef, vs: seq<Value>, st: State)
    requires strict ==> ContextTryFree(c) && StmtsTryFree(f.body.stmts)
    ensures Keeps(strict, st, CallFunc(c, fuel, f, vs, st))
    decreases fuel, 3
  {
    var st0 := PushFrame(f, st);
    assert st0.w.frames[..|st0.w.frames| - 1] == st.w.frames;
    if Accepts(f, vs) {
      var st1 := EnterFunc(f, vs, st0);
      DefineAllGrows(Push(st.scopes), f.params, vs);
      BlockRestores(c, strict, fuel, f.body, st1);
      var b := ExecBlock(c, fuel, f.body, st1);
      if strict && !b.flow.Threw? && !b.flow.Halted? {
        SameIsGrown(st1.scopes, b.st.scopes);
        GrownIsTransitive(Push(st.scopes), st1.scopes, b.st.scopes);
        PopGrown(st.scopes, b.st.scopes);
      }
    }
  }

  lemma {:induction false} ExecExtends(c: Context, strict: bool, fuel: nat, s: Stmt, st: State)
    requires strict ==> ContextTryFree(c) && StmtTryFree(s)
    ensures Extends(strict, st, Exec(c, fuel, s, st))
    decreases fuel, 1, s, 3
  {
    match s {
      case If(i) => IfRestores(c, strict, fuel, i, st); RestoredIsExtended(strict, st, ExecIf(c, fuel, i, st));
      case While(_, _) => WhileRestores(c, strict, fuel, s, st); RestoredIsExtended(strict, st, ExecWhile(c, fuel, s, st));
      case For(_, _, _, _) => ForRestores(c, strict, fuel, s, st); RestoredIsExtended(strict, st, Exec(c, fuel, s, st));
      case ExclusiveBlock(body) =>
        BlockRestores(c, strict, fuel, body, SetExclusive(c, true, st));
        RestoredIsExtended(strict, st, ExecBlock(c, fuel, body, SetExclusive(c, true, st)));
      case ScopeBlock(scope, args, body) =>
        if fuel > 0 {
          ScopeBlockRestores(c, strict, fuel - 1, scope, args, body, st);
          RestoredIsExtended(strict, st, ExecScopeBlock(c, fuel - 1, scope, args, body, st));
        }
      case Break =>
      case Continue =>
      case Let(_, _, _) => SimpleExtends(c, strict, fuel, s, st);
      case Assign(_, _) => SimpleExtends(c, strict, fuel, s, st);
      case Return(_) => SimpleExtends(c, strict, fuel, s, st);
      case ThreadSpawn(_, _, _, _) => SimpleExtends(c, strict, fuel, s, st);
      case ExprStmt(_) => SimpleExtends(c, strict, fuel, s, st);
    }
  }

  lemma RestoredIsExtended(strict: bool, st: State, x: Went)
    requires Restores(strict, st, x)
    ensures Extends(strict, st, x)
  {
    if strict && !x.flow.Threw? && !x.flow.Halted? { SameIsGrown(st.scopes, x.st.scopes); }
  }

  lemma ReflexivelySame(a: seq<Scope>)
    ensures Same(a, a) && Grown(a, a)
  {
  }

  /** Statements without a body. */
  lemma {:induction false} SimpleExtends(c: Context, strict: bool, fuel: nat, s: Stmt, st: State)
    requires s.Let? || s.Assign? || s.Return? || s.ThreadSpawn? || s.ExprStmt?
    requires strict ==> ContextTryFree(c) && StmtTryFree(s)
    ensures Extends(strict, st, Exec(c, fuel, s, st))
    decreases fuel, 0, 1
  {
    var call := CallAt(c, fuel);
    CallsKeep(c, strict, fuel);
    ReflexivelySame(st.scopes);
    match s {
      case Let(name, _, init) =>
        EvalKeeps(c, strict, init, st, call);
        var a := Eval(c, init, st, call);
        if a.r.Done? {
          DefineGrows(a.st.scopes, name, a.r.v);
          if strict {
            SameIsGrown(st.scopes, a.st.scopes);
            GrownIsTransitive(st.scopes, a.st.scopes, DefineIn(a.st.scopes, name, a.r.v));
          }
        }
      case Assign(target, value) =>
        AssignKeeps(c, strict, target, value, st, call);
        KeptIsExtended(strict, st, AssignTo(c, target, value, st, call));
      case Return(e) =>
        if e.Some? {
          EvalKeeps(c, strict, e.value, st, call);
          KeptIsExtended(strict, st, Eval(c, e.value, st, call));
        }
      case ThreadSpawn(_, args, _, handle) => SpawnExtends(c, strict, args, handle, st, call);
      case ExprStmt(e) =>
        EvalKeeps(c, strict, e, st, call);
        KeptIsExtended(strict, st, Eval(c, e, st, call));
    }
  }

  lemma KeptIsExtended(strict: bool, st: State, a: Ran)
    requires Keeps(strict, st, a)
    ensures Extends(strict, st, Went(AfterExpr(a.r), a.st))
  {
    if strict && a.r.Done? { SameIsGrown(st.scopes, a.st.scopes); }
  }

  lemma {:induction false} IfRestores(c: Context, strict: bool, fuel: nat, i: IfStmt, st: State)
    requires strict ==> ContextTryFree(c) && IfTryFree(i)
    ensures Restores(strict, st, ExecIf(c, fuel, i, st))
    decreases fuel, 1, i, 1
  {
    CallsKeep(c, strict, fuel);
    EvalKeeps(c, strict, i.condition, st, CallAt(c, fuel));
    var cond := Eval(c, i.condition, st, CallAt(c, fuel));
    if cond.r.Done? {
      if Truthy(cond.r.v) {
        BlockRestores(c, strict, fuel, i.thenBlock, cond.st);
        RestoresThen(strict, st, cond, ExecBlock(c, fuel, i.thenBlock, cond.st));
      } else if i.elseBranch.Else? {
        BlockRestores(c, strict, fuel, i.elseBranch.block, cond.st);
        RestoresThen(strict, st, cond, ExecBlock(c, fuel, i.elseBranch.block, cond.st));
      } else if i.elseBranch.ElseIf? {
        IfRestores(c, strict, fuel, i.elseBranch.next, cond.st);
        RestoresThen(strict, st, cond, ExecIf(c, fuel, i.elseBranch.next, cond.st));
      }
    }
  }

  /** An evaluation, and then something that restores. */
  lemma RestoresThen(strict: bool, st: State, a: Ran, x: Went)
    requires Keeps(strict, st, a) && a.r.Done? && Restores(strict, a.st, x)
    ensures Restores(strict, st, x)
  {
    if strict && !x.flow.Threw? && !x.flow.Halted? { SameIsTransitive(st.scopes, a.st.scopes, x.st.scopes); }
  }

  lemma {:induction false} WhileRestores(c: Context, strict: bool, fuel: nat, s: Stmt, st: State)
    requires s.While? && (strict ==> ContextTryFree(c) && StmtTryFree(s))
    ensures Restores(strict, st, ExecWhile(c, fuel, s, st))
    decreases fuel, 1, s, 0
  {
    CallsKeep(c, strict, fuel);
    EvalKeeps(c, strict, s.condition, st, CallAt(c, fuel));
    var a := Eval(c, s.condition, st, CallAt(c, fuel));
    if a.r.Done? && Truthy(a.r.v) {
      BlockRestores(c, strict, fuel, s.body, a.st);
      var b := ExecBlock(c, fuel, s.body, a.st);
      RestoresThen(strict, st, a, b);
      if b.flow.Fell? && fuel > 0 {
        WhileRestores(c, strict, fuel - 1, s, b.st);
        RestoresThen(strict, st, Ran(Done(VoidV), b.st), ExecWhile(c, fuel - 1, s, b.st));
      }
    }
  }

  lemma {:induction false} ForRestores(c: Context, strict: bool, fuel: nat, s: Stmt, st: State)
    requires s.For? && (strict ==> ContextTryFree(c) && StmtTryFree(s))
    ensures Restores(strict, st, Exec(c, fuel, s, st))
    decreases fuel, 1, s, 2
  {
    var st0 := PushScope(st);
    ReflexivelySame(st0.scopes);
    if s.first.Some? { ExecExtends(c, strict, fuel, s.first.value, st0); }
    var init := if s.first.Some? then Exec(c, fuel, s.first.value, st0) else Went(Fell, st0);
    if !init.flow.Threw? && !init.flow.Halted? {
      TurnsRestore(c, strict, fuel, s, init.st);
      var x := ExecFor(c, fuel, s, init.st);
      if strict && !x.flow.Threw? && !x.flow.Halted? {
        PopGrown(st.scopes, init.st.scopes);
        SameIsTransitive(st.scopes, Pop(init.st.scopes), x.st.scopes);
      }
    }
  }

  lemma {:induction false} TurnsRestore(c: Context, strict: bool, fuel: nat, s: Stmt, st: State)
    requires s.For? && |st.scopes| > 0 && (strict ==> ContextTryFree(c) && StmtTryFree(s))
    ensures RestoresOuter(strict, st, ExecFor(c, fuel, s, st))
    decreases fuel, 1, s, 1, 1
  {
    CallsKeep(c, strict, fuel);
    ReflexivelySame(st.scopes);
    if s.test.Some? { EvalKeeps(c, strict, s.test.value, st, CallAt(c, fuel)); }
    var a := ForTest(c, s, st, CallAt(c, fuel));
    if a.r.Done? {
      OuterThen(strict, st, a.st);
      if Truthy(a.r.v) {
        TurnRestores(c, strict, fuel, s, a.st);
        OuterFrom(strict, st, a.st, ExecTurn(c, fuel, s, a.st));
      }
    }
  }

  lemma {:induction false} TurnRestores(c: Context, strict: bool, fuel: nat, s: Stmt, st: State)
    requires s.For? && |st.scopes| > 0 && (strict ==> ContextTryFree(c) && StmtTryFree(s))
    ensures RestoresOuter(strict, st, ExecTurn(c, fuel, s, st))
    decreases fuel, 1, s, 1, 0
  {
    BlockRestores(c, strict, fuel, s.body, st);
    var b := ExecBlock(c, fuel, s.body, st);
    if !b.flow.Threw? && !b.flow.Halted? {
      OuterThen(strict, st, b.st);
      if b.flow.Fell? {
        UpdateRestores(c, strict, fuel, s, b.st);
        OuterFrom(strict, st, b.st, ExecUpdate(c, fuel, s, b.st));
      }
    }
  }

  /** What pops a chain grown from another pops that one too. */
  lemma OuterFrom(strict: bool, st: State, mid: State, x: Went)
    requires Under(st, mid) && (strict ==> Grown(st.scopes, mid.scopes)) && RestoresOuter(strict, mid, x)
    ensures RestoresOuter(strict, st, x)
  {
    if strict && !x.flow.Threw? && !x.flow.Halted? {
      PopGrows(st.scopes, mid.scopes);
      SameIsTransitive(Pop(st.scopes), Pop(mid.scopes), x.st.scopes);
    }
  }

  /** Popping after the chain was kept. */
  lemma OuterThen(strict: bool, st: State, after: State)
    requires strict ==> Same(st.scopes, after.scopes)
    ensures strict ==> Same(Pop(st.scopes), Pop(after.scopes)) && Grown(st.scopes, after.scopes)
  {
    if strict {
      SameIsGrown(st.scopes, after.scopes);
      PopGrows(st.scopes, after.scopes);
    }
  }

  lemma {:induction false} UpdateRestores(c: Context, strict: bool, fuel: nat, s: Stmt, st: State)
    requires s.For? && |st.scopes| > 0 && (strict ==> ContextTryFree(c) && StmtTryFree(s))
    ensures RestoresOuter(strict, st, ExecUpdate(c, fuel, s, st))
    decreases fuel, 1, s, 0, 0
  {
    ReflexivelySame(st.scopes);
    if s.update.Some? { ExecExtends(c, strict, fuel, s.update.value, st); }
    var u := if s.update.Some? then Exec(c, fuel, s.update.value, st) else Went(Fell, st);
    if !u.flow.Threw? && !u.flow.Halted? && fuel > 0 {
      TurnsRestore(c, strict, fuel - 1, s, u.st);
      OuterFrom(strict, st, u.st, ExecFor(c, fuel - 1, s, u.st));
    }
  }

  lemma {:induction false} BlockRestores(c: Context, strict: bool, fuel: nat, b: Block, st: State)
    requires strict ==> ContextTryFree(c) && StmtsTryFree(b.stmts)
    ensures Restores(strict, st, ExecBlock(c, fuel, b, st))
    decreases fuel, 1, b, 1
  {
    StmtsExtend(c, strict, fuel, b.stmts, PushScope(st));
    var a := ExecStmts(c, fuel, b.stmts, PushScope(st));
    if strict && !a.flow.Threw? && !a.flow.Halted? { PopGrown(st.scopes, a.st.scopes); }
  }

  lemma {:induction false} StmtsExtend(c: Context, strict: bool, fuel: nat, ss: seq<Stmt>, st: State)
    requires strict ==> ContextTryFree(c) && StmtsTryFree(ss)
    ensures Extends(strict, st, ExecStmts(c, fuel, ss, st))
    decreases fuel, 1, ss, 1
  {
    ReflexivelySame(st.scopes);
    if ss != [] {
      ExecExtends(c, strict, fuel, ss[0], st);
      var a := Exec(c, fuel, ss[0], st);
      if a.flow.Fell? {
        StmtsExtend(c, strict, fuel, ss[1..], a.st);
        var x := ExecStmts(c, fuel, ss[1..], a.st);
        if strict && !x.flow.Threw? && !x.flow.Halted? { GrownIsTransitive(st.scopes, a.st.scopes, x.st.scopes); }
      }
    }
  }

  // ── Scope blocks ───────────────────────────────────────────────────────────

  lemma {:induction false} HookTryFree(ms: seq<ScopeMember>, enter: bool)
    requires MembersTryFree(ms)
    ensures Hook(ms, enter).Some? ==> StmtsTryFree(Hook(ms, enter).value.stmts)
  {
    if ms != [] { HookTryFree(ms[1..], enter); }
  }

  lemma {:induction false} HookRestores(c: Context, strict: bool, fuel: nat, d: ScopeDecl, enter: bool, st: State)
    requires strict ==> ContextTryFree(c) && MembersTryFree(d.members)
    ensures Restores(strict, st, ExecHook(c, fuel, Hook(d.members, enter), st))
    decreases fuel, 2, 0
  {
    ReflexivelySame(st.scopes);
    if strict { HookTryFree(d.members, enter); }
    if Hook(d.members, enter).Some? { BlockRestores(c, strict, fuel, Hook(d.members, enter).value, st); }
  }

  lemma {:induction false} ScopeBlockRestores(c: Context, strict: bool, fuel: nat, scope: ScopeRef, args: seq<Expr>, body: Block, st: State)
    requires strict ==> ContextTryFree(c) && AllTryFree(args) && StmtsTryFree(body.stmts)
    requires strict && scope.AnonymousScope? ==> MembersTryFree(scope.decl.members)
    ensures Restores(strict, st, ExecScopeBlock(c, fuel, scope, args, body, st))
    decreases fuel, 4
  {
    var decl := ScopeOf(c, scope);
    var st0 := PushScope(st);
    if decl.None? {
      BlockRestores(c, strict, fuel, body, st0);
      var b := ExecBlock(c, fuel, body, st0);
      if strict && !b.flow.Threw? && !b.flow.Halted? {
        SameIsGrown(st0.scopes, b.st.scopes);
        PopGrown(st.scopes, b.st.scopes);
      }
    } else if |decl.value.params| == |args| {
      FieldsRestore(c, strict, fuel, decl.value, args, body, st);
    }
  }

  lemma {:induction false} FieldsRestore(c: Context, strict: bool, fuel: nat, d: ScopeDecl, args: seq<Expr>, body: Block, st: State)
    requires |d.params| == |args|
    requires strict ==> ContextTryFree(c) && AllTryFree(args) && StmtsTryFree(body.stmts) && MembersTryFree(d.members)
    ensures Restores(strict, st, ExecScopeBlock(c, fuel, AnonymousScope(d), args, body, st))
    decreases fuel, 3, 2
  {
    var st0 := PushScope(st);
    CallsKeep(c, strict, fuel);
    ArgsKeep(c, strict, args, st0, CallAt(c, fuel));
    var vs := EvalArgs(c, args, st0, CallAt(c, fuel));
    if vs.Args? {
      WithArgsRestores(c, strict, fuel, d, vs.vs, body, vs.st);
      var x := ExecWithArgs(c, fuel, d, vs.vs, body, vs.st);
      if strict && !x.flow.Threw? && !x.flow.Halted? {
        SameIsGrown(st0.scopes, vs.st.scopes);
        PopGrown(st.scopes, vs.st.scopes);
        SameIsTransitive(st.scopes, Pop(vs.st.scopes), x.st.scopes);
      }
    }
  }

  lemma {:induction false} WithArgsRestores(c: Context, strict: bool, fuel: nat, d: ScopeDecl, vs: seq<Value>, body: Block, st: State)
    requires |st.scopes| > 0
    requires strict ==> ContextTryFree(c) && StmtsTryFree(body.stmts) && MembersTryFree(d.members)
    ensures RestoresOuter(strict, st, ExecWithArgs(c, fuel, d, vs, body, st))
    decreases fuel, 3, 1
  {
    CallsKeep(c, strict, fuel);
    var o := BindParams(d.params, vs);
    InitKeeps(c, strict, d.members, o, st, CallAt(c, fuel));
    var fields := InitFields(c, d.members, o, st, CallAt(c, fuel));
    if fields.0.Done? {
      OuterThen(strict, st, fields.2);
      InScopeRestores(c, strict, fuel, d, body, fields.1, fields.2);
      OuterFrom(strict, st, fields.2, ExecInScope(c, fuel, d, body, fields.1, fields.2));
    }
  }

  lemma {:induction false} InScopeRestores(c: Context, strict: bool, fuel: nat, d: ScopeDecl, body: Block, o: map<string, Value>, st: State)
    requires |st.scopes| > 0
    requires strict ==> ContextTryFree(c) && StmtsTryFree(body.stmts) && MembersTryFree(d.members)
    ensures RestoresOuter(strict, st, ExecInScope(c, fuel, d, body, o, st))
    decreases fuel, 3, 0
  {
    var st0 := BindSelf(o, st);
    DefineGrows(st.scopes, "self", ObjectV(st.w.next));
    HookRestores(c, strict, fuel, d, true, st0);
    var enter := ExecHook(c, fuel, Hook(d.members, true), st0);
    if !enter.flow.Threw? && !enter.flow.Halted? {
      var prims := FieldPrims(d.members, ObjectAt(enter.st.w.heap, st.w.next));
      BodyRestores(c, strict, fuel, d, body, prims, enter.st);
      if strict {
        SameIsGrown(st0.scopes, enter.st.scopes);
        GrownIsTransitive(st.scopes, st0.scopes, enter.st.scopes);
      }
      OuterFrom(strict, st, enter.st, ExecScopeBody(c, fuel, d, body, prims, enter.st));
    }
  }

  lemma {:induction false} BodyRestores(c: Context, strict: bool, fuel: nat, d: ScopeDecl, body: Block, prims: seq<nat>, st: State)
    requires |st.scopes| > 0
    requires strict ==> ContextTryFree(c) && StmtsTryFree(body.stmts) && MembersTryFree(d.members)
    ensures RestoresOuter(strict, st, ExecScopeBody(c, fuel, d, body, prims, st))
    decreases fuel, 2, 1
  {
    BlockRestores(c, strict, fuel, body, st);
    var b := ExecBlock(c, fuel, body, st);
    if !b.flow.Halted? {
      HookRestores(c, strict, fuel, d, false, b.st);
      var exit := ExecHook(c, fuel, Hook(d.members, false), b.st);
      if strict && !b.flow.Threw? && !exit.flow.Threw? && !exit.flow.Halted? {
        SameIsTransitive(st.scopes, b.st.scopes, exit.st.scopes);
        OuterThen(strict, st, exit.st);
      }
    }
  }

  // ── The discipline ─────────────────────────────────────────────────────────

  /** A try-free statement that ends without an error leaves the chain as deep as it was, every scope
      but the innermost with its names and types, and the innermost with at least its names. */
  lemma TryFreeKeepsTheScopes(c: Context, fuel: nat, s: Stmt, st: State)
    requires ContextTryFree(c) && StmtTryFree(s)
    ensures var x := Exec(c, fuel, s, st); x.flow.Fell? || x.flow.Gave? ==> Grown(st.scopes, x.st.scopes)
  {
    ExecExtends(c, true, fuel, s, st);
  }

  /** A try-free call leaves every scope of its caller with its names and types. */
  lemma TryFreeCallsKeepTheScopes(c: Context, fuel: nat, f: FuncDef, vs: seq<Value>, st: State)
    requires ContextTryFree(c) && StmtsTryFree(f.body.stmts)
    ensures var x := CallFunc(c, fuel, f, vs, st); x.r.Done? ==> Same(st.scopes, x.st.scopes)
  {
    CallFuncKeeps(c, true, fuel, f, vs, st);
  }

  /** With or without `try`, and with or without an error: the frames balance, no scope is lost, and the
      first snapshot of the frames stays. */
  lemma FramesBalance(c: Context, fuel: nat, s: Stmt, st: State)
    ensures var x := Exec(c, fuel, s, st); !x.flow.Halted? ==> Under(st, x.st)
  {
    ExecExtends(c, false, fuel, s, st);
  }

  /** A call that fails leaves a snapshot of the frames: the one of the call inside it that failed first,
      or its own. */
  lemma FirstFailureIsTraced(c: Context, fuel: nat, f: FuncDef, vs: seq<Value>, st: State)
    requires CallFunc(c, fuel, f, vs, st).r.Failed?
    ensures var inner := CallInner(c, fuel, f, vs, PushFrame(f, st)).st.w.backtrace;
      CallFunc(c, fuel, f, vs, st).st.w.backtrace == if inner.Some? then inner else Some(st.w.frames + [f.name])
    ensures st.w.backtrace.Some? ==> CallFunc(c, fuel, f, vs, st).st.w.backtrace == st.w.backtrace
  {
    var st0 := PushFrame(f, st);
    if Accepts(f, vs) { BlockRestores(c, false, fuel, f.body, EnterFunc(f, vs, st0)); }
    CallFuncKeeps(c, false, fuel, f, vs, st);
  }

  // ── What `try` does to it ──────────────────────────────────────────────────

  /** A failed call leaves a scope behind exactly when its body was entered: the arguments that are
      refused are refused before any scope is pushed, and a body that fails keeps its block's scope. */
  lemma FailedCallLeaksIff(c: Context, fuel: nat, f: FuncDef, vs: seq<Value>, st: State)
    requires CallFunc(c, fuel, f, vs, st).r.Failed?
    ensures |CallFunc(c, fuel, f, vs, st).st.scopes| > |st.scopes| <==> Accepts(f, vs)
    ensures !Accepts(f, vs) ==> CallFunc(c, fuel, f, vs, st).st.scopes == st.scopes
  {
    if Accepts(f, vs) {
      var st1 := EnterFunc(f, vs, PushFrame(f, st));
      StmtsExtend(c, false, fuel, f.body.stmts, PushScope(st1));
      assert ExecBlock(c, fuel, f.body, st1) == ExecStmts(c, fuel, f.body.stmts, PushScope(st1));
    }
  }

  predicate IsCall(c: Context, name: string) {
    name !in BUILTINS && name in c.funcs && c.funcs[name].kind == Sync
  }

  /** So a call that fails and is caught leaves more scopes than there were once its arguments were
      evaluated, exactly when it accepts these arguments. */
  lemma CaughtCallLeaksIff(c: Context, fuel: nat, name: string, args: seq<Expr>, st: State)
    requires fuel > 0 && IsCall(c, name) && EvalArgs(c, args, st, CallAt(c, fuel)).Args?
    ensures var vs := EvalArgs(c, args, st, CallAt(c, fuel));
      var x := Eval(c, Try(Call(Ident(name), args)), st, CallAt(c, fuel));
      x.r.Done? && x.r.v.ErrV? ==> (|x.st.scopes| > |vs.st.scopes| <==> Accepts(c.funcs[name], vs.vs))
  {
    var call := CallAt(c, fuel);
    var vs := EvalArgs(c, args, st, call);
    var f := c.funcs[name];
    assert EvalCall(c, name, args, st, call) == CallFunc(c, fuel - 1, f, vs.vs, vs.st);
    assert Eval(c, Call(Ident(name), args), st, call) == CallFunc(c, fuel - 1, f, vs.vs, vs.st);
    if CallFunc(c, fuel - 1, f, vs.vs, vs.st).r.Failed? { FailedCallLeaksIff(c, fuel - 1, f, vs.vs, vs.st); }
  }

  const PANICS := FuncDef(Sync, "f", [], Void, Block([ExprStmt(Panic(Lit(Str("no"))))]))

  /** An accepted call that fails, caught: the shortest program that leaks. */
  lemma TryLeaksAScope(c: Context, fuel: nat)
    requires fuel > 0 && "f" in c.funcs && c.funcs["f"] == PANICS
    ensures var x := Exec(c, fuel, ExprStmt(Try(Call(Ident("f"), []))), START);
      x.flow == Fell && |x.st.scopes| == |START.scopes| + 1
  {
    PanickingCallLeaves(c, fuel - 1);
    var call := CallAt(c, fuel);
    assert EvalArgs(c, [], START, call) == Args([], START);
    assert EvalCall(c, "f", [], START, call) == CallFunc(c, fuel - 1, PANICS, [], START);
    assert Eval(c, Call(Ident("f"), []), START, call) == EvalCall(c, "f", [], START, call);
  }

  lemma PanickingCallLeaves(c: Context, fuel: nat)
    ensures var x := CallFunc(c, fuel, PANICS, [], START); x.r.Failed? && |x.st.scopes| == |START.scopes| + 1
  {
    var st := EnterFunc(PANICS, [], PushFrame(PANICS, START));
    var s := ExprStmt(Panic(Lit(Str("no"))));
    assert Eval(c, s.expr, PushScope(st), CallAt(c, fuel)).r.Failed?;
    assert Exec(c, fuel, s, PushScope(st)).st == PushScope(st);
    assert ExecStmts(c, fuel, [s], PushScope(st)) == Exec(c, fuel, s, PushScope(st));
    assert ExecBlock(c, fuel, PANICS.body, st) == Went(ExecStmts(c, fuel, [s], PushScope(st)).flow, PushScope(st));
  }

  // ── The primitives of a scope ──────────────────────────────────────────────

  lemma {:induction false} BreakFaultsBreaks(prims: seq<nat>, reason: string, faults: map<nat, string>)
    ensures var after := BreakFaults(prims, reason, faults);
      && (forall p :: p in after <==> p in faults || p in prims)
      && (forall p :: p in after ==> after[p] == if p in faults then faults[p] else reason)
  {
    if prims != [] {
      BreakFaultsBreaks(prims[1..], reason, if prims[0] in faults then faults else faults[prims[0] := reason]);
      assert forall p :: p in prims <==> p == prims[0] || p in prims[1..];
    }
  }

  /** However the body and the exit hook of a scope end, its primitives are broken afterwards, each with
      the first reason it was given; the scope's own reason says whether the body failed. */
  lemma ScopeBreaksItsPrims(c: Context, fuel: nat, d: ScopeDecl, body: Block, prims: seq<nat>, st: State)
    ensures var b := ExecBlock(c, fuel, body, st);
      var exit := ExecHook(c, fuel, Hook(d.members, false), b.st);
      var x := ExecScopeBody(c, fuel, d, body, prims, st);
      !x.flow.Halted? ==>
        forall p :: p in prims ==>
          && p in x.st.w.heap.faults
          && x.st.w.heap.faults[p] ==
             if p in exit.st.w.heap.faults then exit.st.w.heap.faults[p]
             else if b.flow.Threw? then SCOPE_CRASHED else SCOPE_GONE
  {
    var b := ExecBlock(c, fuel, body, st);
    var exit := ExecHook(c, fuel, Hook(d.members, false), b.st);
    BreakFaultsBreaks(prims, if b.flow.Threw? then SCOPE_CRASHED else SCOPE_GONE, exit.st.w.heap.faults);
  }
}
