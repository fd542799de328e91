/** No value but the one a `break` gives is `Never`: under calls that do not give it, expressions do
    not either; and if a second way to call functions follows the first, so does evaluation. */
module PlainValues {
  import opened Options
  import opened Ast
  import opened Values
  import opened Evaluator

  predicate Plain(v: Value) {
    match v
    case NeverV => false
    case SomeV(x) => Plain(x)
    case OkV(x) => Plain(x)
    case ErrV(x) => Plain(x)
    case _ => true
  }

  predicate PlainSeq(vs: seq<Value>) {
    forall i :: 0 <= i < |vs| ==> Plain(vs[i])
  }

  predicate PlainMap(m: map<string, Value>) {
    forall k :: k in m ==> Plain(m[k])
  }

  predicate PlainScopes(ss: seq<Scope>) {
    forall i :: 0 <= i < |ss| ==> PlainMap(ss[i])
  }

  predicate PlainHeap(h: Heap) {
    && (forall r :: r in h.objects ==> PlainMap(h.objects[r]))
    && (forall r :: r in h.lists ==> PlainSeq(h.lists[r]))
  }

  predicate PlainAnswer(a: Answer) {
    PlainResult(a.result) && PlainHeap(a.heap)
  }

  predicate PlainAnswers(answers: seq<Answer>) {
    forall i :: 0 <= i < |answers| ==> PlainAnswer(answers[i])
  }

  predicate PlainState(st: State) {
    PlainScopes(st.scopes) && PlainHeap(st.w.heap) && PlainAnswers(st.w.answers)
  }

  predicate PlainResult(r: Result) {
    r != Stopped(Strayed) && (r.Done? ==> Plain(r.v))
  }

  predicate PlainRan(a: Ran) {
    PlainResult(a.r) && PlainState(a.st)
  }

  /** The second evaluation is the first, or, unless it is `exact`, it strayed. */
  predicate Follows(exact: bool, a: Ran, b: Ran) {
    a == b || (!exact && b.r == Stopped(Strayed))
  }

  predicate FollowsArgs(exact: bool, a: RanArgs, b: RanArgs) {
    a == b || (!exact && b.NoArgs? && b.r == Stopped(Strayed))
  }

  /** On plain values the first way to call the functions of a context gives plain ones, and the second
      follows it. */
  ghost predicate SameCalls(c: Context, exact: bool, call1: Call, call2: Call) {
    forall f: FuncDef, vs: seq<Value>, st: State ::
      f in c.funcs.Values && PlainSeq(vs) && PlainState(st) ==>
        PlainRan(call1(f, vs, st)) && Follows(exact, call1(f, vs, st), call2(f, vs, st))
  }

  // ── The scope chain ────────────────────────────────────────────────────────

  lemma {:induction false} LookupPlain(scopes: seq<Scope>, name: string)
    requires PlainScopes(scopes)
    ensures Lookup(scopes, name).Some? ==> Plain(Lookup(scopes, name).value)
    decreases |scopes|
  {
    if scopes != [] && name !in scopes[|scopes| - 1] {
      LookupPlain(Pop(scopes), name);
    }
  }

  lemma DefinePlain(scopes: seq<Scope>, name: string, v: Value)
    requires PlainScopes(scopes) && Plain(v)
    ensures PlainScopes(DefineIn(scopes, name, v))
  {
  }

  lemma {:induction false} RebindPlain(scopes: seq<Scope>, name: string, v: Value)
    requires PlainScopes(scopes) && Plain(v)
    ensures PlainScopes(Rebind(scopes, name, v))
    decreases |scopes|
  {
    if scopes != [] && name !in scopes[|scopes| - 1] {
      RebindPlain(Pop(scopes), name, v);
    }
  }

  lemma {:induction false} DefineAllPlain(scopes: seq<Scope>, ps: seq<Param>, vs: seq<Value>)
    requires PlainScopes(scopes) && PlainSeq(vs)
    ensures PlainScopes(DefineAll(scopes, ps, vs))
    decreases |ps|
  {
    if ps != [] && vs != [] {
      DefinePlain(scopes, ps[0].name, vs[0]);
      DefineAllPlain(DefineIn(scopes, ps[0].name, vs[0]), ps[1..], vs[1..]);
    }
  }

  // ── Operations ─────────────────────────────────────────────────────────────

  lemma AskPlain(st: State)
    requires PlainState(st)
    ensures PlainRan(Ask(st))
  {
  }

  lemma SyncPlain(c: Context, name: string, v: Value, st: State)
    requires PlainState(st)
    ensures PlainState(st.(w := SyncExpose(c, name, v, st.w)))
  {
  }

  lemma OperatorsPlain(c: Context, op: BinOp, a: Value, b: Value, faults: map<nat, string>)
    ensures PlainResult(BinaryOp(c, op, a, b, faults))
  {
  }

  lemma FieldPlain(c: Context, o: Value, name: string, st: State)
    requires PlainState(st)
    ensures PlainRan(FieldOf(c, o, name, st))
  {
    AskPlain(st);
  }

  lemma ElementPlain(c: Context, o: Value, i: Value, h: Heap)
    requires PlainHeap(h)
    ensures PlainResult(ElementOf(c, o, i, h))
  {
  }

  lemma NewListPlain(vs: seq<Value>, st: State)
    requires PlainState(st) && PlainSeq(vs)
    ensures PlainRan(NewList(vs, st))
  {
  }

  lemma NewHandlePlain(k: HandleKind, st: State)
    requires PlainState(st)
    ensures PlainRan(NewHandle(k, st))
  {
  }

  lemma ConstructPlain(c: Context, name: string, vs: seq<Value>, st: State)
    requires PlainState(st) && PlainSeq(vs)
    ensures PlainRan(Construct(c, name, vs, st))
  {
    NewListPlain(vs, st);
  }

  // ── Expressions ────────────────────────────────────────────────────────────

  lemma {:induction false} EvalSame(c: Context, exact: bool, e: Expr, st: State, call1: Call, call2: Call)
    requires SameCalls(c, exact, call1, call2) && PlainState(st)
    ensures Follows(exact, Eval(c, e, st, call1), Eval(c, e, st, call2))
    ensures PlainRan(Eval(c, e, st, call1))
    decreases e, 1
  {
    match e {
      case Lit(_) =>
      case Ident(name) => LookupPlain(st.scopes, name);
      case Binary(_, _, _) => BinarySame(c, exact, e, st, call1, call2);
      case Unary(_, x) => EvalSame(c, exact, x, st, call1, call2);
      case Call(f, args) => if f.Ident? { CallSame(c, exact, f.name, args, st, call1, call2); }
      case MethodCall(o, _, args) => MethodSame(c, exact, e, st, call1, call2);
      case FieldAccess(_, _) => FieldSame(c, exact, e, st, call1, call2);
      case Index(o, i) => IndexSame(c, exact, e, st, call1, call2);
      case Await(x) =>
        EvalSame(c, exact, x, st, call1, call2);
        AskPlain(Eval(c, x, st, call1).st);
      case Try(x) => EvalSame(c, exact, x, st, call1, call2);
      case Panic(m) => EvalSame(c, exact, m, st, call1, call2);
      case Assert(_, _) => AssertSame(c, exact, e, st, call1, call2);
      case TypeCtor(name, _, args) =>
        ArgsSame(c, exact, args, st, call1, call2);
        var vs := EvalArgs(c, args, st, call1);
        if vs.Args? { ConstructPlain(c, name, vs.vs, vs.st); }
    }
  }

  lemma {:induction false} FieldSame(c: Context, exact: bool, e: Expr, st: State, call1: Call, call2: Call)
    requires e.FieldAccess? && SameCalls(c, exact, call1, call2) && PlainState(st)
    ensures Follows(exact, Eval(c, e, st, call1), Eval(c, e, st, call2)) && PlainRan(Eval(c, e, st, call1))
    decreases e, 0
  {
    EvalSame(c, exact, e.object', st, call1, call2);
    var a := Eval(c, e.object', st, call1);
    if a.r.Done? { FieldPlain(c, a.r.v, e.field, a.st); }
  }

  lemma {:induction false} AssertSame(c: Context, exact: bool, e: Expr, st: State, call1: Call, call2: Call)
    requires e.Assert? && SameCalls(c, exact, call1, call2) && PlainState(st)
    ensures Follows(exact, Eval(c, e, st, call1), Eval(c, e, st, call2)) && PlainRan(Eval(c, e, st, call1))
    decreases e, 0
  {
    EvalSame(c, exact, e.condition, st, call1, call2);
    if e.note.Some? { EvalSame(c, exact, e.note.value, Eval(c, e.condition, st, call1).st, call1, call2); }
  }

  lemma {:induction false} MethodSame(c: Context, exact: bool, e: Expr, st: State, call1: Call, call2: Call)
    requires e.MethodCall? && SameCalls(c, exact, call1, call2) && PlainState(st)
    ensures Follows(exact, Eval(c, e, st, call1), Eval(c, e, st, call2)) && PlainRan(Eval(c, e, st, call1))
    decreases e, 0
  {
    EvalSame(c, exact, e.receiver, st, call1, call2);
    var a := Eval(c, e.receiver, st, call1);
    if a.r.Done? {
      ArgsSame(c, exact, e.args, a.st, call1, call2);
      AskPlain(EvalArgs(c, e.args, a.st, call1).st);
    }
  }

  lemma {:induction false} IndexSame(c: Context, exact: bool, e: Expr, st: State, call1: Call, call2: Call)
    requires e.Index? && SameCalls(c, exact, call1, call2) && PlainState(st)
    ensures Follows(exact, Eval(c, e, st, call1), Eval(c, e, st, call2)) && PlainRan(Eval(c, e, st, call1))
    decreases e, 0
  {
    EvalSame(c, exact, e.object', st, call1, call2);
    var a := Eval(c, e.object', st, call1);
    if a.r.Done? {
      EvalSame(c, exact, e.index, a.st, call1, call2);
      var b := Eval(c, e.index, a.st, call1);
      if b.r.Done? { ElementPlain(c, a.r.v, b.r.v, b.st.w.heap); }
    }
  }

  lemma {:induction false} BinarySame(c: Context, exact: bool, e: Expr, st: State, call1: Call, call2: Call)
    requires e.Binary? && SameCalls(c, exact, call1, call2) && PlainState(st)
    ensures Follows(exact, Eval(c, e, st, call1), Eval(c, e, st, call2)) && PlainRan(Eval(c, e, st, call1))
    decreases e, 0
  {
    EvalSame(c, exact, e.left, st, call1, call2);
    var a := Eval(c, e.left, st, call1);
    if a.r.Done? {
      EvalSame(c, exact, e.right, a.st, call1, call2);
      OperatePlain(c, e.op, a.r.v, Eval(c, e.right, a.st, call1));
    }
  }

  lemma OperatePlain(c: Context, op: BinOp, left: Value, right: Ran)
    requires PlainRan(right)
    ensures PlainRan(Operate(c, op, left, right))
  {
    if right.r.Done? { OperatorsPlain(c, op, left, right.r.v, right.st.w.heap.faults); }
  }

  lemma {:induction false} ArgsSame(c: Context, exact: bool, es: seq<Expr>, st: State, call1: Call, call2: Call)
    requires SameCalls(c, exact, call1, call2) && PlainState(st)
    ensures FollowsArgs(exact, EvalArgs(c, es, st, call1), EvalArgs(c, es, st, call2))
    ensures var a := EvalArgs(c, es, st, call1);
      PlainState(a.st) && (a.Args? ==> PlainSeq(a.vs)) && (a.NoArgs? ==> !a.r.Done? && PlainResult(a.r))
    decreases es, 0
  {
    if es != [] {
      EvalSame(c, exact, es[0], st, call1, call2);
      var a := Eval(c, es[0], st, call1);
      if a.r.Done? { ArgsSame(c, exact, es[1..], a.st, call1, call2); }
    }
  }

  lemma {:induction false} CallSame(c: Context, exact: bool, name: string, args: seq<Expr>, st: State, call1: Call, call2: Call)
    requires SameCalls(c, exact, call1, call2) && PlainState(st)
    ensures Follows(exact, EvalCall(c, name, args, st, call1), EvalCall(c, name, args, st, call2))
    ensures PlainRan(EvalCall(c, name, args, st, call1))
    decreases args, 2
  {
    if name in BUILTINS {
      BuiltinSame(c, exact, name, args, st, call1, call2);
    } else if name in c.funcs {
      ArgsSame(c, exact, args, st, call1, call2);
      assert c.funcs[name] in c.funcs.Values;
    }
  }

  lemma {:induction false} BuiltinSame(c: Context, exact: bool, name: string, args: seq<Expr>, st: State, call1: Call, call2: Call)
    requires SameCalls(c, exact, call1, call2) && PlainState(st)
    ensures Follows(exact, EvalBuiltin(c, name, args, st, call1), EvalBuiltin(c, name, args, st, call2))
    ensures PlainRan(EvalBuiltin(c, name, args, st, call1))
    decreases args, 1
  {
    if name == "print" || name == "println" {
      ArgsSame(c, exact, args, st, call1, call2);
    } else if args != [] {
      AskPlain(st);
      EvalSame(c, exact, args[0], st, call1, call2);
      NewHandlePlain(Permit, Eval(c, args[0], st, call1).st);
    } else {
      AskPlain(st);
    }
  }

  // ── Assignments, spawns and scope objects ──────────────────────────────────

  lemma AssignVarPlain(c: Context, name: string, v: Value, st: State)
    requires PlainState(st) && Plain(v)
    ensures PlainRan(AssignVar(c, name, v, st))
  {
    RebindPlain(st.scopes, name, v);
    SyncPlain(c, name, v, State(Rebind(st.scopes, name, v), st.w));
  }

  lemma AssignFieldPlain(c: Context, o: Value, name: string, v: Value, st: State)
    requires PlainState(st) && Plain(v)
    ensures PlainRan(AssignField(c, o, name, v, st))
  {
    if o.ObjectV? {
      var st1 := SetObject(st, o.ref, ObjectAt(st.w.heap, o.ref)[name := v]);
      assert PlainState(st1);
      SyncPlain(c, name, v, st1);
    } else {
      AskPlain(st);
    }
  }

  lemma AssignElementPlain(c: Context, o: Value, i: Value, v: Value, st: State)
    requires PlainState(st) && Plain(v)
    ensures PlainRan(AssignElement(c, o, i, v, st))
  {
  }

  lemma AssignSame(c: Context, exact: bool, target: AssignTarget, value: Expr, st: State, call1: Call, call2: Call)
    requires SameCalls(c, exact, call1, call2) && PlainState(st)
    ensures Follows(exact, AssignTo(c, target, value, st, call1), AssignTo(c, target, value, st, call2))
    ensures PlainRan(AssignTo(c, target, value, st, call1))
  {
    EvalSame(c, exact, value, st, call1, call2);
    var a := Eval(c, value, st, call1);
    if a.r.Done? {
      if target.ToIdent? {
        AssignVarPlain(c, target.name, a.r.v, a.st);
      } else {
        EvalSame(c, exact, target.object', a.st, call1, call2);
        var b := Eval(c, target.object', a.st, call1);
        if b.r.Done? && target.ToField? {
          AssignFieldPlain(c, b.r.v, target.field, a.r.v, b.st);
        } else if b.r.Done? {
          EvalSame(c, exact, target.index, b.st, call1, call2);
          var i := Eval(c, target.index, b.st, call1);
          if i.r.Done? { AssignElementPlain(c, b.r.v, i.r.v, a.r.v, i.st); }
        }
      }
    }
  }

  lemma SpawnSame(c: Context, exact: bool, args: seq<Expr>, handle: HandleBind, st: State, call1: Call, call2: Call)
    requires SameCalls(c, exact, call1, call2) && PlainState(st)
    ensures Follows(exact, SpawnThread(c, args, handle, st, call1), SpawnThread(c, args, handle, st, call2))
    ensures PlainRan(SpawnThread(c, args, handle, st, call1))
  {
    ArgsSame(c, exact, args, st, call1, call2);
    var vs := EvalArgs(c, args, st, call1);
    AskPlain(vs.st);
    if handle.Bind? {
      var st1 := Ask(vs.st).st;
      DefinePlain(st1.scopes, handle.name, HandleV(ThreadHandle, st1.w.next));
    }
  }

  lemma LetPlain(c: Context, name: string, v: Value, st: State)
    requires PlainState(st) && Plain(v)
    ensures PlainState(DefineVar(c, name, v, st))
  {
    DefinePlain(st.scopes, name, v);
    SyncPlain(c, name, v, State(DefineIn(st.scopes, name, v), st.w));
  }

  lemma {:induction false} BindParamsPlain(ps: seq<Param>, vs: seq<Value>)
    requires PlainSeq(vs)
    ensures PlainMap(BindParams(ps, vs))
    decreases |ps|
  {
    if ps != [] && vs != [] { BindParamsPlain(ps[1..], vs[1..]); }
  }

  lemma {:induction false} InitSame(c: Context, exact: bool, ms: seq<ScopeMember>, o: map<string, Value>, st: State, call1: Call, call2: Call)
    requires SameCalls(c, exact, call1, call2) && PlainState(st) && PlainMap(o)
    ensures var r, q := InitFields(c, ms, o, st, call1), InitFields(c, ms, o, st, call2);
      r == q || (!exact && q.0 == Stopped(Strayed))
    ensures var r := InitFields(c, ms, o, st, call1); PlainResult(r.0) && PlainMap(r.1) && PlainState(r.2)
    decreases |ms|
  {
    if ms != [] {
      if !ms[0].ScopeDefine? {
        InitSame(c, exact, ms[1..], o, st, call1, call2);
      } else if ms[0].d.initializer.None? {
        InitSame(c, exact, ms[1..], o[ms[0].d.name := DefaultValue(ms[0].d.ty)], st, call1, call2);
      } else {
        EvalSame(c, exact, ms[0].d.initializer.value, st, call1, call2);
        var a := Eval(c, ms[0].d.initializer.value, st, call1);
        if a.r.Done? { InitSame(c, exact, ms[1..], o[ms[0].d.name := a.r.v], a.st, call1, call2); }
      }
    }
  }

  lemma BindSelfPlain(o: map<string, Value>, st: State)
    requires PlainMap(o) && PlainState(st)
    ensures PlainState(BindSelf(o, st))
  {
    var st1 := SetObject(st, st.w.next, o);
    assert PlainState(st1);
    DefinePlain(st1.scopes, "self", ObjectV(st.w.next));
  }
}
