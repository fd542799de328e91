/** Two ways to call functions of which the first may stop early for some reason: evaluation under the
    first then stops for that reason too, or is evaluation under the second. */
module Cutoff {
  import opened Options
  import opened Ast
  import opened Values
  import opened Evaluator

  predicate Cut(why: StopReason, a: Ran, b: Ran) {
    a.r == Stopped(why) || a == b
  }

  predicate CutArgs(why: StopReason, a: RanArgs, b: RanArgs) {
    (a.NoArgs? && a.r == Stopped(why)) || a == b
  }

  ghost predicate CutCalls(why: StopReason, call1: Call, call2: Call) {
    forall f: FuncDef, vs: seq<Value>, st: State :: Cut(why, call1(f, vs, st), call2(f, vs, st))
  }

  lemma {:induction false} EvalCut(c: Context, why: StopReason, e: Expr, st: State, call1: Call, call2: Call)
    requires CutCalls(why, call1, call2)
    ensures Cut(why, Eval(c, e, st, call1), Eval(c, e, st, call2))
    decreases e, 1
  {
    match e {
      case Lit(_) =>
      case Ident(_) =>
      case Binary(_, _, _) => BinaryCut(c, why, e, st, call1, call2);
      case Unary(_, x) => EvalCut(c, why, x, st, call1, call2);
      case Call(f, args) => if f.Ident? { CallCut(c, why, f.name, args, st, call1, call2); }
      case MethodCall(o, _, args) => MethodCut(c, why, e, st, call1, call2);
      case FieldAccess(o, _) => EvalCut(c, why, o, st, call1, call2);
      case Index(_, _) => IndexCut(c, why, e, st, call1, call2);
      case Await(x) => EvalCut(c, why, x, st, call1, call2);
      case Try(x) => EvalCut(c, why, x, st, call1, call2);
      case Panic(m) => EvalCut(c, why, m, st, call1, call2);
      case Assert(x, note) =>
        EvalCut(c, why, x, st, call1, call2);
        if note.Some? { EvalCut(c, why, note.value, Eval(c, x, st, call1).st, call1, call2); }
      case TypeCtor(_, _, args) => ArgsCut(c, why, args, st, call1, call2);
    }
  }

  lemma {:induction false} BinaryCut(c: Context, why: StopReason, e: Expr, st: State, call1: Call, call2: Call)
    requires e.Binary? && CutCalls(why, call1, call2)
    ensures Cut(why, Eval(c, e, st, call1), Eval(c, e, st, call2))
    decreases e, 0
  {
    EvalCut(c, why, e.left, st, call1, call2);
    EvalCut(c, why, e.right, Eval(c, e.left, st, call1).st, call1, call2);
  }

  lemma {:induction false} IndexCut(c: Context, why: StopReason, e: Expr, st: State, call1: Call, call2: Call)
    requires e.Index? && CutCalls(why, call1, call2)
    ensures Cut(why, Eval(c, e, st, call1), Eval(c, e, st, call2))
    decreases e, 0
  {
    EvalCut(c, why, e.object', st, call1, call2);
    EvalCut(c, why, e.index, Eval(c, e.object', st, call1).st, call1, call2);
  }

  lemma {:induction false} MethodCut(c: Context, why: StopReason, e: Expr, st: State, call1: Call, call2: Call)
    requires e.MethodCall? && CutCalls(why, call1, call2)
    ensures Cut(why, Eval(c, e, st, call1), Eval(c, e, st, call2))
    decreases e, 0
  {
    EvalCut(c, why, e.receiver, st, call1, call2);
    ArgsCut(c, why, e.args, Eval(c, e.receiver, st, call1).st, call1, call2);
  }

  lemma {:induction false} ArgsCut(c: Context, why: StopReason, es: seq<Expr>, st: State, call1: Call, call2: Call)
    requires CutCalls(why, call1, call2)
    ensures CutArgs(why, EvalArgs(c, es, st, call1), EvalArgs(c, es, st, call2))
    decreases es, 0
  {
    if es != [] {
      EvalCut(c, why, es[0], st, call1, call2);
      ArgsCut(c, why, es[1..], Eval(c, es[0], st, call1).st, call1, call2);
    }
  }

  lemma {:induction false} CallCut(c: Context, why: StopReason, name: string, args: seq<Expr>, st: State, call1: Call, call2: Call)
    requires CutCalls(why, call1, call2)
    ensures Cut(why, EvalCall(c, name, args, st, call1), EvalCall(c, name, args, st, call2))
    decreases args, 1
  {
    ArgsCut(c, why, args, st, call1, call2);
    if args != [] { EvalCut(c, why, args[0], st, call1, call2); }
  }

  lemma AssignCut(c: Context, why: StopReason, target: AssignTarget, value: Expr, st: State, call1: Call, call2: Call)
    requires CutCalls(why, call1, call2)
    ensures Cut(why, AssignTo(c, target, value, st, call1), AssignTo(c, target, value, st, call2))
  {
    EvalCut(c, why, value, st, call1, call2);
    var a := Eval(c, value, st, call1);
    if !target.ToIdent? {
      EvalCut(c, why, target.object', a.st, call1, call2);
      if target.ToIndex? { EvalCut(c, why, target.index, Eval(c, target.object', a.st, call1).st, call1, call2); }
    }
  }

  lemma {:induction false} InitCut(c: Context, why: StopReason, ms: seq<ScopeMember>, o: map<string, Value>, st: State, call1: Call, call2: Call)
    requires CutCalls(why, call1, call2)
    ensures var a, b := InitFields(c, ms, o, st, call1), InitFields(c, ms, o, st, call2);
      a.0 == Stopped(why) || a == b
    decreases |ms|
  {
    if ms != [] {
      if !ms[0].ScopeDefine? {
        InitCut(c, why, ms[1..], o, st, call1, call2);
      } else if ms[0].d.initializer.None? {
        InitCut(c, why, ms[1..], o[ms[0].d.name := DefaultValue(ms[0].d.ty)], st, call1, call2);
      } else {
        EvalCut(c, why, ms[0].d.initializer.value, st, call1, call2);
        var a := Eval(c, ms[0].d.initializer.value, st, call1);
        if a.r.Done? { InitCut(c, why, ms[1..], o[ms[0].d.name := a.r.v], a.st, call1, call2); }
      }
    }
  }
}
