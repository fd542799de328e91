/** The constant folder behind the lint on assertions
    (crates/tessera-lint/src/passes/assert_const_condition.rs), and when the evaluator agrees with it. */
module ConstFold {
  import opened Options
  import opened Ast
  import opened Grammar
  import opened RoundTrip
  import ErrorFree
  import opened Values
  import opened Evaluator

  datatype Const = BoolC(b: bool) | IntC(n: int) | DoubleC(d: real) | CharC(c: char) | StrC(s: string)

  datatype Ordering = Less | Equal | Greater

  function IntOrder(a: int, b: int): Ordering {
    if a < b then Less else if a == b then Equal else Greater
  }

  function RealOrder(a: real, b: real): Ordering {
    if a < b then Less else if a == b then Equal else Greater
  }

  function StringOrder(a: string, b: string): Ordering {
    if a == [] || b == [] then IntOrder(|a|, |b|)
    else if a[0] == b[0] then StringOrder(a[1..], b[1..])
    else IntOrder(a[0] as int, b[0] as int)
  }

  /** `compare`: two constants of one ordered type. */
  function Compare(a: Const, b: Const): Option<Ordering> {
    match (a, b)
    case (IntC(x), IntC(y)) => Some(IntOrder(x, y))
    case (DoubleC(x), DoubleC(y)) => Some(RealOrder(x, y))
    case (CharC(x), CharC(y)) => Some(IntOrder(x as int, y as int))
    case (StrC(x), StrC(y)) => Some(StringOrder(x, y))
    case _ => None
  }

  predicate IsOrder(op: BinOp) {
    op == OpLt || op == Le || op == OpGt || op == Ge
  }

  predicate Holds(op: BinOp, o: Ordering)
    requires IsOrder(op)
  {
    match op
    case OpLt => o == Less
    case Le => o != Greater
    case OpGt => o == Greater
    case Ge => o != Less
  }

  function FoldLit(l: Literal): Option<Const> {
    match l
    case Bool(b) => Some(BoolC(b))
    case Int(n) => Some(IntC(n))
    case Double(d) => Some(DoubleC(d))
    case Char(c) => Some(CharC(c))
    case Str(s) => Some(StrC(s))
    case NoneLit => None
  }

  /** Both operands are folded before the operator is looked at. */
  function Fold(e: Expr): Option<Const> {
    match e
    case Lit(l) => FoldLit(l)
    case Unary(op, x) =>
      var k := Fold(x);
      if k.Some? && k.value.BoolC? && op == Not then Some(BoolC(!k.value.b)) else None
    case Binary(op, l, r) =>
      var a, b := Fold(l), Fold(r);
      if a.None? || b.None? then None else FoldOp(op, a.value, b.value)
    case _ => None
  }

  function FoldOp(op: BinOp, a: Const, b: Const): Option<Const> {
    if op == And then if a.BoolC? && b.BoolC? then Some(BoolC(a.b && b.b)) else None
    else if op == Or then if a.BoolC? && b.BoolC? then Some(BoolC(a.b || b.b)) else None
    else if op == OpEq then Some(BoolC(a == b))
    else if op == Ne then Some(BoolC(a != b))
    else if IsOrder(op) && Compare(a, b).Some? then Some(BoolC(Holds(op, Compare(a, b).value)))
    else None
  }

  // ── What folds ─────────────────────────────────────────────────────────────

  datatype Kind = BoolK | IntK | DoubleK | CharK | StrK

  function KindOfConst(k: Const): Kind {
    match k
    case BoolC(_) => BoolK
    case IntC(_) => IntK
    case DoubleC(_) => DoubleK
    case CharC(_) => CharK
    case StrC(_) => StrK
  }

  /** A type for constant expressions: logic on booleans, equality on anything, order within one kind
      that is not boolean, and no arithmetic. */
  function KindOf(e: Expr): Option<Kind> {
    match e
    case Lit(Bool(_)) => Some(BoolK)
    case Lit(Int(_)) => Some(IntK)
    case Lit(Double(_)) => Some(DoubleK)
    case Lit(Char(_)) => Some(CharK)
    case Lit(Str(_)) => Some(StrK)
    case Unary(Not, x) => if KindOf(x) == Some(BoolK) then Some(BoolK) else None
    case Binary(op, l, r) =>
      var a, b := KindOf(l), KindOf(r);
      if a.None? || b.None? then None
      else if op in {And, Or} then if a == b == Some(BoolK) then Some(BoolK) else None
      else if op in {OpEq, Ne} then Some(BoolK)
      else if op in {OpLt, Le, OpGt, Ge} && a == b && a != Some(BoolK) then Some(BoolK)
      else None
    case _ => None
  }

  /** An expression folds exactly if it has a type, to a constant of it. */
  lemma {:induction false} FoldsIff(e: Expr)
    ensures Fold(e).Some? <==> KindOf(e).Some?
    ensures Fold(e).Some? ==> KindOf(e) == Some(KindOfConst(Fold(e).value))
  {
    match e {
      case Unary(_, x) => FoldsIff(x);
      case Binary(op, l, r) =>
        FoldsIff(l);
        FoldsIff(r);
        if Fold(l).Some? && Fold(r).Some? { OperatorFoldsIff(op, Fold(l).value, Fold(r).value); }
      case _ =>
    }
  }

  lemma OperatorFoldsIff(op: BinOp, a: Const, b: Const)
    ensures FoldOp(op, a, b).Some? <==>
      || (op in {And, Or} && a.BoolC? && b.BoolC?) || op in {OpEq, Ne}
      || (op in {OpLt, Le, OpGt, Ge} && KindOfConst(a) == KindOfConst(b) && !a.BoolC?)
    ensures FoldOp(op, a, b).Some? ==> FoldOp(op, a, b).value.BoolC?
  {
  }

  /** `a` comes before `b` in a dictionary: it is a beginning of `b`, or smaller where they first differ. */
  ghost predicate Before(a: string, b: string) {
    exists k: nat :: ParallelTo(a, b, k) && (k == |a| < |b| || (k < |a| && k < |b| && a[k] < b[k]))
  }

  predicate ParallelTo(a: string, b: string, k: nat) {
    k <= |a| && k <= |b| && a[..k] == b[..k]
  }

  /** Texts are ordered as in a dictionary. */
  lemma {:induction false} StringOrderIs(a: string, b: string)
    ensures StringOrder(a, b) == Equal <==> a == b
    ensures StringOrder(a, b) == Less <==> Before(a, b)
    ensures StringOrder(a, b) == Greater <==> Before(b, a)
    decreases |a|
  {
    if a == [] || b == [] || a[0] != b[0] {
      assert ParallelTo(a, b, 0) && ParallelTo(b, a, 0);
      DifferAtOnce(a, b);
      DifferAtOnce(b, a);
    } else {
      StringOrderIs(a[1..], b[1..]);
      BeforeTails(a, b);
      BeforeTails(b, a);
    }
  }

  lemma DifferAtOnce(a: string, b: string)
    requires a == [] || b == [] || a[0] != b[0]
    ensures forall k: nat :: ParallelTo(a, b, k) ==> k == 0
  {
    forall k: nat | ParallelTo(a, b, k) ensures k == 0 { SameBeginning(a, b, k); }
  }

  lemma SameBeginning(a: string, b: string, k: nat)
    requires ParallelTo(a, b, k)
    ensures k > 0 ==> a != [] && b != [] && a[0] == b[0]
  {
    if k > 0 { assert a[..k][0] == b[..k][0]; }
  }

  lemma BeforeTails(a: string, b: string)
    requires a != [] && b != [] && a[0] == b[0]
    ensures Before(a, b) <==> Before(a[1..], b[1..])
  {
    if Before(a, b) {
      var k: nat :| ParallelTo(a, b, k) && (k == |a| < |b| || (k < |a| && k < |b| && a[k] < b[k]));
      assert k > 0;
      assert a[1..][..k - 1] == a[..k][1..] && b[1..][..k - 1] == b[..k][1..];
      assert ParallelTo(a[1..], b[1..], k - 1);
    }
    if Before(a[1..], b[1..]) {
      var x, y := a[1..], b[1..];
      var k: nat :| ParallelTo(x, y, k) && (k == |x| < |y| || (k < |x| && k < |y| && x[k] < y[k]));
      assert a[..k + 1] == [a[0]] + x[..k] && b[..k + 1] == [b[0]] + y[..k];
      assert ParallelTo(a, b, k + 1);
    }
  }

  /** So these foldings, which the evaluator does not follow, are what they should be. */
  lemma TextComparisons(a: string, b: string, x: char, y: char)
    ensures FoldOp(OpLt, StrC(a), StrC(b)) == FoldOp(OpGt, StrC(b), StrC(a)) == Some(BoolC(Before(a, b)))
    ensures FoldOp(Le, StrC(a), StrC(b)) == FoldOp(Ge, StrC(b), StrC(a)) == Some(BoolC(a == b || Before(a, b)))
    ensures FoldOp(OpLt, CharC(x), CharC(y)) == FoldOp(OpGt, CharC(y), CharC(x)) == Some(BoolC(x < y))
    ensures FoldOp(Le, CharC(x), CharC(y)) == FoldOp(Ge, CharC(y), CharC(x)) == Some(BoolC(x <= y))
  {
    StringOrderIs(a, b);
    StringOrderIs(b, a);
  }

  /** The parser refuses exactly the integers that 32 bits would change. */
  lemma OverflowIff(n: int)
    ensures FitsInt(n) <==> LiteralValue(Int(n)) == IntV(n)
  {
  }

  // ── Agreement with the evaluator ───────────────────────────────────────────

  function ToValue(k: Const): Value {
    match k
    case BoolC(b) => BoolV(b)
    case IntC(n) => IntV(n)
    case DoubleC(d) => DoubleV(d)
    case CharC(c) => CharV(c)
    case StrC(s) => StrV(s)
  }

  /** The literals are ones the parser accepts without an error. */
  predicate InRange(e: Expr) {
    match e
    case Lit(l) => l.Int? ==> FitsInt(l.n)
    case Unary(_, x) => InRange(x)
    case Binary(_, l, r) => InRange(l) && InRange(r)
    case _ => true
  }

  /** The evaluator orders numbers only; a part that a short circuit skips does not matter. */
  predicate Runs(e: Expr) {
    match e
    case Unary(_, x) => Runs(x)
    case Binary(op, l, r) =>
      && Runs(l)
      && ((op == And && Fold(l) == Some(BoolC(false))) || (op == Or && Fold(l) == Some(BoolC(true))) || Runs(r))
      && (IsOrder(op) ==> Fold(l).Some? && (Fold(l).value.IntC? || Fold(l).value.DoubleC?))
    case _ => true
  }

  /** Exactly when it runs, a folded expression evaluates to its constant, in any state and without
      touching it; otherwise it is a type error. */
  lemma {:induction false} FoldAgrees(c: Context, e: Expr, st: State, call: Call)
    requires Fold(e).Some? && InRange(e)
    ensures Eval(c, e, st, call)
         == if Runs(e) then Ran(Done(ToValue(Fold(e).value)), st) else Ran(Fail(c, "TypeMismatch"), st)
    decreases e
  {
    match e {
      case Lit(l) =>
      case Unary(_, x) => FoldAgrees(c, x, st, call);
      case Binary(op, l, r) =>
        FoldAgrees(c, l, st, call);
        FoldAgrees(c, r, st, call);
        if Runs(l) && Runs(r) && op != And && op != Or {
          OpAgrees(c, op, Fold(l).value, Fold(r).value, st.w.heap.faults);
        }
    }
  }

  lemma OpAgrees(c: Context, op: BinOp, a: Const, b: Const, faults: map<nat, string>)
    requires FoldOp(op, a, b).Some? && op != And && op != Or
    ensures BinaryOp(c, op, ToValue(a), ToValue(b), faults)
         == if IsOrder(op) && !a.IntC? && !a.DoubleC? then Fail(c, "TypeMismatch")
            else Done(ToValue(FoldOp(op, a, b).value))
  {
    assert op == OpEq || op == Ne || IsOrder(op);
    assert ValuesEqual(ToValue(a), ToValue(b), faults) == (a == b);
  }

  /** If folding and evaluation both give a value, they give the same one. */
  lemma FoldedValuesAreEqual(c: Context, e: Expr, st: State, call: Call)
    requires Fold(e).Some? && InRange(e)
    ensures Eval(c, e, st, call).r.Done? <==> Runs(e)
    ensures Eval(c, e, st, call).r.Done? ==> Eval(c, e, st, call) == Ran(Done(ToValue(Fold(e).value)), st)
  {
    FoldAgrees(c, e, st, call);
  }

  lemma {:induction false} WritableIsInRange(e: Expr)
    requires Writable(e)
    ensures InRange(e)
  {
    match e {
      case Binary(_, l, r) => WritableIsInRange(l); WritableIsInRange(r);
      case Unary(_, x) => WritableIsInRange(x);
      case _ =>
    }
  }

  /** Whatever the parser reads without an error has its literals in range, so for it the folder and
      the evaluator agree. */
  lemma ParsedExpressionsAgree(c: Context, s: Input, st: State, call: Evaluator.Call)
    requires |Expression(s).next.errors| == |s.errors| && Fold(Expression(s).v).Some?
    ensures var e := Expression(s).v;
      Eval(c, e, st, call) == if Runs(e) then Ran(Done(ToValue(Fold(e).value)), st) else Ran(Fail(c, "TypeMismatch"), st)
  {
    ErrorFree.ExpressionOk(s);
    WritableIsInRange(Expression(s).v);
    FoldAgrees(c, Expression(s).v, st, call);
  }

  // ── What the lint says about an assertion ──────────────────────────────────

  /** An assertion reported as always true never fails as an assertion. */
  lemma AlwaysTrueNeverFails(c: Context, condition: Expr, note: Option<Expr>, st: State, call: Call)
    requires Fold(condition) == Some(BoolC(true)) && InRange(condition)
    ensures var r := Eval(c, Assert(condition, note), st, call).r;
      if Runs(condition) then r == Done(VoidV) else r == Fail(c, "TypeMismatch")
  {
    FoldAgrees(c, condition, st, call);
  }

  /** One reported as always false never passes. */
  lemma AlwaysFalseNeverPasses(c: Context, condition: Expr, note: Option<Expr>, st: State, call: Call)
    requires Fold(condition) == Some(BoolC(false)) && InRange(condition)
    ensures !Eval(c, Assert(condition, note), st, call).r.Done?
    ensures Runs(condition) && note.None? ==>
      Eval(c, Assert(condition, note), st, call).r == Failed(RuntimeError("AssertionFailed", "assertion failed"))
  {
    FoldAgrees(c, condition, st, call);
  }

  /** The folder keeps 64 bits and the evaluator 32. */
  lemma OutOfRangeDisagrees(c: Context, st: State, call: Call)
    ensures var e := Binary(OpEq, Lit(Int(0x1_0000_0000)), Lit(Int(0)));
      !InRange(e) && Fold(e) == Some(BoolC(false)) && Eval(c, e, st, call).r == Done(BoolV(true))
  {
    assert Wrap(0x1_0000_0000) == 0;
  }

  /** The folder orders characters and the evaluator does not. */
  lemma OrderedCharsDoNotRun(c: Context, st: State, call: Call)
    ensures var e := Binary(OpLt, Lit(Char('a')), Lit(Char('b')));
      Fold(e) == Some(BoolC(true)) && Eval(c, e, st, call).r == Fail(c, "TypeMismatch")
  {
    var e := Binary(OpLt, Lit(Char('a')), Lit(Char('b')));
    FoldAgrees(c, e, st, call);
    assert !Runs(e);
  }

  // ── The visitor ────────────────────────────────────────────────────────────

  /** For every assertion in `e`, outermost and leftmost first, what its condition folds to. */
  function Verdicts(e: Expr): seq<bool>
    decreases e, 1
  {
    match e
    case Binary(_, l, r) => Verdicts(l) + Verdicts(r)
    case Unary(_, x) => Verdicts(x)
    case Call(f, args) => Verdicts(f) + VerdictsOf(args)
    case MethodCall(o, _, args) => Verdicts(o) + VerdictsOf(args)
    case FieldAccess(o, _) => Verdicts(o)
    case Index(o, i) => Verdicts(o) + Verdicts(i)
    case Await(x) => Verdicts(x)
    case Try(x) => Verdicts(x)
    case Panic(m) => Verdicts(m)
    case Assert(x, note) => Verdict(x) + Verdicts(x) + if note.Some? then Verdicts(note.value) else []
    case TypeCtor(_, _, args) => VerdictsOf(args)
    case _ => []
  }

  function Verdict(condition: Expr): seq<bool> {
    var k := Fold(condition);
    if k.Some? && k.value.BoolC? then [k.value.b] else []
  }

  function VerdictsOf(es: seq<Expr>): seq<bool>
    decreases es
  {
    if es == [] then [] else Verdicts(es[0]) + VerdictsOf(es[1..])
  }

  lemma Regroup(a: seq<bool>, b: seq<bool>, c: seq<bool>, d: seq<bool>)
    ensures ((a + b) + c) + d == a + (b + c + d)
  {
  }

  class Visitor {
    var diags: seq<bool>

    constructor ()
      ensures diags == []
    {
      diags := [];
    }

    method VisitExpr(e: Expr)
      modifies this
      ensures diags == old(diags) + Verdicts(e)
      decreases e, 1
    {
      match e {
        case Lit(_) =>
        case Ident(_) =>
        case Binary(_, l, r) => VisitExpr(l); VisitExpr(r);
        case Unary(_, x) => VisitExpr(x);
        case Call(f, args) => VisitExpr(f); VisitAll(args);
        case MethodCall(o, _, args) => VisitExpr(o); VisitAll(args);
        case FieldAccess(o, _) => VisitExpr(o);
        case Index(o, i) => VisitExpr(o); VisitExpr(i);
        case Await(x) => VisitExpr(x);
        case Try(x) => VisitExpr(x);
        case Panic(m) => VisitExpr(m);
        case Assert(_, _) => VisitAssert(e);
        case TypeCtor(_, _, args) => VisitAll(args);
      }
    }

    method VisitAssert(e: Expr)
      requires e.Assert?
      modifies this
      ensures diags == old(diags) + Verdicts(e)
      decreases e, 0
    {
      ghost var had := diags;
      Judge(e.condition);
      VisitExpr(e.condition);
      ghost var note := if e.note.Some? then Verdicts(e.note.value) else [];
      if e.note.Some? {
        VisitExpr(e.note.value);
      }
      Regroup(had, Verdict(e.condition), Verdicts(e.condition), note);
    }

    /** The verdict on one condition, if it is constant. */
    method Judge(condition: Expr)
      modifies this
      ensures diags == old(diags) + Verdict(condition)
    {
      var k := Fold(condition);
      if k.Some? && k.value.BoolC? {
        diags := diags + [k.value.b];
      }
    }

    method VisitAll(es: seq<Expr>)
      modifies this
      ensures diags == old(diags) + VerdictsOf(es)
      decreases es
    {
      for i := 0 to |es|
        invariant diags + VerdictsOf(es[i..]) == old(diags) + VerdictsOf(es)
      {
        ghost var had := diags;
        VisitExpr(es[i]);
        assert es[i..][1..] == es[i + 1..];
        assert had + (Verdicts(es[i]) + VerdictsOf(es[i + 1..])) == (had + Verdicts(es[i])) + VerdictsOf(es[i + 1..]);
      }
    }
  }
}
