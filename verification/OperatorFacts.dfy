/** What the operators and the helpers on values mean (crates/tessera-interp/src/eval.rs and
    eval/helpers.rs), without reference to how they compute it. */
module OperatorFacts {
  import opened Options
  import opened Ast
  import opened Values
  import opened Evaluator
  import F = EvalFacts

  // ── Truth ──────────────────────────────────────────────────────────────────

  /** Three values are false: `false`, zero and `None`. */
  lemma OnlyThreeAreFalse(v: Value)
    ensures !Truthy(v) <==> v in {BoolV(false), IntV(0), NoneV}
  {
  }

  /** A condition decides by that, and so do the short circuits, which do not even look at the other
      operand; whatever it would have been, and whatever the operator gives is a boolean. */
  lemma ConditionsDecide(c: Context, l: Expr, r: Expr, other: Expr, st: State, call: Call)
    requires Eval(c, l, st, call).r.Done?
    ensures var a := Eval(c, l, st, call);
      && (a.r.v in {BoolV(false), IntV(0), NoneV} ==>
           && Eval(c, Binary(And, l, r), st, call) == Eval(c, Binary(And, l, other), st, call) == Ran(Done(BoolV(false)), a.st)
           && Eval(c, Binary(Or, l, r), st, call).st == Eval(c, r, a.st, call).st)
      && (a.r.v !in {BoolV(false), IntV(0), NoneV} ==>
           && Eval(c, Binary(Or, l, r), st, call) == Eval(c, Binary(Or, l, other), st, call) == Ran(Done(BoolV(true)), a.st)
           && Eval(c, Binary(And, l, r), st, call).st == Eval(c, r, a.st, call).st)
  {
    OnlyThreeAreFalse(Eval(c, l, st, call).r.v);
  }

  /** Where the first operand does not decide, the second does. */
  lemma SecondOperandDecides(c: Context, op: BinOp, l: Expr, r: Expr, st: State, call: Call)
    requires Eval(c, l, st, call).r.Done? && (op == And || op == Or)
    requires (Eval(c, l, st, call).r.v in {BoolV(false), IntV(0), NoneV}) <==> op == Or
    ensures var b := Eval(c, r, Eval(c, l, st, call).st, call);
      Eval(c, Binary(op, l, r), st, call)
      == if b.r.Done? then Ran(Done(BoolV(b.r.v !in {BoolV(false), IntV(0), NoneV})), b.st) else b
  {
    OnlyThreeAreFalse(Eval(c, l, st, call).r.v);
    var b := Eval(c, r, Eval(c, l, st, call).st, call);
    if b.r.Done? { OnlyThreeAreFalse(b.r.v); }
  }

  // ── Equality ───────────────────────────────────────────────────────────────

  predicate Base(v: Value) {
    v.BoolV? || v.IntV? || v.DoubleV? || v.CharV? || v.StrV? || v.VoidV? || v.NoneV?
  }

  /** On the base values `==` is equality, and a base value equals nothing else. */
  lemma BaseEquality(a: Value, b: Value, faults: map<nat, string>)
    requires Base(a)
    ensures ValuesEqual(a, b, faults) <==> a == b
    ensures ValuesEqual(b, a, faults) <==> a == b
  {
  }

  /** Other values are equal only as a broken primitive or failed request and the error with its text. */
  lemma FaultEquality(a: Value, b: Value, faults: map<nat, string>)
    requires !Base(a) && !Base(b)
    ensures ValuesEqual(a, b, faults) <==> IsFault(a, b, faults) || IsFault(b, a, faults)
    ensures ValuesEqual(a, b, faults) == ValuesEqual(b, a, faults)
  {
  }

  predicate IsFault(a: Value, b: Value, faults: map<nat, string>) {
    && (a.HandleV? && (a.handle.Signal? || a.handle.Contract? || a.handle.Permit? || a.handle.HandlerFuture?))
    && a.ref in faults && b == ErrV(StrV(faults[a.ref]))
  }

  // ── Numbers ────────────────────────────────────────────────────────────────

  /** Integers and doubles are ordered as numbers, and every operator says so. */
  lemma OrderOfNumbers(c: Context, a: int, b: int, x: real, y: real)
    ensures IntOp(c, OpLt, a, b) == IntOp(c, OpGt, b, a) == Done(BoolV(a < b))
    ensures IntOp(c, Le, a, b) == IntOp(c, Ge, b, a) == Done(BoolV(!(b < a)))
    ensures DoubleOp(c, OpLt, x, y) == DoubleOp(c, OpGt, y, x) == Done(BoolV(x < y))
    ensures DoubleOp(c, Le, x, y) == DoubleOp(c, Ge, y, x) == Done(BoolV(!(y < x)))
  {
  }

  /** Doubles add and multiply as real numbers do, and subtraction undoes addition. */
  lemma DoubleArithmetic(c: Context, x: real, y: real)
    ensures DoubleOp(c, Add, x, y) == DoubleOp(c, Add, y, x) == Done(DoubleV(x + y))
    ensures DoubleOp(c, Sub, x + y, y) == Done(DoubleV(x))
    ensures DoubleOp(c, Mul, x, y) == Done(DoubleV(y * x))
    ensures DoubleOp(c, Div, x, y) == Done(DoubleV(c.host.divide(x, y)))
  {
  }

  /** Negation is what adds up to zero in 32 bits, and `!` is for booleans only. */
  lemma Negation(c: Context, v: Value)
    requires v.IntV? ==> F.IsInt(v.n)
    ensures match UnaryOpOf(c, Neg, v)
      case Done(IntV(m)) => v.IntV? && F.IsInt(m) && F.SameBits(v.n + m, 0)
      case Done(DoubleV(d)) => v.DoubleV? && v.d + d == 0.0
      case Failed(e) => !v.IntV? && !v.DoubleV? && e.kind == "TypeMismatch"
      case _ => false
    ensures match UnaryOpOf(c, Not, v)
      case Done(w) => v.BoolV? && w.BoolV? && w.b != v.b
      case Failed(e) => !v.BoolV? && e.kind == "TypeMismatch"
      case _ => false
  {
    if v.IntV? {
      F.Wraps(-v.n);
      var k := (-v.n - INT_MIN) / 0x1_0000_0000;
      assert v.n + Wrap(-v.n) == -k * 0x1_0000_0000;
    }
  }

  // ── Text ───────────────────────────────────────────────────────────────────

  predicate IsDigit(c: char) {
    '0' <= c <= '9'
  }

  /** The number a text of digits writes, by its definition. */
  function Read(s: string): nat
    requires forall i :: 0 <= i < |s| ==> IsDigit(s[i])
  {
    if s == "" then 0
    else
      assert IsDigit(s[|s| - 1]);
      10 * Read(s[..|s| - 1]) + (s[|s| - 1] as int - '0' as int)
  }

  /** A number is written with digits that read back as it, and without a leading zero. */
  lemma {:induction false} DigitsReadBack(n: nat)
    ensures Digits(n) != "" && forall i :: 0 <= i < |Digits(n)| ==> IsDigit(Digits(n)[i])
    ensures Read(Digits(n)) == n && (n > 0 ==> Digits(n)[0] != '0') && (n == 0 ==> Digits(n) == "0")
  {
    var s := Digits(n);
    if n >= 10 {
      DigitsReadBack(n / 10);
      assert s[..|s| - 1] == Digits(n / 10);
    } else {
      assert s[..|s| - 1] == "";
      assert s == [('0' as int + n) as char];
    }
  }

  /** An integer is shown as its digits, with a minus sign if it is negative. */
  lemma IntegersReadBack(n: int, showDouble: real -> string)
    ensures var s := Show(IntV(n), showDouble);
      && s != ""
      && (s[0] == '-' <==> n < 0)
      && var digits := if s[0] == '-' then s[1..] else s;
         && (forall i :: 0 <= i < |digits| ==> IsDigit(digits[i]))
         && Read(digits) == if n < 0 then -n else n
  {
    if n < 0 {
      DigitsReadBack(-n);
      assert Show(IntV(n), showDouble)[1..] == Digits(-n);
    } else {
      DigitsReadBack(n);
    }
  }

  /** Texts and characters are shown as they are, and the other plain values by their names. */
  lemma Shown(s: string, ch: char, kind: string, showDouble: real -> string)
    ensures Show(StrV(s), showDouble) == s && Show(CharV(ch), showDouble) == [ch]
    ensures Show(BoolV(true), showDouble) == "true" && Show(BoolV(false), showDouble) == "false"
    ensures Show(VoidV, showDouble) == "void" && Show(NoneV, showDouble) == "None"
    ensures Show(ErrorV(kind, s), showDouble) == "error(" + kind + ": " + s + ")"
  {
  }

  /** A wrapped value is shown in its wrapping. */
  lemma ShownWrapped(v: Value, showDouble: real -> string)
    ensures Wrapped(Show(SomeV(v), showDouble), "Some(", Show(v, showDouble))
    ensures Wrapped(Show(OkV(v), showDouble), "Ok(", Show(v, showDouble))
    ensures Wrapped(Show(ErrV(v), showDouble), "Err(", Show(v, showDouble))
  {
    var inside := Show(v, showDouble);
    Wrapping("Some(", inside);
    Wrapping("Ok(", inside);
    Wrapping("Err(", inside);
    assert Show(SomeV(v), showDouble) == "Some(" + inside + ")";
    assert Show(OkV(v), showDouble) == "Ok(" + inside + ")";
    assert Show(ErrV(v), showDouble) == "Err(" + inside + ")";
  }

  lemma Wrapping(open: string, inside: string)
    ensures Wrapped(open + inside + ")", open, inside)
  {
  }

  /** `s` is `open`, `inside` and a closing parenthesis. */
  predicate Wrapped(s: string, open: string, inside: string) {
    |s| == |open| + |inside| + 1 && s[..|open|] == open && s[|open|..|s| - 1] == inside && s[|s| - 1] == ')'
  }

  /** `s` is `front` and then `back`. */
  predicate Joins(s: string, front: string, back: string) {
    |s| == |front| + |back| && s[..|front|] == front && s[|front|..] == back
  }

  lemma TextSums(c: Context, a: Value, b: Value, faults: map<nat, string>)
    requires a.StrV? || b.StrV?
    ensures var r := BinaryOp(c, Add, a, b, faults);
      && r.Done? && r.v.StrV?
      && (a.StrV? && b.StrV? ==> Joins(r.v.s, a.s, b.s))
      && (a.StrV? && !b.StrV? ==> Joins(r.v.s, a.s, Show(b, c.host.showDouble)))
      && (!a.StrV? && b.StrV? ==> Joins(r.v.s, Show(a, c.host.showDouble), b.s))
  {
  }

  /** `+` with a text on either side puts the two sides together in their order, the other one shown as
      text; two texts are joined as they are. */
  lemma Concatenation(c: Context, l: Expr, r: Expr, st: State, call: Call)
    requires Eval(c, l, st, call).r.Done? && Eval(c, r, Eval(c, l, st, call).st, call).r.Done?
    ensures var a := Eval(c, l, st, call);
      var b := Eval(c, r, a.st, call);
      var sum := Eval(c, Binary(Add, l, r), st, call);
      a.r.v.StrV? || b.r.v.StrV? ==>
        && sum.st == b.st && sum.r.Done? && sum.r.v.StrV?
        && Joins(sum.r.v.s, if a.r.v.StrV? then a.r.v.s else Show(a.r.v, c.host.showDouble),
                 if b.r.v.StrV? then b.r.v.s else Show(b.r.v, c.host.showDouble))
  {
    var a := Eval(c, l, st, call);
    var b := Eval(c, r, a.st, call);
    if a.r.v.StrV? || b.r.v.StrV? { TextSums(c, a.r.v, b.r.v, b.st.w.heap.faults); }
  }

  /** An integer added to a text reads back from its end. */
  lemma AppendedIntegersReadBack(c: Context, s: string, n: nat, faults: map<nat, string>)
    ensures var r := BinaryOp(c, Add, StrV(s), IntV(n), faults);
      && r.Done? && r.v.StrV? && |s| < |r.v.s| && r.v.s[..|s|] == s
      && (forall i :: |s| <= i < |r.v.s| ==> IsDigit(r.v.s[i]))
      && Read(r.v.s[|s|..]) == n
  {
    DigitsReadBack(n);
    assert (s + Digits(n))[|s|..] == Digits(n);
  }

  /** Every operator on operands it is not for is a type error: arithmetic and order are for two
      integers or two doubles. */
  lemma OtherOperands(c: Context, op: BinOp, a: Value, b: Value, faults: map<nat, string>)
    requires op in {Add, Sub, Mul, Div, Rem, OpLt, Le, OpGt, Ge}
    requires !(a.IntV? && b.IntV?) && !(a.DoubleV? && b.DoubleV?) && (op == Add ==> !a.StrV? && !b.StrV?)
    ensures BinaryOp(c, op, a, b, faults) == Failed(RuntimeError("TypeMismatch", c.host.wording("TypeMismatch")))
  {
  }

  lemma NumericOperands(c: Context, op: BinOp, a: Value, b: Value, faults: map<nat, string>)
    requires op in {Add, Sub, Mul, Div, Rem, OpLt, Le, OpGt, Ge}
    ensures a.IntV? && b.IntV? ==> BinaryOp(c, op, a, b, faults) == IntOp(c, op, a.n, b.n)
    ensures a.DoubleV? && b.DoubleV? ==> BinaryOp(c, op, a, b, faults) == DoubleOp(c, op, a.d, b.d)
    ensures BinaryOp(c, OpEq, a, b, faults) == Done(BoolV(ValuesEqual(a, b, faults)))
    ensures BinaryOp(c, Ne, a, b, faults) == Done(BoolV(!ValuesEqual(a, b, faults)))
  {
  }

  // ── Types ──────────────────────────────────────────────────────────────────

  /** Two values have the same run-time type exactly if they are of one kind. */
  predicate SameKind(a: Value, b: Value) {
    match a
    case BoolV(_) => b.BoolV?
    case IntV(_) => b.IntV?
    case DoubleV(_) => b.DoubleV?
    case CharV(_) => b.CharV?
    case StrV(_) => b.StrV?
    case VoidV => b.VoidV?
    case NeverV => b.NeverV?
    case SomeV(_) => b.SomeV? || b.NoneV?
    case NoneV => b.SomeV? || b.NoneV?
    case OkV(_) => b.OkV? || b.ErrV?
    case ErrV(_) => b.OkV? || b.ErrV?
    case ErrorV(_, _) => b.ErrorV?
    case ListV(_) => b.ListV?
    case MapV(_) => b.MapV?
    case ObjectV(_) => b.ObjectV?
    case HandleV(k, _) => b.HandleV? && b.handle == k
  }

  lemma TypesAreKinds(a: Value, b: Value)
    ensures TypeName(a) == TypeName(b) <==> SameKind(a, b)
  {
  }

  /** So a variable keeps its kind for ever, unless it is void. */
  lemma VariablesKeepTheirKind(old': Option<Value>, v: Value)
    ensures MayAssign(old', v) <==> old'.None? || old'.value.VoidV? || SameKind(old'.value, v)
  {
    if old'.Some? {
      TypesAreKinds(old'.value, v);
      TypesAreKinds(old'.value, VoidV);
    }
  }

  /** The values a declared parameter type takes: those of its kind; of a type nobody knows, any. */
  lemma DeclaredTypes(args: seq<TypeExpr>, v: Value)
    ensures TypeMatches(Void, v) <==> v.VoidV?
    ensures !TypeMatches(TypeExpr.Never, v) && !TypeMatches(Named("never", args), v)
    ensures TypeMatches(Named("bool", args), v) <==> v.BoolV?
    ensures TypeMatches(Named("int", args), v) <==> v.IntV?
    ensures TypeMatches(Named("double", args), v) <==> v.DoubleV?
    ensures TypeMatches(Named("void", args), v) <==> v.VoidV?
  {
  }

  lemma DeclaredTextTypes(args: seq<TypeExpr>, v: Value)
    ensures TypeMatches(Named("char", args), v) <==> v.CharV?
    ensures TypeMatches(Named("String", args), v) <==> v.StrV?
  {
  }

  const KNOWN_TYPES := {"bool", "int", "double", "char", "String", "void", "never", "List", "Map", "Option", "Result",
                        "locked", "Queue", "signal", "contract", "permit", "Future", "HandlerFuture", "thread"}

  lemma DeclaredContainerTypes(args: seq<TypeExpr>, v: Value, name: string)
    ensures TypeMatches(Named("List", args), v) <==> v.ListV?
    ensures TypeMatches(Named("Map", args), v) <==> v.MapV?
    ensures TypeMatches(Named("Option", args), v) <==> v.SomeV? || v.NoneV?
    ensures TypeMatches(Named("Result", args), v) <==> v.OkV? || v.ErrV?
    ensures name !in KNOWN_TYPES ==> TypeMatches(Named(name, args), v)
  {
  }

  lemma DeclaredHandleTypes(args: seq<TypeExpr>, v: Value)
    ensures TypeMatches(Named("locked", args), v) <==> v.HandleV? && v.handle.Locked?
    ensures TypeMatches(Named("Queue", args), v) <==> v.HandleV? && v.handle.Queue?
    ensures TypeMatches(Named("signal", args), v) <==> v.HandleV? && v.handle.Signal?
    ensures TypeMatches(Named("contract", args), v) <==> v.HandleV? && v.handle.Contract?
  {
  }

  lemma DeclaredTaskTypes(args: seq<TypeExpr>, v: Value)
    ensures TypeMatches(Named("permit", args), v) <==> v.HandleV? && v.handle.Permit?
    ensures TypeMatches(Named("Future", args), v) <==> v.HandleV? && v.handle.Future?
    ensures TypeMatches(Named("HandlerFuture", args), v) <==> v.HandleV? && v.handle.HandlerFuture?
    ensures TypeMatches(Named("thread", args), v) <==> v.HandleV? && v.handle.ThreadHandle?
  {
  }

  /** A field without an initializer starts as the zero of its type: of the type, and false or empty. */
  lemma DefaultsHaveTheirType(args: seq<TypeExpr>, name: string)
    ensures DefaultValue(Named("int", args)) == IntV(0) && DefaultValue(Named("double", args)) == DoubleV(0.0)
    ensures DefaultValue(Named("bool", args)) == BoolV(false) && DefaultValue(Named("String", args)) == StrV("")
    ensures name in {"int", "double", "bool", "String"} ==> TypeMatches(Named(name, args), DefaultValue(Named(name, args)))
    ensures name !in {"int", "double", "bool", "String"} ==> DefaultValue(Named(name, args)) == VoidV
    ensures DefaultValue(Void) == VoidV && DefaultValue(TypeExpr.Never) == VoidV
  {
  }

  /** A literal is a value of its own kind, integers by their 32 bits. */
  lemma LiteralsAreValues(n: int)
    ensures LiteralValue(NoneLit) == NoneV
    ensures LiteralValue(Int(n)).IntV? && F.IsInt(LiteralValue(Int(n)).n) && F.SameBits(LiteralValue(Int(n)).n, n)
    ensures F.IsInt(n) ==> LiteralValue(Int(n)) == IntV(n)
  {
    F.Wraps(n);
  }
}
