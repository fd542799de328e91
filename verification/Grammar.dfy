/** What the parser computes, as functions of the tokens that are left and the errors so far
    (crates/tessera-parser/src/parser.rs). Every function returns a tree for every token sequence;
    the measure is the number of tokens left, then the rank of the function. */
module Grammar {
  import opened Options
  import opened Ast

  // ── Errors, input and results ──────────────────────────────────────────────

  /** What an error complains about; `left` is how many tokens were left when it was recorded. */
  datatype Problem =
    | Expected(token: Token) | ExpectedName | ExpectedType | ExpectedValue | Overflow
    | ExpectedMember | ExpectedAsyncMember | ExpectedSpawn | ExpectedScope | BadTarget

  datatype ParseError = ParseError(problem: Problem, left: nat)

  datatype Input = Input(left: Tokens, errors: seq<ParseError>) {
    function Left(): nat { left.Length() }

    predicate Empty() { left.End? }

    predicate Peeks(t: Token) { left.More? && left.head == t }

    predicate PeeksWord() { left.More? && left.head.Word? }

    function Next(): (r: Input)
      requires !Empty()
      ensures r.Left() == Left() - 1
    {
      Input(left.tail, errors)
    }

    /** `eat`: consume the token if it is there. */
    function Eat(t: Token): (r: Input)
      ensures r.Left() <= Left()
    {
      if Peeks(t) then Next() else this
    }

    function Report(problem: Problem): (r: Input)
      ensures r.left == left
    {
      Input(left, errors + [ParseError(problem, Left())])
    }

    /** `expect`: consume the token, or record an error and stay. */
    function Expect(t: Token): (r: Input)
      ensures r.Left() <= Left()
    {
      if Peeks(t) then Next() else Report(Expected(t))
    }
  }

  datatype Parsed<T> = Parsed(v: T, next: Input)

  const ERROR_NAME := "<error>"

  function Name(s: Input): (r: Parsed<string>)
    ensures r.next.Left() <= s.Left() && (s.PeeksWord() ==> r.next.Left() < s.Left())
  {
    if s.PeeksWord() then Parsed(s.left.head.name, s.Next()) else Parsed(ERROR_NAME, s.Report(ExpectedName))
  }

  // ── Types ──────────────────────────────────────────────────────────────────

  /** The name of a type keyword, which can also name a constructor. */
  function TypeKeyword(prim: PrimType): string {
    match prim
    case BoolType => "bool"
    case IntType => "int"
    case DoubleType => "double"
    case CharType => "char"
    case StringType => "String"
    case VoidType => "void"
    case NeverType => "never"
  }

  function Type(s: Input): (r: Parsed<TypeExpr>)
    ensures r.next.Left() <= s.Left()
    decreases s.Left(), 0
  {
    if s.Empty() then Parsed(Named(ERROR_NAME, []), s.Report(ExpectedType))
    else if s.Peeks(KW_VOID) then Parsed(Void, s.Next())
    else if s.Peeks(KW_NEVER) then Parsed(Never, s.Next())
    else if s.left.head.Word? || s.left.head.TypeWord? then
      var name := if s.left.head.Word? then s.left.head.name else TypeKeyword(s.left.head.prim);
      if s.Next().Peeks(LT) then
        var args := TypeArgs(s.Next());
        Parsed(Named(name, args.v), args.next)
      else
        Parsed(Named(name, []), s.Next())
    else Parsed(Named(ERROR_NAME, []), s.Report(ExpectedType))
  }

  /** `<T, …>` */
  function TypeArgs(s: Input): (r: Parsed<seq<TypeExpr>>)
    requires s.Peeks(LT)
    ensures r.next.Left() < s.Left()
    decreases s.Left(), 2
  {
    var args := TypeArgRun(s.Next());
    Parsed(args.v, args.next.Expect(GT))
  }

  function TypeArgRun(s: Input): (r: Parsed<seq<TypeExpr>>)
    ensures r.next.Left() <= s.Left()
    decreases s.Left(), 1
  {
    if s.Empty() || s.Peeks(GT) then Parsed([], s)
    else
      var first := Type(s);
      if first.next.Peeks(COMMA) then
        var more := TypeArgRun(first.next.Next());
        Parsed([first.v] + more.v, more.next)
      else
        Parsed([first.v], first.next)
  }

  // ── Expressions ────────────────────────────────────────────────────────────

  function InfixOp(s: Input): Option<BinOp> {
    if s.Empty() then None else OpOf(s.left.head)
  }

  function OpOf(t: Token): Option<BinOp> {
    if t.Infix? then Some(t.op) else None
  }

  /** `infix_binding_power`: the left one; the right one is one more. */
  function Power(op: BinOp): nat {
    match op
    case Or => 1
    case And => 3
    case OpEq => 5
    case Ne => 5
    case OpLt => 7
    case Le => 7
    case OpGt => 7
    case Ge => 7
    case Add => 9
    case Sub => 9
    case Mul => 11
    case Div => 11
    case Rem => 11
  }

  function Expression(s: Input): (r: Parsed<Expr>)
    ensures r.next.Left() <= s.Left() && (!s.Empty() ==> r.next.Left() < s.Left())
    decreases s.Left(), 6
  {
    Pratt(s, 0)
  }

  function Pratt(s: Input, min: nat): (r: Parsed<Expr>)
    ensures r.next.Left() <= s.Left() && (!s.Empty() ==> r.next.Left() < s.Left())
    decreases s.Left(), 5
  {
    var left := Prefix(s);
    PrattLoop(left.v, left.next, min)
  }

  function PrattLoop(left: Expr, s: Input, min: nat): (r: Parsed<Expr>)
    ensures r.next.Left() <= s.Left()
    decreases s.Left(), 0
  {
    var op := InfixOp(s);
    if op.None? || Power(op.value) < min then Parsed(left, s)
    else
      var right := Pratt(s.Next(), Power(op.value) + 1);
      PrattLoop(Binary(op.value, left, right.v), right.next, min)
  }

  function Prefix(s: Input): (r: Parsed<Expr>)
    ensures r.next.Left() <= s.Left() && (!s.Empty() ==> r.next.Left() < s.Left())
    decreases s.Left(), 4
  {
    if s.Peeks(BANG) || s.Peeks(MINUS) then
      var operand := Prefix(s.Next());
      Parsed(Unary(if s.Peeks(BANG) then Not else Neg, operand.v), operand.next)
    else
      Postfix(s)
  }

  function Postfix(s: Input): (r: Parsed<Expr>)
    ensures r.next.Left() <= s.Left() && (!s.Empty() ==> r.next.Left() < s.Left())
    decreases s.Left(), 3
  {
    var head := Primary(s);
    PostfixLoop(head.v, head.next)
  }

  function PostfixLoop(e: Expr, s: Input): (r: Parsed<Expr>)
    ensures r.next.Left() <= s.Left()
    decreases s.Left(), 0
  {
    if s.Peeks(DOT) then
      var field := Name(s.Next());
      if field.next.Peeks(PAREN_OPEN) then
        var args := CallArgs(field.next);
        PostfixLoop(MethodCall(e, field.v, args.v), args.next)
      else
        PostfixLoop(FieldAccess(e, field.v), field.next)
    else if s.Peeks(BRACKET_OPEN) then
      var index := Expression(s.Next());
      PostfixLoop(Index(e, index.v), index.next.Expect(BRACKET_CLOSE))
    else
      Parsed(e, s)
  }

  predicate FitsInt(n: int) {
    -0x8000_0000 <= n <= 0x7FFF_FFFF
  }

  function Primary(s: Input): (r: Parsed<Expr>)
    ensures r.next.Left() <= s.Left() && (!s.Empty() ==> r.next.Left() < s.Left())
    decreases s.Left(), 2
  {
    if s.Empty() then Parsed(Ident(ERROR_NAME), s.Report(ExpectedValue))
    else if s.left.head.Value? then
      var l := s.left.head.lit;
      Parsed(Lit(l), if l.Int? && !FitsInt(l.n) then s.Next().Report(Overflow) else s.Next())
    else if s.Peeks(KW_PANIC) then
      var message := Expression(s.Next().Expect(PAREN_OPEN));
      Parsed(Panic(message.v), message.next.Expect(PAREN_CLOSE))
    else if s.Peeks(KW_ASSERT) then Assertion(s)
    else if s.Peeks(KW_AWAIT) then
      var inner := Prefix(s.Next());
      Parsed(Await(inner.v), inner.next)
    else if s.Peeks(KW_TRY) then
      var inner := Prefix(s.Next());
      Parsed(Try(inner.v), inner.next)
    else if s.Peeks(PAREN_OPEN) then
      var inner := Expression(s.Next());
      Parsed(inner.v, inner.next.Expect(PAREN_CLOSE))
    else if s.PeeksWord() then NameOrCall(s.left.head.name, s.Next())
    else if s.left.head.TypeWord? then NameOrCall(TypeKeyword(s.left.head.prim), s.Next())
    else Parsed(Ident(ERROR_NAME), s.Report(ExpectedValue).Next())
  }

  function Assertion(s: Input): (r: Parsed<Expr>)
    requires s.Peeks(KW_ASSERT)
    ensures r.next.Left() < s.Left()
    decreases s.Left(), 1
  {
    var condition := Expression(s.Next().Expect(PAREN_OPEN));
    if condition.next.Peeks(COMMA) then
      var note := Expression(condition.next.Next());
      Parsed(Assert(condition.v, Some(note.v)), note.next.Expect(PAREN_CLOSE))
    else
      Parsed(Assert(condition.v, None), condition.next.Expect(PAREN_CLOSE))
  }

  /** Names that are constructors even without type arguments. */
  predicate IsConstructor(name: string) {
    name in {"Ok", "Err", "Some", "List", "locked", "Queue"}
  }

  /** At `<`: a type name follows, and then `>`, `,` or `<`. */
  predicate LooksLikeTypeArgs(ts: Tokens) {
    && ts.More? && ts.tail.More? && ts.tail.tail.More?
    && (ts.tail.head.Word? || ts.tail.head.TypeWord?)
    && (ts.tail.tail.head == GT || ts.tail.tail.head == COMMA || ts.tail.tail.head == LT)
  }

  function NameOrCall(name: string, s: Input): (r: Parsed<Expr>)
    ensures r.next.Left() <= s.Left()
    decreases s.Left(), 8
  {
    if s.Peeks(LT) && LooksLikeTypeArgs(s.left) then
      var typeArgs := TypeArgs(s);
      var args := CallArgs(typeArgs.next);
      Parsed(TypeCtor(name, typeArgs.v, args.v), args.next)
    else if s.Peeks(PAREN_OPEN) then
      var args := CallArgs(s);
      Parsed(if IsConstructor(name) then TypeCtor(name, [], args.v)
             else if name == "None" then TypeCtor(name, [], [])
             else Call(Ident(name), args.v), args.next)
    else if name == "None" then Parsed(TypeCtor(name, [], []), s)
    else Parsed(Ident(name), s)
  }

  function CallArgs(s: Input): (r: Parsed<seq<Expr>>)
    ensures r.next.Left() <= s.Left() && (s.Peeks(PAREN_OPEN) ==> r.next.Left() < s.Left())
    decreases s.Left(), 7, 1
  {
    var args := ArgRun(s.Expect(PAREN_OPEN));
    Parsed(args.v, args.next.Expect(PAREN_CLOSE))
  }

  function ArgRun(s: Input): (r: Parsed<seq<Expr>>)
    ensures r.next.Left() <= s.Left()
    decreases s.Left(), 7, 0
  {
    if s.Empty() || s.Peeks(PAREN_CLOSE) then Parsed([], s)
    else
      var first := Expression(s);
      if first.next.Peeks(COMMA) then
        var more := ArgRun(first.next.Next());
        Parsed([first.v] + more.v, more.next)
      else
        Parsed([first.v], first.next)
  }
}
