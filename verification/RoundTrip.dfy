/** Printing expressions, with parentheses where an operand binds less tightly than its place, and the
    proof that the parser (crates/tessera-parser/src/parser.rs) reads every printed expression back. */
module RoundTrip {
  import opened Options
  import opened Ast
  import opened Grammar

  // ── What can be written ────────────────────────────────────────────────────

  /** Expressions that have a spelling: literals are the lexer's and fit `int`, and names that the
      parser reads as constructors are not used for variables or functions. */
  predicate Writable(e: Expr) {
    match e
    case Lit(l) => WritableLit(l)
    case Ident(name) => name != "None"
    case Binary(_, l, r) => Writable(l) && Writable(r)
    case Unary(_, x) => Writable(x)
    case Call(f, args) => f.Ident? && Writable(f) && !IsConstructor(f.name) && AllWritable(args)
    case MethodCall(o, _, args) => Writable(o) && AllWritable(args)
    case FieldAccess(o, _) => Writable(o)
    case Index(o, i) => Writable(o) && Writable(i)
    case Await(x) => Writable(x)
    case Try(x) => Writable(x)
    case Panic(m) => Writable(m)
    case Assert(c, note) => Writable(c) && (note.Some? ==> Writable(note.value))
    case TypeCtor(name, types, args) =>
      && AllWritable(args)
      && (types == [] ==> IsConstructor(name) || (name == "None" && args == []))
  }

  predicate AllWritable(args: seq<Expr>) {
    args == [] || (Writable(args[0]) && AllWritable(args[1..]))
  }

  predicate WritableLit(l: Literal) {
    l != NoneLit && (l.Int? ==> FitsInt(l.n))
  }

  // ── The printer ────────────────────────────────────────────────────────────

  /** How tightly an expression holds together: operators by their power, then prefixes, then the rest. */
  function Level(e: Expr): nat {
    match e
    case Binary(op, _, _) => Power(op)
    case Unary(_, _) => PREFIX
    case Await(_) => PREFIX
    case Try(_) => PREFIX
    case _ => POSTFIX
  }

  const PREFIX: nat := 12
  const POSTFIX: nat := 13
  const ALWAYS: nat := 14

  /** The left operand of `<` is always parenthesised, since a name before `<` may look like a
      constructor with type arguments. */
  function LeftLevel(op: BinOp): nat {
    if op == OpLt then ALWAYS else Power(op)
  }

  /** The tokens of `e`, in parentheses if it holds less tightly than `k`, followed by `rest`. */
  function Print(e: Expr, k: nat, rest: Tokens): Tokens
    requires Writable(e)
    decreases e, 1
  {
    if Level(e) < k then More(PAREN_OPEN, Raw(e, More(PAREN_CLOSE, rest))) else Raw(e, rest)
  }

  function KeywordOf(name: string): Option<PrimType> {
    match name
    case "bool" => Some(BoolType)
    case "int" => Some(IntType)
    case "double" => Some(DoubleType)
    case "char" => Some(CharType)
    case "String" => Some(StringType)
    case "void" => Some(VoidType)
    case "never" => Some(NeverType)
    case _ => None
  }

  /** The token of a name: a type keyword has one of its own. */
  function NameToken(name: string): (t: Token)
    ensures t.Word? || t.TypeWord?
    ensures t.Word? ==> t.name == name
    ensures t.TypeWord? ==> TypeKeyword(t.prim) == name
  {
    if KeywordOf(name).Some? then TypeWord(KeywordOf(name).value) else Word(name)
  }

  function Raw(e: Expr, rest: Tokens): Tokens
    requires Writable(e)
    decreases e, 0
  {
    match e
    case Lit(l) => More(Value(l), rest)
    case Ident(name) => More(NameToken(name), rest)
    case Binary(op, l, r) => Print(l, LeftLevel(op), More(Infix(op), Print(r, Power(op) + 1, rest)))
    case Unary(op, x) => More(if op == Not then BANG else MINUS, Print(x, PREFIX, rest))
    case Call(f, args) => More(NameToken(f.name), More(PAREN_OPEN, PrintArgs(args, More(PAREN_CLOSE, rest))))
    case MethodCall(o, name, args) =>
      Print(o, POSTFIX, More(DOT, More(Word(name), More(PAREN_OPEN, PrintArgs(args, More(PAREN_CLOSE, rest))))))
    case FieldAccess(o, name) => Print(o, POSTFIX, More(DOT, More(Word(name), rest)))
    case Index(o, i) => Print(o, POSTFIX, More(BRACKET_OPEN, Print(i, 0, More(BRACKET_CLOSE, rest))))
    case Await(x) => More(KW_AWAIT, Print(x, PREFIX, rest))
    case Try(x) => More(KW_TRY, Print(x, PREFIX, rest))
    case Panic(m) => More(KW_PANIC, More(PAREN_OPEN, Print(m, 0, More(PAREN_CLOSE, rest))))
    case Assert(c, None) => More(KW_ASSERT, More(PAREN_OPEN, Print(c, 0, More(PAREN_CLOSE, rest))))
    case Assert(c, Some(n)) =>
      More(KW_ASSERT, More(PAREN_OPEN, Print(c, 0, More(COMMA, Print(n, 0, More(PAREN_CLOSE, rest))))))
    case TypeCtor(name, types, args) =>
      if types == [] && name == "None" then More(Word(name), rest)
      else
        var tail := More(PAREN_OPEN, PrintArgs(args, More(PAREN_CLOSE, rest)));
        More(NameToken(name), if types == [] then tail else More(LT, PrintTypes(types, More(GT, tail))))
  }

  function PrintArgs(args: seq<Expr>, rest: Tokens): Tokens
    requires AllWritable(args)
    decreases args
  {
    if args == [] then rest
    else Print(args[0], 0, if |args| == 1 then rest else More(COMMA, PrintArgs(args[1..], rest)))
  }

  /** The tokens of `void` and `never` are types of their own. */
  function TypeToken(name: string): Token {
    if NameToken(name) == KW_VOID || NameToken(name) == KW_NEVER then Word(name) else NameToken(name)
  }

  function PrintType(ty: TypeExpr, rest: Tokens): Tokens
    decreases ty
  {
    match ty
    case Void => More(KW_VOID, rest)
    case Never => More(KW_NEVER, rest)
    case Named(name, args) => More(TypeToken(name), if args == [] then rest else More(LT, PrintTypes(args, More(GT, rest))))
  }

  function PrintTypes(types: seq<TypeExpr>, rest: Tokens): Tokens
    decreases types
  {
    if types == [] then rest
    else PrintType(types[0], if |types| == 1 then rest else More(COMMA, PrintTypes(types[1..], rest)))
  }

  // ── What may follow ────────────────────────────────────────────────────────

  /** A primary expression is over: neither a call nor type arguments follow. */
  predicate Closed(rest: Tokens) {
    rest.More? ==> rest.head != PAREN_OPEN && rest.head != LT
  }

  /** Nor does a postfix follow. */
  predicate Done(rest: Tokens) {
    Closed(rest) && (rest.More? ==> rest.head != DOT && rest.head != BRACKET_OPEN)
  }

  /** Any operator that follows binds no tighter than `k`. */
  predicate Weak(rest: Tokens, k: nat) {
    rest.More? && rest.head.Infix? ==> Power(rest.head.op) <= k
  }

  /** What follows a whole expression. */
  predicate Ends(rest: Tokens) {
    Done(rest) && (rest.More? ==> !rest.head.Infix?)
  }

  // ── Types ──────────────────────────────────────────────────────────────────

  predicate StartsType(ts: Tokens) {
    ts.More? && (ts.head.Word? || ts.head.TypeWord?)
  }

  lemma TypeStarts(ty: TypeExpr, rest: Tokens)
    ensures StartsType(PrintType(ty, rest))
  {
  }

  lemma {:induction false} TypeRoundTrip(ty: TypeExpr, rest: Tokens, es: seq<ParseError>)
    requires rest.More? ==> rest.head != LT
    ensures Type(Input(PrintType(ty, rest), es)) == Parsed(ty, Input(rest, es))
    decreases ty
  {
    if ty.Named? && ty.args != [] {
      TypeArgsRoundTrip(ty.args, rest, es);
    }
  }

  lemma {:induction false} TypeArgsRoundTrip(types: seq<TypeExpr>, rest: Tokens, es: seq<ParseError>)
    requires types != []
    ensures TypeArgs(Input(More(LT, PrintTypes(types, More(GT, rest))), es)) == Parsed(types, Input(rest, es))
    decreases types, 1
  {
    TypesRoundTrip(types, rest, es);
  }

  lemma {:induction false} TypesRoundTrip(types: seq<TypeExpr>, rest: Tokens, es: seq<ParseError>)
    requires types != []
    ensures TypeArgRun(Input(PrintTypes(types, More(GT, rest)), es)) == Parsed(types, Input(More(GT, rest), es))
    decreases types, 0
  {
    var tail := if |types| == 1 then More(GT, rest) else More(COMMA, PrintTypes(types[1..], More(GT, rest)));
    TypeStarts(types[0], tail);
    TypeRoundTrip(types[0], tail, es);
    assert types == if |types| == 1 then [types[0]] else [types[0]] + types[1..];
    if |types| > 1 {
      TypesRoundTrip(types[1..], rest, es);
    }
  }

  lemma LooksLikeItsTypes(types: seq<TypeExpr>, rest: Tokens)
    requires types != []
    ensures LooksLikeTypeArgs(More(LT, PrintTypes(types, More(GT, rest))))
  {
  }

  // ── Expressions ────────────────────────────────────────────────────────────

  /** Every expression begins with one of these, none of which closes, separates or begins a statement. */
  predicate StartsExpr(ts: Tokens) {
    && ts.More?
    && (ts.head.Value? || ts.head.Word? || ts.head.TypeWord? || ts.head == PAREN_OPEN || ts.head == BANG || ts.head == MINUS
        || ts.head == KW_AWAIT || ts.head == KW_TRY || ts.head == KW_PANIC || ts.head == KW_ASSERT)
  }

  lemma {:induction false} ExprStarts(e: Expr, k: nat, rest: Tokens)
    requires Writable(e)
    ensures StartsExpr(Print(e, k, rest))
    decreases e
  {
    if Level(e) >= k {
      match e {
        case Binary(op, l, r) => ExprStarts(l, LeftLevel(op), More(Infix(op), Print(r, Power(op) + 1, rest)));
        case MethodCall(o, name, args) =>
          ExprStarts(o, POSTFIX, More(DOT, More(Word(name), More(PAREN_OPEN, PrintArgs(args, More(PAREN_CLOSE, rest))))));
        case FieldAccess(o, name) => ExprStarts(o, POSTFIX, More(DOT, More(Word(name), rest)));
        case Index(o, i) => ExprStarts(o, POSTFIX, More(BRACKET_OPEN, Print(i, 0, More(BRACKET_CLOSE, rest))));
        case _ =>
      }
    } else {
      assert Print(e, k, rest).head == PAREN_OPEN;
    }
  }

  /** Reading a printed expression is reading the expression and going on with the operators that follow. */
  lemma {:induction false} PrattReads(e: Expr, k: nat, min: nat, rest: Tokens, es: seq<ParseError>)
    requires Writable(e) && min <= k <= POSTFIX && Done(rest) && Weak(rest, k)
    ensures Pratt(Input(Print(e, k, rest), es), min) == PrattLoop(e, Input(rest, es), min)
    decreases e, if Level(e) < k then 1 else 0, 4
  {
    if e.Binary? && Level(e) >= k {
      BinaryReads(e, min, rest, es);
    } else {
      PrefixReads(e, k, rest, es);
    }
  }

  lemma {:induction false} BinaryReads(e: Expr, min: nat, rest: Tokens, es: seq<ParseError>)
    requires e.Binary? && Writable(e) && min <= Power(e.op) && Done(rest) && Weak(rest, Power(e.op))
    ensures Pratt(Input(Raw(e, rest), es), min) == PrattLoop(e, Input(rest, es), min)
    decreases e, 0, 2
  {
    var op := e.op;
    var after := More(Infix(op), Print(e.right, Power(op) + 1, rest));
    PrattReads(e.right, Power(op) + 1, Power(op) + 1, rest, es);
    assert PrattLoop(e.right, Input(rest, es), Power(op) + 1) == Parsed(e.right, Input(rest, es));
    assert PrattLoop(e.left, Input(after, es), min) == PrattLoop(e, Input(rest, es), min);
    if op == OpLt {
      ParenReads(e.left, after, es);
      assert Postfix(Input(Raw(e, rest), es)) == Parsed(e.left, Input(after, es));
    } else {
      PrattReads(e.left, Power(op), min, after, es);
    }
  }

  /** Expressions in prefix position: anything but a bare binary expression. */
  lemma {:induction false} PrefixReads(e: Expr, k: nat, rest: Tokens, es: seq<ParseError>)
    requires Writable(e) && Done(rest) && (Level(e) < k || Level(e) >= PREFIX) && k <= POSTFIX
    ensures Prefix(Input(Print(e, k, rest), es)) == Parsed(e, Input(rest, es))
    decreases e, if Level(e) < k then 1 else 0, 3
  {
    if Level(e) < k || Level(e) == POSTFIX {
      PostfixReads(e, k, rest, es);
      PostfixStarts(e, k, rest);
    } else {
      match e {
        case Unary(op, x) =>
          PrefixReads(x, PREFIX, rest, es);
          assert Input(Raw(e, rest), es).Next() == Input(Print(x, PREFIX, rest), es);
        case Await(x) =>
          PrefixReads(x, PREFIX, rest, es);
          assert Primary(Input(Raw(e, rest), es)) == Parsed(e, Input(rest, es));
          assert Postfix(Input(Raw(e, rest), es)) == Parsed(e, Input(rest, es));
        case Try(x) =>
          PrefixReads(x, PREFIX, rest, es);
          assert Primary(Input(Raw(e, rest), es)) == Parsed(e, Input(rest, es));
          assert Postfix(Input(Raw(e, rest), es)) == Parsed(e, Input(rest, es));
      }
    }
  }

  lemma {:induction false} PostfixStarts(e: Expr, k: nat, rest: Tokens)
    requires Writable(e) && (Level(e) < k || Level(e) == POSTFIX)
    ensures var ts := Print(e, k, rest); ts.More? && ts.head != BANG && ts.head != MINUS
    decreases e
  {
    if Level(e) >= k {
      match e {
        case MethodCall(o, name, args) =>
          PostfixStarts(o, POSTFIX, More(DOT, More(Word(name), More(PAREN_OPEN, PrintArgs(args, More(PAREN_CLOSE, rest))))));
        case FieldAccess(o, name) => PostfixStarts(o, POSTFIX, More(DOT, More(Word(name), rest)));
        case Index(o, i) => PostfixStarts(o, POSTFIX, More(BRACKET_OPEN, Print(i, 0, More(BRACKET_CLOSE, rest))));
        case _ =>
      }
    }
  }

  /** Expressions in postfix position go on with the postfixes that follow. */
  lemma {:induction false} PostfixReads(e: Expr, k: nat, rest: Tokens, es: seq<ParseError>)
    requires Writable(e) && (Level(e) < k || (Level(e) == POSTFIX && Closed(rest)))
    ensures Postfix(Input(Print(e, k, rest), es)) == PostfixLoop(e, Input(rest, es))
    decreases e, if Level(e) < k then 1 else 0, 2
  {
    if Level(e) < k {
      ParenReads(e, rest, es);
    } else if e.MethodCall? || e.FieldAccess? || e.Index? {
      ChainReads(e, rest, es);
    } else {
      PrimaryReads(e, rest, es);
    }
  }

  /** The postfix is read after what it is attached to. */
  lemma {:induction false} ChainReads(e: Expr, rest: Tokens, es: seq<ParseError>)
    requires Writable(e) && (e.MethodCall? || e.FieldAccess? || e.Index?) && Closed(rest)
    ensures Postfix(Input(Raw(e, rest), es)) == PostfixLoop(e, Input(rest, es))
    decreases e, 0, 1
  {
    if e.MethodCall? {
      var call := More(PAREN_OPEN, PrintArgs(e.args, More(PAREN_CLOSE, rest)));
      PostfixReads(e.receiver, POSTFIX, More(DOT, More(Word(e.method'), call)), es);
      CallArgsRead(e.args, rest, es);
    } else if e.FieldAccess? {
      PostfixReads(e.object', POSTFIX, More(DOT, More(Word(e.field), rest)), es);
    } else {
      var close := More(BRACKET_CLOSE, rest);
      PostfixReads(e.object', POSTFIX, More(BRACKET_OPEN, Print(e.index, 0, close)), es);
      PrattReads(e.index, 0, 0, close, es);
    }
  }

  lemma {:induction false} ParenReads(e: Expr, rest: Tokens, es: seq<ParseError>)
    requires Writable(e)
    ensures Primary(Input(More(PAREN_OPEN, Raw(e, More(PAREN_CLOSE, rest))), es)) == Parsed(e, Input(rest, es))
    decreases e, 1, 0
  {
    PrattReads(e, 0, 0, More(PAREN_CLOSE, rest), es);
  }

  lemma {:induction false} PrimaryReads(e: Expr, rest: Tokens, es: seq<ParseError>)
    requires Writable(e) && Closed(rest) && Level(e) == POSTFIX
    requires !e.MethodCall? && !e.FieldAccess? && !e.Index?
    ensures Primary(Input(Raw(e, rest), es)) == Parsed(e, Input(rest, es))
    decreases e, 0, 1
  {
    if e.Ident? {
      NameReads(e.name, rest, es);
    } else if e.Call? {
      NameReads(e.callee.name, Raw(e, rest).tail, es);
      CallArgsRead(e.args, rest, es);
    } else if e.Panic? {
      PrattReads(e.message, 0, 0, More(PAREN_CLOSE, rest), es);
    } else if e.Assert? {
      AssertReads(e.condition, e.note, rest, es);
    } else if e.TypeCtor? {
      NameReads(e.name, Raw(e, rest).tail, es);
      CtorReads(e.name, e.typeArgs, e.args, rest, es);
    }
  }

  lemma NameReads(name: string, rest: Tokens, es: seq<ParseError>)
    ensures Primary(Input(More(NameToken(name), rest), es)) == NameOrCall(name, Input(rest, es))
  {
  }

  lemma {:induction false} CtorReads(name: string, types: seq<TypeExpr>, args: seq<Expr>, rest: Tokens, es: seq<ParseError>)
    requires var e := TypeCtor(name, types, args); Writable(e)
    requires Closed(rest)
    ensures var e := TypeCtor(name, types, args);
      NameOrCall(name, Input(Raw(e, rest).tail, es)) == Parsed(e, Input(rest, es))
    decreases TypeCtor(name, types, args), 0, 0
  {
    var tail := More(PAREN_OPEN, PrintArgs(args, More(PAREN_CLOSE, rest)));
    CallArgsRead(args, rest, es);
    if types != [] {
      LooksLikeItsTypes(types, tail);
      TypeArgsRoundTrip(types, tail, es);
    }
  }

  lemma {:induction false} AssertReads(c: Expr, note: Option<Expr>, rest: Tokens, es: seq<ParseError>)
    requires Writable(Assert(c, note))
    ensures Assertion(Input(Raw(Assert(c, note), rest), es)) == Parsed(Assert(c, note), Input(rest, es))
    decreases Assert(c, note), 0, 0
  {
    var close := More(PAREN_CLOSE, rest);
    if note.None? {
      PrattReads(c, 0, 0, close, es);
    } else {
      PrattReads(note.value, 0, 0, close, es);
      PrattReads(c, 0, 0, More(COMMA, Print(note.value, 0, close)), es);
    }
  }

  lemma {:induction false} CallArgsRead(args: seq<Expr>, rest: Tokens, es: seq<ParseError>)
    requires AllWritable(args)
    ensures CallArgs(Input(More(PAREN_OPEN, PrintArgs(args, More(PAREN_CLOSE, rest))), es)) == Parsed(args, Input(rest, es))
    decreases args, 0, 1
  {
    ArgsRead(args, rest, es);
  }

  lemma {:induction false} ArgsRead(args: seq<Expr>, rest: Tokens, es: seq<ParseError>)
    requires AllWritable(args)
    ensures ArgRun(Input(PrintArgs(args, More(PAREN_CLOSE, rest)), es)) == Parsed(args, Input(More(PAREN_CLOSE, rest), es))
    decreases args, 0, 0
  {
    if args != [] {
      var close := More(PAREN_CLOSE, rest);
      var tail := if |args| == 1 then close else More(COMMA, PrintArgs(args[1..], close));
      ExprStarts(args[0], 0, tail);
      PrattReads(args[0], 0, 0, tail, es);
      assert args == if |args| == 1 then [args[0]] else [args[0]] + args[1..];
      if |args| > 1 {
        ArgsRead(args[1..], rest, es);
      }
    }
  }

  /** A whole expression, and all of its tokens: printing and parsing are inverse. */
  lemma {:induction false} ExpressionRoundTrip(e: Expr, rest: Tokens, es: seq<ParseError>)
    requires Writable(e) && Ends(rest)
    ensures Expression(Input(Print(e, 0, rest), es)) == Parsed(e, Input(rest, es))
  {
    PrattReads(e, 0, 0, rest, es);
  }

  lemma PrintingIsUnambiguous(e1: Expr, e2: Expr)
    requires Writable(e1) && Writable(e2) && Print(e1, 0, End) == Print(e2, 0, End)
    ensures e1 == e2
  {
    ExpressionRoundTrip(e1, End, []);
    ExpressionRoundTrip(e2, End, []);
  }
}
