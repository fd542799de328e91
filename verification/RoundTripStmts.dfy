/** Printing statements, templates and whole programs, and the proof that the parser
    (crates/tessera-parser/src/parser.rs) reads every printed program back without an error. */
module RoundTripStmts {
  import opened Options
  import opened Ast
  import opened Grammar
  import opened GrammarStmts
  import opened RoundTrip
  import Parsers

  // ── What can be written ────────────────────────────────────────────────────

  predicate WritableInit(e: Option<Expr>) {
    e.Some? ==> Writable(e.value)
  }

  predicate WritableStmt(s: Stmt) {
    match s
    case Let(_, _, init) => Writable(init)
    case Assign(t, v) => Writable(Source(t)) && Writable(v)
    case If(i) => WritableIf(i)
    case While(c, b) => Writable(c) && WritableStmts(b.stmts)
    case For(first, test, update, b) =>
      && (first.Some? ==> WritableStmt(first.value))
      && WritableInit(test)
      && (update.Some? ==> (update.value.Assign? || update.value.ExprStmt?) && WritableStmt(update.value))
      && WritableStmts(b.stmts)
    case Return(e) => WritableInit(e)
    case Break => true
    case Continue => true
    case ThreadSpawn(t, args, b, _) =>
      && AllWritable(args) && WritableStmts(b.stmts)
      && (t.Shorthand? ==> args == [])
      && (t.AnonymousThread? ==> WritableThread(t.decl))
    case ScopeBlock(r, args, b) =>
      AllWritable(args) && WritableStmts(b.stmts) && (r.AnonymousScope? ==> WritableScope(r.decl))
    case ExclusiveBlock(b) => WritableStmts(b.stmts)
    case ExprStmt(e) => Writable(e)
  }

  predicate WritableStmts(ss: seq<Stmt>) {
    ss == [] || (WritableStmt(ss[0]) && WritableStmts(ss[1..]))
  }

  predicate WritableIf(i: IfStmt) {
    && Writable(i.condition) && WritableStmts(i.thenBlock.stmts)
    && match i.elseBranch {
         case NoElse => true
         case Else(b) => WritableStmts(b.stmts)
         case ElseIf(next) => WritableIf(next)
       }
  }

  predicate WritableParams(ps: seq<Param>) {
    forall i :: 0 <= i < |ps| ==> WritableInit(ps[i].default)
  }

  predicate WritableFunc(f: FuncDef) {
    WritableParams(f.params) && WritableStmts(f.body.stmts)
  }

  /** A member is the one its function's name and kind stand for. */
  predicate WritableScopeMember(m: ScopeMember) {
    if m.ScopeDefine? then WritableInit(m.d.initializer) else WritableFunc(m.f) && ScopeMemberOf(m.f) == m
  }

  predicate WritableScope(d: ScopeDecl) {
    WritableParams(d.params) && WritableScopeMembers(d.members)
  }

  predicate WritableScopeMembers(ms: seq<ScopeMember>) {
    ms == [] || (WritableScopeMember(ms[0]) && WritableScopeMembers(ms[1..]))
  }

  predicate WritableThreadMember(m: ThreadMember) {
    match m
    case Handler(h) => WritableParams(h.params) && WritableStmts(h.body.stmts)
    case Expose(d) => WritableInit(d.initializer)
    case ExposeMutable(d) => WritableInit(d.initializer)
    case Define(d) => WritableInit(d.initializer)
    case _ => WritableFunc(m.f) && ThreadMemberOf(m.f) == m
  }

  predicate WritableThread(d: ThreadDecl) {
    WritableParams(d.params) && WritableThreadMembers(d.members)
  }

  predicate WritableThreadMembers(ms: seq<ThreadMember>) {
    ms == [] || (WritableThreadMember(ms[0]) && WritableThreadMembers(ms[1..]))
  }

  /** At the top level a `@template` is always a declaration, and so is a named `$template`, unless its
      handle is bound in front of it. */
  predicate WritableItem(item: Item) {
    match item
    case ScopeItem(d) => WritableScope(d)
    case ThreadItem(d) => d.name.Some? && WritableThread(d)
    case FuncItem(f) => WritableFunc(f)
    case StmtItem(s) =>
      && WritableStmt(s)
      && !(s.ScopeBlock? && s.scope.AnonymousScope?)
      && (s.ThreadSpawn? && s.thread.AnonymousThread? ==> s.thread.decl.name.None? || s.handle.Bind?)
  }

  predicate WritableProgram(items: seq<Item>) {
    items == [] || (WritableItem(items[0]) && WritableProgram(items[1..]))
  }

  // ── The printer ────────────────────────────────────────────────────────────

  /** The expression that `expr_to_assign_target` turns into the target. */
  function Source(t: AssignTarget): (e: Expr)
    ensures CanAssign(e) && TargetOf(e) == t
  {
    match t
    case ToIdent(name) => Ident(name)
    case ToField(o, f) => FieldAccess(o, f)
    case ToIndex(o, i) => Index(o, i)
  }

  function PrintInit(e: Option<Expr>, rest: Tokens): Tokens
    requires WritableInit(e)
  {
    if e.None? then rest else More(EQ, Print(e.value, 0, rest))
  }

  function PrintTypedName(name: string, ty: TypeExpr, rest: Tokens): Tokens {
    More(Word(name), More(COLON, PrintType(ty, rest)))
  }

  function PrintParam(p: Param, rest: Tokens): Tokens
    requires WritableInit(p.default)
  {
    PrintTypedName(p.name, p.ty, PrintInit(p.default, rest))
  }

  function PrintParamRun(ps: seq<Param>, rest: Tokens): Tokens
    requires WritableParams(ps)
  {
    if ps == [] then rest
    else PrintParam(ps[0], if |ps| == 1 then rest else More(COMMA, PrintParamRun(ps[1..], rest)))
  }

  function PrintParams(ps: seq<Param>, rest: Tokens): Tokens
    requires WritableParams(ps)
  {
    More(PAREN_OPEN, PrintParamRun(ps, More(PAREN_CLOSE, rest)))
  }

  function PrintOptionalParams(ps: seq<Param>, rest: Tokens): Tokens
    requires WritableParams(ps)
  {
    if ps == [] then rest else PrintParams(ps, rest)
  }

  function PrintCallArgs(args: seq<Expr>, rest: Tokens): Tokens
    requires AllWritable(args)
  {
    More(PAREN_OPEN, PrintArgs(args, More(PAREN_CLOSE, rest)))
  }

  function PrintOptionalArgs(args: seq<Expr>, rest: Tokens): Tokens
    requires AllWritable(args)
  {
    if args == [] then rest else PrintCallArgs(args, rest)
  }

  function PrintField(d: FieldDecl, rest: Tokens): Tokens
    requires WritableInit(d.initializer)
  {
    PrintTypedName(d.name, d.ty, PrintInit(d.initializer, More(SEMICOLON, rest)))
  }

  function PrintOptionalName(name: Option<string>, rest: Tokens): Tokens {
    if name.Some? then More(Word(name.value), rest) else rest
  }

  function PrintHandle(h: HandleBind, rest: Tokens): Tokens {
    if h.Bind? then More(COLON_EQ, More(Word(h.name), rest)) else rest
  }

  /** An assignment or expression without its semicolon. */
  function PrintPlain(s: Stmt, rest: Tokens): Tokens
    requires WritableStmt(s) && IsPlain(s)
  {
    match s
    case Assign(t, v) => Print(Source(t), 0, More(EQ, Print(v, 0, rest)))
    case ExprStmt(e) => Print(e, 0, rest)
  }

  predicate IsPlain(s: Stmt) {
    s.Assign? || s.ExprStmt?
  }

  predicate IsControl(s: Stmt) {
    !s.Assign? && !s.ExprStmt? && !s.ThreadSpawn? && !s.ScopeBlock?
  }

  function PrintStmt(s: Stmt, rest: Tokens): Tokens
    requires WritableStmt(s)
    decreases s, 3
  {
    if IsPlain(s) then PrintPlain(s, More(SEMICOLON, rest))
    else if s.ThreadSpawn? then PrintSpawn(s, rest)
    else if s.ScopeBlock? then PrintScopeStmt(s, rest)
    else PrintControl(s, rest)
  }

  function PrintControl(s: Stmt, rest: Tokens): Tokens
    requires WritableStmt(s) && IsControl(s)
    decreases s, 2
  {
    match s
    case Let(name, ty, init) => PrintLet(name, ty, init, rest)
    case If(i) => PrintIf(i, rest)
    case While(c, b) => More(KW_WHILE, PrintCondition(c, PrintBlock(b, rest)))
    case For(_, _, _, _) => PrintFor(s, rest)
    case Return(e) => More(KW_RETURN, PrintResult(e, More(SEMICOLON, rest)))
    case Break => More(KW_BREAK, More(SEMICOLON, rest))
    case Continue => More(KW_CONTINUE, More(SEMICOLON, rest))
    case ExclusiveBlock(b) => More(KW_EXCLUSIVE, PrintBlock(b, rest))
  }

  function PrintLet(name: string, ty: Option<TypeExpr>, init: Expr, rest: Tokens): Tokens
    requires Writable(init)
  {
    var tail := More(EQ, Print(init, 0, More(SEMICOLON, rest)));
    More(KW_LET, More(Word(name), if ty.Some? then More(COLON, PrintType(ty.value, tail)) else tail))
  }

  function PrintCondition(c: Expr, rest: Tokens): Tokens
    requires Writable(c)
  {
    More(PAREN_OPEN, Print(c, 0, More(PAREN_CLOSE, rest)))
  }

  function PrintResult(e: Option<Expr>, rest: Tokens): Tokens
    requires WritableInit(e)
  {
    if e.Some? then Print(e.value, 0, rest) else rest
  }

  function PrintForUpdate(update: Option<Stmt>, rest: Tokens): Tokens
    requires update.Some? ==> IsPlain(update.value) && WritableStmt(update.value)
  {
    var close := More(PAREN_CLOSE, rest);
    if update.Some? then PrintPlain(update.value, close) else close
  }

  function PrintForTail(test: Option<Expr>, update: Option<Stmt>, rest: Tokens): Tokens
    requires WritableInit(test)
    requires update.Some? ==> IsPlain(update.value) && WritableStmt(update.value)
  {
    PrintResult(test, More(SEMICOLON, PrintForUpdate(update, rest)))
  }

  function PrintForFirst(s: Stmt, rest: Tokens): Tokens
    requires WritableStmt(s) && s.For?
    decreases s, 0
  {
    if s.first.Some? then PrintStmt(s.first.value, rest) else More(SEMICOLON, rest)
  }

  function PrintFor(s: Stmt, rest: Tokens): Tokens
    requires WritableStmt(s) && s.For?
    decreases s, 1
  {
    var tail := PrintForTail(s.test, s.update, PrintBlock(s.body, rest));
    More(KW_FOR, More(PAREN_OPEN, PrintForFirst(s, tail)))
  }

  /** The handle of an anonymous template is bound in front of it, any other behind the body. */
  function PrintSpawn(s: Stmt, rest: Tokens): Tokens
    requires WritableStmt(s) && s.ThreadSpawn?
    decreases s, 2
  {
    if IsPrebound(s) then More(Word(s.handle.name), More(EQ, PrintTemplate(s, Discard, rest)))
    else PrintTemplate(s, s.handle, rest)
  }

  predicate IsPrebound(s: Stmt) {
    s.ThreadSpawn? && s.thread.AnonymousThread? && s.handle.Bind?
  }

  function PrintTemplate(s: Stmt, handle: HandleBind, rest: Tokens): Tokens
    requires WritableStmt(s) && s.ThreadSpawn?
    decreases s, 1
  {
    var tail := PrintHandle(handle, More(SEMICOLON, rest));
    match s.thread
    case NamedThread(name) => More(DOLLAR, More(Word(name), PrintCallArgs(s.args, PrintBlock(s.body, tail))))
    case AnonymousThread(d) => PrintThread(d, PrintCallArgs(s.args, PrintBlock(s.body, tail)))
    case Shorthand => More(DOLLAR_BRACE_OPEN, PrintBody(s.body, tail))
  }

  function PrintScopeStmt(s: Stmt, rest: Tokens): Tokens
    requires WritableStmt(s) && s.ScopeBlock?
    decreases s, 2
  {
    var tail := PrintOptionalArgs(s.args, PrintBlock(s.body, rest));
    match s.scope
    case NamedScope(name) => More(AT, More(Word(name), tail))
    case AnonymousScope(d) => PrintScope(d, tail)
  }

  function PrintStmts(ss: seq<Stmt>, rest: Tokens): Tokens
    requires WritableStmts(ss)
    decreases ss
  {
    if ss == [] then rest else PrintStmt(ss[0], PrintStmts(ss[1..], rest))
  }

  function PrintBlock(b: Block, rest: Tokens): Tokens
    requires WritableStmts(b.stmts)
    decreases b, 1
  {
    More(BRACE_OPEN, PrintBody(b, rest))
  }

  function PrintBody(b: Block, rest: Tokens): Tokens
    requires WritableStmts(b.stmts)
    decreases b, 0
  {
    PrintStmts(b.stmts, More(BRACE_CLOSE, rest))
  }

  function PrintIf(i: IfStmt, rest: Tokens): Tokens
    requires WritableIf(i)
    decreases i, 1
  {
    More(KW_IF, PrintCondition(i.condition, PrintBlock(i.thenBlock, PrintElse(i, rest))))
  }

  function PrintElse(i: IfStmt, rest: Tokens): Tokens
    requires WritableIf(i)
    decreases i, 0
  {
    match i.elseBranch
    case NoElse => rest
    case Else(b) => More(KW_ELSE, PrintBlock(b, rest))
    case ElseIf(next) => More(KW_ELSE, PrintIf(next, rest))
  }

  function PrintSignature(ps: seq<Param>, ty: TypeExpr, b: Block, rest: Tokens): Tokens
    requires WritableParams(ps) && WritableStmts(b.stmts)
    decreases b, 2
  {
    PrintParams(ps, More(COLON, PrintType(ty, PrintBlock(b, rest))))
  }

  function PrintFunc(f: FuncDef, rest: Tokens): Tokens
    requires WritableFunc(f)
    decreases f
  {
    var tail := More(KW_FUNCTION, More(Word(f.name), PrintSignature(f.params, f.returnType, f.body, rest)));
    if f.kind == Async then More(KW_ASYNC, tail) else tail
  }

  function PrintScopeMember(m: ScopeMember, rest: Tokens): Tokens
    requires WritableScopeMember(m)
    decreases m
  {
    if m.ScopeDefine? then More(KW_DEFINE, PrintField(m.d, rest)) else PrintFunc(m.f, rest)
  }

  function PrintScopeMembers(ms: seq<ScopeMember>, rest: Tokens): Tokens
    requires WritableScopeMembers(ms)
    decreases ms
  {
    if ms == [] then rest else PrintScopeMember(ms[0], PrintScopeMembers(ms[1..], rest))
  }

  function PrintScope(d: ScopeDecl, rest: Tokens): Tokens
    requires WritableScope(d)
    decreases d
  {
    var body := More(BRACE_OPEN, PrintScopeMembers(d.members, More(BRACE_CLOSE, rest)));
    More(KW_AT_TEMPLATE, PrintOptionalName(d.name, PrintOptionalParams(d.params, body)))
  }

  function PrintThreadMember(m: ThreadMember, rest: Tokens): Tokens
    requires WritableThreadMember(m)
    decreases m
  {
    match m
    case Handler(h) =>
      More(KW_ASYNC, More(KW_HANDLER, More(Word(h.name), PrintSignature(h.params, h.returnType, h.body, rest))))
    case Expose(d) => More(KW_EXPOSE, PrintField(d, rest))
    case ExposeMutable(d) => More(KW_EXPOSE_MUTABLE, PrintField(d, rest))
    case Define(d) => More(KW_DEFINE, PrintField(d, rest))
    case _ => PrintFunc(m.f, rest)
  }

  function PrintThreadMembers(ms: seq<ThreadMember>, rest: Tokens): Tokens
    requires WritableThreadMembers(ms)
    decreases ms
  {
    if ms == [] then rest else PrintThreadMember(ms[0], PrintThreadMembers(ms[1..], rest))
  }

  function PrintThread(d: ThreadDecl, rest: Tokens): Tokens
    requires WritableThread(d)
    decreases d
  {
    var body := More(BRACE_OPEN, PrintThreadMembers(d.members, More(BRACE_CLOSE, rest)));
    More(KW_DOLLAR_TEMPLATE, PrintOptionalName(d.name, PrintOptionalParams(d.params, body)))
  }

  function PrintItem(item: Item, rest: Tokens): Tokens
    requires WritableItem(item)
  {
    match item
    case ScopeItem(d) => PrintScope(d, rest)
    case ThreadItem(d) => PrintThread(d, rest)
    case FuncItem(f) => PrintFunc(f, rest)
    case StmtItem(s) => PrintStmt(s, rest)
  }

  function PrintProgram(items: seq<Item>): Tokens
    requires WritableProgram(items)
  {
    if items == [] then End else PrintItem(items[0], PrintProgram(items[1..]))
  }

  // ── Parameters and fields ──────────────────────────────────────────────────

  predicate NoElseNext(rest: Tokens) {
    rest.More? ==> rest.head != KW_ELSE
  }

  /** What follows a parameter or a field: no initializer and no end of an expression is ambiguous. */
  predicate Parts(rest: Tokens) {
    rest.More? && (rest.head == COMMA || rest.head == PAREN_CLOSE || rest.head == SEMICOLON)
  }

  lemma InitReads(e: Option<Expr>, rest: Tokens, es: seq<ParseError>)
    requires WritableInit(e) && Parts(rest)
    ensures Initializer(Input(PrintInit(e, rest), es)) == Parsed(e, Input(rest, es))
  {
    if e.Some? {
      ExpressionRoundTrip(e.value, rest, es);
    }
  }

  lemma TypedNameReads(name: string, ty: TypeExpr, rest: Tokens, es: seq<ParseError>)
    requires rest.More? ==> rest.head != LT
    ensures TypedName(Input(PrintTypedName(name, ty, rest), es)) == Parsed((name, ty), Input(rest, es))
  {
    TypeRoundTrip(ty, rest, es);
  }

  lemma ParamReads(p: Param, rest: Tokens, es: seq<ParseError>)
    requires WritableInit(p.default) && Parts(rest)
    ensures OneParam(Input(PrintParam(p, rest), es)) == Parsed(p, Input(rest, es))
  {
    InitReads(p.default, rest, es);
    TypedNameReads(p.name, p.ty, PrintInit(p.default, rest), es);
  }

  lemma {:induction false} ParamRunReads(ps: seq<Param>, rest: Tokens, es: seq<ParseError>)
    requires WritableParams(ps)
    ensures ParamRun(Input(PrintParamRun(ps, More(PAREN_CLOSE, rest)), es)) == Parsed(ps, Input(More(PAREN_CLOSE, rest), es))
  {
    if ps != [] {
      var close := More(PAREN_CLOSE, rest);
      ParamReads(ps[0], if |ps| == 1 then close else More(COMMA, PrintParamRun(ps[1..], close)), es);
      assert ps == if |ps| == 1 then [ps[0]] else [ps[0]] + ps[1..];
      if |ps| > 1 {
        ParamRunReads(ps[1..], rest, es);
      }
    }
  }

  lemma ParamsRead(ps: seq<Param>, rest: Tokens, es: seq<ParseError>)
    requires WritableParams(ps)
    ensures Params(Input(PrintParams(ps, rest), es)) == Parsed(ps, Input(rest, es))
  {
    ParamRunReads(ps, rest, es);
  }

  lemma OptionalParamsRead(ps: seq<Param>, rest: Tokens, es: seq<ParseError>)
    requires WritableParams(ps) && rest.More? && rest.head == BRACE_OPEN
    ensures OptionalParams(Input(PrintOptionalParams(ps, rest), es)) == Parsed(ps, Input(rest, es))
  {
    if ps != [] {
      ParamsRead(ps, rest, es);
    }
  }

  lemma OptionalArgsRead(args: seq<Expr>, rest: Tokens, es: seq<ParseError>)
    requires AllWritable(args) && rest.More? && rest.head == BRACE_OPEN
    ensures OptionalArgs(Input(PrintOptionalArgs(args, rest), es)) == Parsed(args, Input(rest, es))
  {
    if args != [] {
      CallArgsRead(args, rest, es);
    }
  }

  lemma FieldReads(d: FieldDecl, rest: Tokens, es: seq<ParseError>)
    requires WritableInit(d.initializer)
    ensures Field(Input(PrintField(d, rest), es)) == Parsed(d, Input(rest, es))
  {
    var tail := More(SEMICOLON, rest);
    InitReads(d.initializer, tail, es);
    TypedNameReads(d.name, d.ty, PrintInit(d.initializer, tail), es);
  }

  // ── Simple statements ──────────────────────────────────────────────────────

  lemma PlainReads(s: Stmt, semi: bool, rest: Tokens, es: seq<ParseError>)
    requires WritableStmt(s) && IsPlain(s)
    requires semi || (rest.More? && rest.head == PAREN_CLOSE)
    ensures ExprOrAssign(Input(PrintPlain(s, if semi then More(SEMICOLON, rest) else rest), es), semi) == Parsed(s, Input(rest, es))
  {
    var tail := if semi then More(SEMICOLON, rest) else rest;
    if s.Assign? {
      var value := More(EQ, Print(s.value, 0, tail));
      ExpressionRoundTrip(Source(s.target), value, es);
      ExpressionRoundTrip(s.value, tail, es);
    } else {
      ExpressionRoundTrip(s.expr, tail, es);
    }
  }

  lemma LetReads(name: string, ty: Option<TypeExpr>, init: Expr, rest: Tokens, es: seq<ParseError>)
    requires Writable(init)
    ensures LetStmt(Input(PrintLet(name, ty, init, rest), es)) == Parsed(Let(name, ty, init), Input(rest, es))
  {
    ExpressionRoundTrip(init, More(SEMICOLON, rest), es);
    if ty.Some? {
      TypeRoundTrip(ty.value, More(EQ, Print(init, 0, More(SEMICOLON, rest))), es);
    }
  }

  lemma ReturnReads(e: Option<Expr>, rest: Tokens, es: seq<ParseError>)
    requires WritableInit(e)
    ensures ReturnStmt(Input(More(KW_RETURN, PrintResult(e, More(SEMICOLON, rest))), es)) == Parsed(Return(e), Input(rest, es))
  {
    if e.Some? {
      ExprStarts(e.value, 0, More(SEMICOLON, rest));
      ExpressionRoundTrip(e.value, More(SEMICOLON, rest), es);
    }
  }

  /** `(condition)` before `rest`. */
  lemma ConditionReads(c: Expr, rest: Tokens, es: seq<ParseError>)
    requires Writable(c)
    ensures Condition(Input(PrintCondition(c, rest), es)) == Parsed(c, Input(rest, es))
  {
    ExpressionRoundTrip(c, More(PAREN_CLOSE, rest), es);
  }

  // ── How statements begin ───────────────────────────────────────────────────

  predicate StartsStmt(ts: Tokens) {
    && ts.More?
    && (StartsExpr(ts) || StartsControl(ts.head) || ts.head == DOLLAR || ts.head == DOLLAR_BRACE_OPEN
        || ts.head == KW_DOLLAR_TEMPLATE || ts.head == AT || ts.head == KW_AT_TEMPLATE)
  }

  lemma PlainStarts(s: Stmt, rest: Tokens)
    requires WritableStmt(s) && IsPlain(s)
    ensures StartsExpr(PrintPlain(s, rest))
  {
    match s {
      case Assign(t, v) => ExprStarts(Source(t), 0, More(EQ, Print(v, 0, rest)));
      case ExprStmt(e) => ExprStarts(e, 0, rest);
    }
  }

  lemma ControlStarts(s: Stmt, rest: Tokens)
    requires WritableStmt(s) && IsControl(s)
    ensures PrintControl(s, rest).More? && StartsControl(PrintControl(s, rest).head)
  {
  }

  lemma TemplateStarts(s: Stmt, handle: HandleBind, rest: Tokens)
    requires WritableStmt(s) && s.ThreadSpawn?
    ensures var ts := PrintTemplate(s, handle, rest);
      && ts.More? && (ts.head == DOLLAR || ts.head == DOLLAR_BRACE_OPEN || ts.head == KW_DOLLAR_TEMPLATE)
      && (s.thread.AnonymousThread? <==> ts.head == KW_DOLLAR_TEMPLATE)
  {
  }

  lemma ScopeStmtStarts(s: Stmt, rest: Tokens)
    requires WritableStmt(s) && s.ScopeBlock?
    ensures var ts := PrintScopeStmt(s, rest);
      ts.More? && ts.head == if s.scope.AnonymousScope? then KW_AT_TEMPLATE else AT
  {
  }

  lemma StmtStarts(s: Stmt, rest: Tokens)
    requires WritableStmt(s)
    ensures StartsStmt(PrintStmt(s, rest))
  {
    if IsPlain(s) {
      PlainStarts(s, More(SEMICOLON, rest));
    } else if IsControl(s) {
      ControlStarts(s, rest);
    } else if s.ThreadSpawn? {
      TemplateStarts(s, s.handle, rest);
    } else {
      ScopeStmtStarts(s, rest);
    }
  }

  /** A name before `=` is a whole expression. */
  lemma NameBeforeEq(s: Input)
    requires s.PeeksWord() && s.Next().Peeks(EQ)
    ensures Expression(s).next == s.Next()
  {
    var name := NameOrCall(s.left.head.name, s.Next());
    assert name.next == s.Next();
    assert Primary(s) == name;
    assert PostfixLoop(name.v, s.Next()).next == s.Next();
    assert Prefix(s).next == s.Next();
    assert PrattLoop(Prefix(s).v, s.Next(), 0).next == s.Next();
  }

  /** Neither an expression statement nor an assignment is taken for a spawn that binds its handle. */
  lemma NotPrebind(s: Stmt, rest: Tokens, es: seq<ParseError>)
    requires WritableStmt(s) && IsPlain(s)
    ensures !IsPrebind(Input(PrintPlain(s, More(SEMICOLON, rest)), es))
  {
    var tail := More(SEMICOLON, rest);
    var here := Input(PrintPlain(s, tail), es);
    if here.PeeksWord() && here.Next().Peeks(EQ) {
      NameBeforeEq(here);
      if s.Assign? {
        ExpressionRoundTrip(Source(s.target), More(EQ, Print(s.value, 0, tail)), es);
        ExprStarts(s.value, 0, tail);
      } else {
        ExpressionRoundTrip(s.expr, tail, es);
      }
    }
  }

  // ── Statements and blocks ──────────────────────────────────────────────────

  /** How a statement is chosen by its first token. */
  lemma Chosen(s: Input)
    requires s.left.More? && !s.left.head.Word?
    ensures StartsControl(s.left.head) ==> Statement(s) == Control(s)
    ensures StartsSpawn(s) ==> Statement(s) == Spawn(s)
    ensures s.left.head == AT || s.left.head == KW_AT_TEMPLATE ==> Statement(s) == ScopeStmt(s)
  {
  }

  lemma ChosenPlain(s: Input)
    requires StartsExpr(s.left) && !IsPrebind(s)
    ensures Statement(s) == ExprOrAssign(s, true)
  {
  }

  lemma {:induction false} StmtReads(s: Stmt, rest: Tokens, es: seq<ParseError>)
    requires WritableStmt(s) && NoElseNext(rest)
    ensures Statement(Input(PrintStmt(s, rest), es)) == Parsed(s, Input(rest, es))
    decreases s, 3
  {
    if IsPlain(s) {
      PlainStmtReads(s, rest, es);
    } else if s.ThreadSpawn? {
      SpawnReads(s, rest, es);
    } else if s.ScopeBlock? {
      ScopeStmtReads(s, rest, es);
      Chosen(Input(PrintScopeStmt(s, rest), es));
    } else {
      ControlStarts(s, rest);
      ControlReads(s, rest, es);
      Chosen(Input(PrintControl(s, rest), es));
    }
  }

  lemma PlainStmtReads(s: Stmt, rest: Tokens, es: seq<ParseError>)
    requires WritableStmt(s) && IsPlain(s)
    ensures Statement(Input(PrintPlain(s, More(SEMICOLON, rest)), es)) == Parsed(s, Input(rest, es))
  {
    PlainStarts(s, More(SEMICOLON, rest));
    NotPrebind(s, rest, es);
    PlainReads(s, true, rest, es);
    ChosenPlain(Input(PrintPlain(s, More(SEMICOLON, rest)), es));
  }

  lemma {:induction false} ControlReads(s: Stmt, rest: Tokens, es: seq<ParseError>)
    requires WritableStmt(s) && NoElseNext(rest) && IsControl(s)
    requires PrintControl(s, rest).More? && StartsControl(PrintControl(s, rest).head)
    ensures Control(Input(PrintControl(s, rest), es)) == Parsed(s, Input(rest, es))
    decreases s, 2
  {
    match s {
      case Let(name, ty, init) => LetReads(name, ty, init, rest, es);
      case If(i) => IfReads(i, rest, es);
      case While(c, b) => WhileReads(c, b, rest, es);
      case For(_, _, _, _) => ForReads(s, rest, es);
      case Return(e) => ReturnReads(e, rest, es);
      case ExclusiveBlock(b) => BlockReads(b, rest, es);
      case _ =>
    }
  }

  lemma {:induction false} BlockReads(b: Block, rest: Tokens, es: seq<ParseError>)
    requires WritableStmts(b.stmts)
    ensures Braced(Input(PrintBlock(b, rest), es)) == Parsed(b, Input(rest, es))
    decreases b, 1
  {
    BodyReads(b, rest, es);
  }

  lemma {:induction false} BodyReads(b: Block, rest: Tokens, es: seq<ParseError>)
    requires WritableStmts(b.stmts)
    ensures StmtRun(Input(PrintBody(b, rest), es)) == Parsed(b.stmts, Input(More(BRACE_CLOSE, rest), es))
    decreases b, 0
  {
    StmtsRead(b.stmts, rest, es);
  }

  lemma {:induction false} StmtsRead(ss: seq<Stmt>, rest: Tokens, es: seq<ParseError>)
    requires WritableStmts(ss)
    ensures StmtRun(Input(PrintStmts(ss, More(BRACE_CLOSE, rest)), es)) == Parsed(ss, Input(More(BRACE_CLOSE, rest), es))
    decreases ss
  {
    if ss != [] {
      var tail := PrintStmts(ss[1..], More(BRACE_CLOSE, rest));
      StmtsStart(ss[1..], rest);
      StmtStarts(ss[0], tail);
      StmtReads(ss[0], tail, es);
      StmtsRead(ss[1..], rest, es);
      assert ss == [ss[0]] + ss[1..];
    }
  }

  lemma StmtsStart(ss: seq<Stmt>, rest: Tokens)
    requires WritableStmts(ss)
    ensures NoElseNext(PrintStmts(ss, More(BRACE_CLOSE, rest)))
  {
    if ss != [] {
      StmtStarts(ss[0], PrintStmts(ss[1..], More(BRACE_CLOSE, rest)));
    }
  }

  lemma {:induction false} IfReads(i: IfStmt, rest: Tokens, es: seq<ParseError>)
    requires WritableIf(i) && NoElseNext(rest)
    ensures IfChain(Input(PrintIf(i, rest), es)) == Parsed(i, Input(rest, es))
    decreases i, 1
  {
    var tail := PrintElse(i, rest);
    ConditionReads(i.condition, PrintBlock(i.thenBlock, tail), es);
    BlockReads(i.thenBlock, tail, es);
    ElseReads(i, rest, es);
  }

  lemma {:induction false} ElseReads(i: IfStmt, rest: Tokens, es: seq<ParseError>)
    requires WritableIf(i) && NoElseNext(rest)
    ensures ElseOf(Input(PrintElse(i, rest), es)) == Parsed(i.elseBranch, Input(rest, es))
    decreases i, 0
  {
    match i.elseBranch {
      case NoElse =>
      case Else(b) => BlockReads(b, rest, es);
      case ElseIf(next) => IfReads(next, rest, es);
    }
  }

  lemma {:induction false} WhileReads(c: Expr, b: Block, rest: Tokens, es: seq<ParseError>)
    requires Writable(c) && WritableStmts(b.stmts)
    ensures WhileStmt(Input(More(KW_WHILE, PrintCondition(c, PrintBlock(b, rest))), es)) == Parsed(While(c, b), Input(rest, es))
    decreases b, 2
  {
    ConditionReads(c, PrintBlock(b, rest), es);
    BlockReads(b, rest, es);
  }

  lemma ForUpdateReads(update: Option<Stmt>, rest: Tokens, es: seq<ParseError>)
    requires update.Some? ==> IsPlain(update.value) && WritableStmt(update.value)
    ensures ForUpdate(Input(PrintForUpdate(update, rest), es)) == Parsed(update, Input(rest, es))
  {
    if update.Some? {
      PlainReads(update.value, false, More(PAREN_CLOSE, rest), es);
      PlainStarts(update.value, More(PAREN_CLOSE, rest));
    }
  }

  lemma ForTailReads(test: Option<Expr>, update: Option<Stmt>, rest: Tokens, es: seq<ParseError>)
    requires WritableInit(test)
    requires update.Some? ==> IsPlain(update.value) && WritableStmt(update.value)
    ensures var t := ForTest(Input(PrintForTail(test, update, rest), es));
      t.v == test && ForUpdate(t.next) == Parsed(update, Input(rest, es))
    ensures NoElseNext(PrintForTail(test, update, rest))
  {
    var third := PrintForUpdate(update, rest);
    ForUpdateReads(update, rest, es);
    if test.Some? {
      ExprStarts(test.value, 0, More(SEMICOLON, third));
      ExpressionRoundTrip(test.value, More(SEMICOLON, third), es);
    }
  }

  lemma {:induction false} ForReads(s: Stmt, rest: Tokens, es: seq<ParseError>)
    requires s.For? && WritableStmt(s)
    ensures ForStmt(Input(PrintFor(s, rest), es)) == Parsed(s, Input(rest, es))
    decreases s, 1
  {
    var block := PrintBlock(s.body, rest);
    var tail := PrintForTail(s.test, s.update, block);
    BlockReads(s.body, rest, es);
    ForTailReads(s.test, s.update, block, es);
    ForFirstReads(s, tail, es);
  }

  lemma {:induction false} ForFirstReads(s: Stmt, rest: Tokens, es: seq<ParseError>)
    requires s.For? && WritableStmt(s) && NoElseNext(rest)
    ensures ForFirst(Input(PrintForFirst(s, rest), es)) == Parsed(s.first, Input(rest, es))
    decreases s, 0
  {
    if s.first.Some? {
      StmtStarts(s.first.value, rest);
      StmtReads(s.first.value, rest, es);
    }
  }

  lemma {:induction false} SpawnReads(s: Stmt, rest: Tokens, es: seq<ParseError>)
    requires s.ThreadSpawn? && WritableStmt(s)
    ensures Statement(Input(PrintSpawn(s, rest), es)) == Parsed(s, Input(rest, es))
    decreases s, 2
  {
    if IsPrebound(s) {
      TemplateReads(s, Discard, rest, es);
      TemplateStarts(s, Discard, rest);
      ChosenPrebind(s.handle.name, PrintTemplate(s, Discard, rest), es);
    } else {
      TemplateReads(s, s.handle, rest, es);
      TemplateStarts(s, s.handle, rest);
      Chosen(Input(PrintTemplate(s, s.handle, rest), es));
    }
  }

  lemma ChosenPrebind(name: string, rest: Tokens, es: seq<ParseError>)
    requires StartsSpawn(Input(rest, es))
    ensures var spawn := Spawn(Input(rest, es));
      Statement(Input(More(Word(name), More(EQ, rest)), es)) == Parsed(spawn.v.(handle := Bind(name)), spawn.next)
  {
  }

  lemma {:induction false} TemplateReads(s: Stmt, handle: HandleBind, rest: Tokens, es: seq<ParseError>)
    requires s.ThreadSpawn? && WritableStmt(s)
    ensures Spawn(Input(PrintTemplate(s, handle, rest), es)) == Parsed(s.(handle := handle), Input(rest, es))
    decreases s, 1
  {
    match s.thread {
      case Shorthand => ShorthandReads(s, handle, rest, es);
      case NamedThread(_) => NamedReads(s, handle, rest, es);
      case AnonymousThread(_) => AnonymousReads(s, handle, rest, es);
    }
  }

  lemma {:induction false} ShorthandReads(s: Stmt, handle: HandleBind, rest: Tokens, es: seq<ParseError>)
    requires s.ThreadSpawn? && s.thread.Shorthand? && WritableStmt(s)
    ensures Spawn(Input(PrintTemplate(s, handle, rest), es)) == Parsed(s.(handle := handle), Input(rest, es))
    decreases s, 0, 1
  {
    TailReads(s.thread, s.args, s.body, handle, rest, es);
    BodyReads(s.body, PrintHandle(handle, More(SEMICOLON, rest)), es);
  }

  lemma {:induction false} NamedReads(s: Stmt, handle: HandleBind, rest: Tokens, es: seq<ParseError>)
    requires s.ThreadSpawn? && s.thread.NamedThread? && WritableStmt(s)
    ensures Spawn(Input(PrintTemplate(s, handle, rest), es)) == Parsed(s.(handle := handle), Input(rest, es))
    decreases s, 0, 1
  {
    TailReads(s.thread, s.args, s.body, handle, rest, es);
    ArgsAndBodyRead(s, PrintHandle(handle, More(SEMICOLON, rest)), es);
  }

  lemma {:induction false} AnonymousReads(s: Stmt, handle: HandleBind, rest: Tokens, es: seq<ParseError>)
    requires s.ThreadSpawn? && s.thread.AnonymousThread? && WritableStmt(s)
    ensures Spawn(Input(PrintTemplate(s, handle, rest), es)) == Parsed(s.(handle := handle), Input(rest, es))
    decreases s, 0, 1
  {
    var tail := PrintHandle(handle, More(SEMICOLON, rest));
    TailReads(s.thread, s.args, s.body, handle, rest, es);
    ArgsAndBodyRead(s, tail, es);
    ThreadReads(s.thread.decl, PrintCallArgs(s.args, PrintBlock(s.body, tail)), es);
  }

  lemma {:induction false} ArgsAndBodyRead(s: Stmt, tail: Tokens, es: seq<ParseError>)
    requires s.ThreadSpawn? && WritableStmt(s)
    ensures var args := CallArgs(Input(PrintCallArgs(s.args, PrintBlock(s.body, tail)), es));
      args.v == s.args && Braced(args.next) == Parsed(s.body, Input(tail, es))
    decreases s, 0, 0
  {
    BlockReads(s.body, tail, es);
    CallArgsRead(s.args, PrintBlock(s.body, tail), es);
  }

  lemma TailReads(t: ThreadRef, args: seq<Expr>, b: Block, h: HandleBind, rest: Tokens, es: seq<ParseError>)
    ensures SpawnTail(t, args, b, Input(PrintHandle(h, More(SEMICOLON, rest)), es))
         == Parsed(ThreadSpawn(t, args, b, h), Input(rest, es))
  {
  }

  lemma {:induction false} ScopeStmtReads(s: Stmt, rest: Tokens, es: seq<ParseError>)
    requires s.ScopeBlock? && WritableStmt(s)
    ensures var here := Input(PrintScopeStmt(s, rest), es);
      (here.Peeks(AT) || here.Peeks(KW_AT_TEMPLATE)) && ScopeStmt(here) == Parsed(s, Input(rest, es))
    decreases s, 2
  {
    var block := PrintBlock(s.body, rest);
    BlockReads(s.body, rest, es);
    OptionalArgsRead(s.args, block, es);
    if s.scope.AnonymousScope? {
      ScopeReads(s.scope.decl, PrintOptionalArgs(s.args, block), es);
    }
  }

  // ── Functions and templates ────────────────────────────────────────────────

  lemma {:induction false} FuncReads(f: FuncDef, rest: Tokens, es: seq<ParseError>)
    requires WritableFunc(f)
    ensures var s := Input(More(Word(f.name), PrintSignature(f.params, f.returnType, f.body, rest)), es);
      Func(s, f.kind) == Parsed(f, Input(rest, es))
    decreases f
  {
    SignatureReads(f.params, f.returnType, f.body, rest, es, f.kind, f.name);
  }

  lemma {:induction false} HandlerReads(h: HandlerDef, rest: Tokens, es: seq<ParseError>)
    requires WritableParams(h.params) && WritableStmts(h.body.stmts)
    ensures var s := Input(More(Word(h.name), PrintSignature(h.params, h.returnType, h.body, rest)), es);
      Func(s, Async) == Parsed(FuncDef(Async, h.name, h.params, h.returnType, h.body), Input(rest, es))
    decreases h
  {
    SignatureReads(h.params, h.returnType, h.body, rest, es, Async, h.name);
  }

  lemma {:induction false} SignatureReads(ps: seq<Param>, ty: TypeExpr, b: Block, rest: Tokens, es: seq<ParseError>, kind: FuncKind, name: string)
    requires WritableParams(ps) && WritableStmts(b.stmts)
    ensures Signature(Input(PrintSignature(ps, ty, b, rest), es), kind, name)
         == Parsed(FuncDef(kind, name, ps, ty, b), Input(rest, es))
    decreases b, 2
  {
    var block := PrintBlock(b, rest);
    BlockReads(b, rest, es);
    TypeRoundTrip(ty, block, es);
    ParamsRead(ps, More(COLON, PrintType(ty, block)), es);
  }

  lemma {:induction false} ScopeMemberReads(m: ScopeMember, rest: Tokens, es: seq<ParseError>)
    requires WritableScopeMember(m)
    ensures OneScopeMember(Input(PrintScopeMember(m, rest), es)) == Parsed(m, Input(rest, es))
    decreases m
  {
    if m.ScopeDefine? {
      FieldReads(m.d, rest, es);
    } else {
      FuncReads(m.f, rest, es);
    }
  }

  lemma {:induction false} ScopeMembersRead(ms: seq<ScopeMember>, rest: Tokens, es: seq<ParseError>)
    requires WritableScopeMembers(ms)
    ensures ScopeMembers(Input(PrintScopeMembers(ms, More(BRACE_CLOSE, rest)), es)) == Parsed(ms, Input(More(BRACE_CLOSE, rest), es))
    decreases ms
  {
    if ms != [] {
      ScopeMemberReads(ms[0], PrintScopeMembers(ms[1..], More(BRACE_CLOSE, rest)), es);
      ScopeMembersRead(ms[1..], rest, es);
      assert ms == [ms[0]] + ms[1..];
    }
  }

  lemma {:induction false} ScopeReads(d: ScopeDecl, rest: Tokens, es: seq<ParseError>)
    requires WritableScope(d)
    ensures Scope(Input(PrintScope(d, rest), es)) == Parsed(d, Input(rest, es))
    decreases d
  {
    ScopeMembersRead(d.members, rest, es);
    OptionalParamsRead(d.params, More(BRACE_OPEN, PrintScopeMembers(d.members, More(BRACE_CLOSE, rest))), es);
  }

  lemma {:induction false} ThreadMemberReads(m: ThreadMember, rest: Tokens, es: seq<ParseError>)
    requires WritableThreadMember(m)
    ensures OneThreadMember(Input(PrintThreadMember(m, rest), es)) == Parsed(m, Input(rest, es))
    decreases m, 1
  {
    if m.Handler? {
      HandlerReads(m.h, rest, es);
    } else if m.Expose? || m.ExposeMutable? || m.Define? {
      FieldMemberReads(m, rest, es);
    } else {
      ThreadFuncReads(m, rest, es);
    }
  }

  lemma FieldMemberReads(m: ThreadMember, rest: Tokens, es: seq<ParseError>)
    requires (m.Expose? || m.ExposeMutable? || m.Define?) && WritableInit(m.d.initializer)
    ensures var s := Input(PrintThreadMember(m, rest), es);
      !s.Empty() && OneThreadMember(s) == FieldMember(s) == Parsed(m, Input(rest, es))
  {
    FieldReads(m.d, rest, es);
  }

  lemma {:induction false} ThreadFuncReads(m: ThreadMember, rest: Tokens, es: seq<ParseError>)
    requires WritableThreadMember(m) && (m.OnEnter? || m.OnExit? || m.OnTerminate? || m.MemberFunc?)
    ensures OneThreadMember(Input(PrintFunc(m.f, rest), es)) == Parsed(m, Input(rest, es))
    decreases m, 0
  {
    FuncReads(m.f, rest, es);
    var signature := More(Word(m.f.name), PrintSignature(m.f.params, m.f.returnType, m.f.body, rest));
    FuncChosen(signature, es);
  }

  lemma FuncChosen(rest: Tokens, es: seq<ParseError>)
    ensures var f := Func(Input(rest, es), Sync);
      OneThreadMember(Input(More(KW_FUNCTION, rest), es)) == Parsed(ThreadMemberOf(f.v), f.next)
    ensures var f := Func(Input(rest, es), Async);
      OneThreadMember(Input(More(KW_ASYNC, More(KW_FUNCTION, rest)), es)) == Parsed(ThreadMemberOf(f.v), f.next)
  {
  }

  lemma {:induction false} ThreadMembersRead(ms: seq<ThreadMember>, rest: Tokens, es: seq<ParseError>)
    requires WritableThreadMembers(ms)
    ensures ThreadMembers(Input(PrintThreadMembers(ms, More(BRACE_CLOSE, rest)), es)) == Parsed(ms, Input(More(BRACE_CLOSE, rest), es))
    decreases ms
  {
    if ms != [] {
      ThreadMemberReads(ms[0], PrintThreadMembers(ms[1..], More(BRACE_CLOSE, rest)), es);
      ThreadMembersRead(ms[1..], rest, es);
      assert ms == [ms[0]] + ms[1..];
    }
  }

  lemma {:induction false} ThreadReads(d: ThreadDecl, rest: Tokens, es: seq<ParseError>)
    requires WritableThread(d)
    ensures Thread(Input(PrintThread(d, rest), es)) == Parsed(d, Input(rest, es))
    decreases d
  {
    ThreadMembersRead(d.members, rest, es);
    OptionalParamsRead(d.params, More(BRACE_OPEN, PrintThreadMembers(d.members, More(BRACE_CLOSE, rest))), es);
  }

  // ── Programs ───────────────────────────────────────────────────────────────

  lemma ItemStarts(item: Item, rest: Tokens)
    requires WritableItem(item)
    ensures PrintItem(item, rest).More? && NoElseNext(PrintItem(item, rest))
  {
    if item.StmtItem? {
      StmtStarts(item.stmt, rest);
    }
  }

  /** The statements of a writable program do not begin as its declarations do. */
  lemma TopStatement(s: Stmt, rest: Tokens)
    requires WritableItem(StmtItem(s))
    ensures var ts := PrintStmt(s, rest);
      ts.More? && ts.head != KW_AT_TEMPLATE && (ts.head == KW_DOLLAR_TEMPLATE ==> ts.tail.More? && !ts.tail.head.Word?)
  {
    StmtStarts(s, rest);
    if IsPlain(s) {
      PlainStarts(s, More(SEMICOLON, rest));
    } else if IsControl(s) {
      ControlStarts(s, rest);
    } else if s.ThreadSpawn? {
      TemplateStarts(s, s.handle, rest);
      if s.thread.AnonymousThread? && !IsPrebound(s) {
        UnnamedThread(s.thread.decl, PrintCallArgs(s.args, PrintBlock(s.body, PrintHandle(s.handle, More(SEMICOLON, rest)))));
      }
    } else {
      ScopeStmtStarts(s, rest);
    }
  }

  lemma UnnamedThread(d: ThreadDecl, rest: Tokens)
    requires WritableThread(d) && d.name.None?
    ensures var ts := PrintThread(d, rest); ts.More? && ts.tail.More? && !ts.tail.head.Word?
  {
  }

  lemma TopChosen(s: Input)
    requires StartsStmt(s.left) && s.left.head != KW_AT_TEMPLATE
    requires s.left.head == KW_DOLLAR_TEMPLATE ==> s.left.tail.More? && !s.left.tail.head.Word?
    ensures TopItem(s) == Parsed(StmtItem(Statement(s).v), Statement(s).next)
  {
  }

  lemma ItemReads(item: Item, rest: Tokens, es: seq<ParseError>)
    requires WritableItem(item) && NoElseNext(rest)
    ensures PrintItem(item, rest).More?
    ensures TopItem(Input(PrintItem(item, rest), es)) == Parsed(item, Input(rest, es))
  {
    ItemStarts(item, rest);
    match item {
      case ScopeItem(d) => ScopeReads(d, rest, es);
      case ThreadItem(d) => ThreadReads(d, rest, es);
      case FuncItem(f) => FuncReads(f, rest, es);
      case StmtItem(s) =>
        StmtReads(s, rest, es);
        StmtStarts(s, rest);
        TopStatement(s, rest);
        TopChosen(Input(PrintStmt(s, rest), es));
    }
  }

  /** Every writable program is read back, with no error. */
  lemma {:induction false} ProgramRoundTrip(items: seq<Item>)
    requires WritableProgram(items)
    ensures Program(Input(PrintProgram(items), [])) == Parsed(items, Input(End, []))
  {
    if items != [] {
      var tail := PrintProgram(items[1..]);
      if |items| > 1 {
        ItemStarts(items[1], PrintProgram(items[1..][1..]));
      }
      ItemReads(items[0], tail, []);
      ProgramRoundTrip(items[1..]);
      assert items == [items[0]] + items[1..];
    }
  }

  /** A block of an anonymous scope template can stand inside a block, but as the first thing of a
      program the same tokens are a declaration, and what follows it is not its body. */
  lemma AnonymousScopeBlockIsLostAtTheTop(s: Stmt, rest: Tokens, es: seq<ParseError>)
    requires WritableStmt(s) && NoElseNext(rest) && s.ScopeBlock? && s.scope.AnonymousScope?
    ensures Statement(Input(PrintStmt(s, rest), es)).v == s
    ensures TopItem(Input(PrintStmt(s, rest), es)).v == ScopeItem(s.scope.decl)
  {
    StmtReads(s, rest, es);
    ScopeReads(s.scope.decl, PrintOptionalArgs(s.args, PrintBlock(s.body, rest)), es);
  }

  // ── The parser's own input ─────────────────────────────────────────────────

  function Listed(ts: Tokens): seq<Token> {
    if ts.End? then [] else [ts.head] + Listed(ts.tail)
  }

  lemma {:induction false} ListedIsRead(ts: Tokens, before: seq<Token>)
    ensures Parsers.From(before + Listed(ts), |before|) == ts
    decreases ts
  {
    if ts.More? {
      assert before + Listed(ts) == (before + [ts.head]) + Listed(ts.tail);
      ListedIsRead(ts.tail, before + [ts.head]);
    }
  }

  /** A parser over the printed tokens starts where the round trip does; so `ParseProgram` returns the
      program, leaves nothing and reports nothing. */
  lemma PrintedProgramsParse(items: seq<Item>)
    requires WritableProgram(items)
    ensures var p := Program(Input(Parsers.From(Listed(PrintProgram(items)), 0), []));
      p.v == items && p.next == Input(End, [])
  {
    ListedIsRead(PrintProgram(items), []);
    assert [] + Listed(PrintProgram(items)) == Listed(PrintProgram(items));
    ProgramRoundTrip(items);
  }

  /** The same of the parser object: printing and parsing again. */
  method Reprint(items: seq<Item>) returns (again: seq<Item>, errors: seq<ParseError>)
    requires WritableProgram(items)
    ensures again == items && errors == []
  {
    var parser := new Parsers.Parser(Listed(PrintProgram(items)));
    PrintedProgramsParse(items);
    again := parser.ParseProgram();
    errors := parser.errors;
  }
}
