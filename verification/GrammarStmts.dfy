/** What the statement and template parsers compute, as functions of the tokens that are left and
    the errors so far (crates/tessera-parser/src/parser.rs). Sub-parsers such as `Params` may consume
    nothing; every loop still advances because a block, whose missing braces are only recorded,
    always does. */
module GrammarStmts {
  import opened Options
  import opened Ast
  import opened Grammar

  // ── Parameters and fields ──────────────────────────────────────────────────

  function Initializer(s: Input): (r: Parsed<Option<Expr>>)
    ensures r.next.Left() <= s.Left()
  {
    if s.Peeks(EQ) then
      var e := Expression(s.Next());
      Parsed(Some(e.v), e.next)
    else Parsed(None, s)
  }

  /** `name: type` */
  function TypedName(s: Input): (r: Parsed<(string, TypeExpr)>)
    ensures r.next.Left() <= s.Left()
  {
    var name := Name(s);
    var ty := Type(name.next.Expect(COLON));
    Parsed((name.v, ty.v), ty.next)
  }

  function OneParam(s: Input): (r: Parsed<Param>)
    ensures r.next.Left() <= s.Left()
  {
    var typed := TypedName(s);
    var init := Initializer(typed.next);
    Parsed(Param(typed.v.0, typed.v.1, init.v), init.next)
  }

  function ParamRun(s: Input): (r: Parsed<seq<Param>>)
    ensures r.next.Left() <= s.Left()
    decreases s.Left()
  {
    if s.Empty() || s.Peeks(PAREN_CLOSE) then Parsed([], s)
    else
      var first := OneParam(s);
      if first.next.Peeks(COMMA) then
        var more := ParamRun(first.next.Next());
        Parsed([first.v] + more.v, more.next)
      else Parsed([first.v], first.next)
  }

  function Params(s: Input): (r: Parsed<seq<Param>>)
    ensures r.next.Left() <= s.Left()
  {
    var run := ParamRun(s.Expect(PAREN_OPEN));
    Parsed(run.v, run.next.Expect(PAREN_CLOSE))
  }

  function OptionalParams(s: Input): (r: Parsed<seq<Param>>)
    ensures r.next.Left() <= s.Left()
  {
    if s.Peeks(PAREN_OPEN) then Params(s) else Parsed([], s)
  }

  function OptionalArgs(s: Input): (r: Parsed<seq<Expr>>)
    ensures r.next.Left() <= s.Left()
  {
    if s.Peeks(PAREN_OPEN) then CallArgs(s) else Parsed([], s)
  }

  function OptionalName(s: Input): (r: Parsed<Option<string>>)
    ensures r.next.Left() <= s.Left()
  {
    if s.PeeksWord() then Parsed(Some(s.left.head.name), s.Next()) else Parsed(None, s)
  }

  function Field(s: Input): (r: Parsed<FieldDecl>)
    ensures r.next.Left() <= s.Left()
  {
    var typed := TypedName(s);
    var init := Initializer(typed.next);
    Parsed(FieldDecl(typed.v.0, typed.v.1, init.v), init.next.Expect(SEMICOLON))
  }

  // ── Simple statements ──────────────────────────────────────────────────────

  predicate CanAssign(e: Expr) {
    e.Ident? || e.FieldAccess? || e.Index?
  }

  /** `expr_to_assign_target` */
  function TargetOf(e: Expr): AssignTarget {
    match e
    case Ident(name) => ToIdent(name)
    case FieldAccess(o, f) => ToField(o, f)
    case Index(o, i) => ToIndex(o, i)
    case _ => ToIdent(ERROR_NAME)
  }

  /** An expression statement or an assignment, with or without its semicolon. */
  function ExprOrAssign(s: Input, semi: bool): (r: Parsed<Stmt>)
    ensures r.next.Left() <= s.Left() && (!s.Empty() ==> r.next.Left() < s.Left())
  {
    var e := Expression(s);
    if e.next.Peeks(EQ) then
      var value := Expression(e.next.Next());
      var next := if semi then value.next.Expect(SEMICOLON) else value.next;
      Parsed(Assign(TargetOf(e.v), value.v), if CanAssign(e.v) then next else next.Report(BadTarget))
    else
      Parsed(ExprStmt(e.v), if semi then e.next.Expect(SEMICOLON) else e.next)
  }

  function LetStmt(s: Input): (r: Parsed<Stmt>)
    requires s.Peeks(KW_LET)
    ensures r.next.Left() < s.Left()
  {
    var name := Name(s.Next());
    var ty: Parsed<Option<TypeExpr>> :=
      if name.next.Peeks(COLON) then
        var t := Type(name.next.Next());
        Parsed(Some(t.v), t.next)
      else Parsed(None, name.next);
    var init := Expression(ty.next.Expect(EQ));
    Parsed(Let(name.v, ty.v, init.v), init.next.Expect(SEMICOLON))
  }

  function ReturnStmt(s: Input): (r: Parsed<Stmt>)
    requires s.Peeks(KW_RETURN)
    ensures r.next.Left() < s.Left()
  {
    if s.Next().Peeks(SEMICOLON) then Parsed(Return(None), s.Next().Next())
    else
      var e := Expression(s.Next());
      Parsed(Return(Some(e.v)), e.next.Expect(SEMICOLON))
  }

  /** `(condition)` */
  function Condition(s: Input): (r: Parsed<Expr>)
    ensures r.next.Left() <= s.Left()
  {
    var e := Expression(s.Expect(PAREN_OPEN));
    Parsed(e.v, e.next.Expect(PAREN_CLOSE))
  }

  function HandleOf(s: Input): (r: Parsed<HandleBind>)
    ensures r.next.Left() <= s.Left()
  {
    if s.Peeks(COLON_EQ) then
      var name := Name(s.Next());
      Parsed(Bind(name.v), name.next)
    else Parsed(Discard, s)
  }

  // ── Statements and blocks ──────────────────────────────────────────────────

  predicate StartsSpawn(s: Input) {
    s.Peeks(DOLLAR) || s.Peeks(DOLLAR_BRACE_OPEN) || s.Peeks(KW_DOLLAR_TEMPLATE)
  }

  /** `Ident = $…`: the handle is bound before the spawn. */
  predicate IsPrebind(s: Input) {
    s.PeeksWord() && s.Next().Peeks(EQ) && StartsSpawn(s.Next().Next())
  }

  function Statement(s: Input): (r: Parsed<Stmt>)
    ensures r.next.Left() <= s.Left() && (!s.Empty() ==> r.next.Left() < s.Left())
    decreases s.Left(), 2
  {
    if IsPrebind(s) then Prebound(s)
    else if !s.Empty() && StartsControl(s.left.head) then Control(s)
    else if StartsSpawn(s) then Spawn(s)
    else if s.Peeks(AT) || s.Peeks(KW_AT_TEMPLATE) then ScopeStmt(s)
    else ExprOrAssign(s, true)
  }

  predicate StartsControl(t: Token) {
    || t == KW_LET || t == KW_IF || t == KW_WHILE || t == KW_FOR || t == KW_RETURN
    || t == KW_BREAK || t == KW_CONTINUE || t == KW_EXCLUSIVE
  }

  /** A statement that begins with its own keyword. */
  function Control(s: Input): (r: Parsed<Stmt>)
    requires !s.Empty() && StartsControl(s.left.head)
    ensures r.next.Left() < s.Left()
    decreases s.Left(), 1, 1
  {
    if s.Peeks(KW_LET) then LetStmt(s)
    else if s.Peeks(KW_IF) then
      var i := IfChain(s);
      Parsed(If(i.v), i.next)
    else if s.Peeks(KW_WHILE) then WhileStmt(s)
    else if s.Peeks(KW_FOR) then ForStmt(s)
    else if s.Peeks(KW_RETURN) then ReturnStmt(s)
    else if s.Peeks(KW_EXCLUSIVE) then
      var body := Braced(s.Next());
      Parsed(ExclusiveBlock(body.v), body.next)
    else
      Parsed(if s.Peeks(KW_BREAK) then Break else Continue, s.Next().Expect(SEMICOLON))
  }

  function Prebound(s: Input): (r: Parsed<Stmt>)
    requires IsPrebind(s)
    ensures r.next.Left() < s.Left()
    decreases s.Left(), 1
  {
    var spawn := Spawn(s.Next().Next());
    Parsed(spawn.v.(handle := Bind(s.left.head.name)), spawn.next)
  }

  function StmtRun(s: Input): (r: Parsed<seq<Stmt>>)
    ensures r.next.Left() <= s.Left() && (!s.Empty() && !s.Peeks(BRACE_CLOSE) ==> r.next.Left() < s.Left())
    ensures r.next.Empty() || r.next.Peeks(BRACE_CLOSE)
    decreases s.Left(), 3
  {
    if s.Empty() || s.Peeks(BRACE_CLOSE) then Parsed([], s)
    else
      var first := Statement(s);
      var more := StmtRun(first.next);
      Parsed([first.v] + more.v, more.next)
  }

  /** A block; on any input it consumes at least one token, if there is one. */
  function Braced(s: Input): (r: Parsed<Block>)
    ensures r.next.Left() <= s.Left() && (!s.Empty() ==> r.next.Left() < s.Left())
    decreases s.Left(), 4
  {
    var run := StmtRun(s.Expect(BRACE_OPEN));
    Parsed(Block(run.v), run.next.Expect(BRACE_CLOSE))
  }

  function IfChain(s: Input): (r: Parsed<IfStmt>)
    requires s.Peeks(KW_IF)
    ensures r.next.Left() < s.Left()
    decreases s.Left(), 1, 0
  {
    var condition := Condition(s.Next());
    var body := Braced(condition.next);
    var branch := ElseOf(body.next);
    Parsed(IfStmt(condition.v, body.v, branch.v), branch.next)
  }

  function ElseOf(s: Input): (r: Parsed<ElseBranch>)
    ensures r.next.Left() <= s.Left()
    decreases s.Left(), 0
  {
    if !s.Peeks(KW_ELSE) then Parsed(NoElse, s)
    else if s.Next().Peeks(KW_IF) then
      var next := IfChain(s.Next());
      Parsed(ElseIf(next.v), next.next)
    else
      var body := Braced(s.Next());
      Parsed(Else(body.v), body.next)
  }

  function WhileStmt(s: Input): (r: Parsed<Stmt>)
    requires s.Peeks(KW_WHILE)
    ensures r.next.Left() < s.Left()
    decreases s.Left(), 1, 0
  {
    var condition := Condition(s.Next());
    var body := Braced(condition.next);
    Parsed(While(condition.v, body.v), body.next)
  }

  /** The first clause is a whole statement, or an empty one. */
  function ForFirst(s: Input): (r: Parsed<Option<Stmt>>)
    ensures r.next.Left() <= s.Left()
    decreases s.Left(), 3
  {
    if s.Peeks(SEMICOLON) then Parsed(None, s.Next())
    else
      var first := Statement(s);
      Parsed(Some(first.v), first.next)
  }

  function ForTest(s: Input): (r: Parsed<Option<Expr>>)
    ensures r.next.Left() <= s.Left()
  {
    if s.Peeks(SEMICOLON) then Parsed(None, s.Next())
    else
      var e := Expression(s);
      Parsed(Some(e.v), e.next.Expect(SEMICOLON))
  }

  function ForUpdate(s: Input): (r: Parsed<Option<Stmt>>)
    ensures r.next.Left() <= s.Left()
  {
    if s.Peeks(PAREN_CLOSE) then Parsed(None, s.Next())
    else
      var update := ExprOrAssign(s, false);
      Parsed(Some(update.v), update.next.Expect(PAREN_CLOSE))
  }

  function ForStmt(s: Input): (r: Parsed<Stmt>)
    requires s.Peeks(KW_FOR)
    ensures r.next.Left() < s.Left()
    decreases s.Left(), 1, 0
  {
    var first := ForFirst(s.Next().Expect(PAREN_OPEN));
    var test := ForTest(first.next);
    var update := ForUpdate(test.next);
    var body := Braced(update.next);
    Parsed(For(first.v, test.v, update.v, body.v), body.next)
  }

  /** What follows the body of a spawn: its handle and the semicolon. */
  function SpawnTail(thread: ThreadRef, args: seq<Expr>, body: Block, s: Input): (r: Parsed<Stmt>)
    ensures r.next.Left() <= s.Left()
    ensures r.v.ThreadSpawn?
  {
    var handle := HandleOf(s);
    Parsed(ThreadSpawn(thread, args, body, handle.v), handle.next.Expect(SEMICOLON))
  }

  function Spawn(s: Input): (r: Parsed<Stmt>)
    ensures r.next.Left() <= s.Left() && (!s.Empty() ==> r.next.Left() < s.Left())
    ensures r.v.ThreadSpawn?
    decreases s.Left(), if StartsSpawn(s) then 1 else 5
  {
    if s.Peeks(KW_DOLLAR_TEMPLATE) then
      var decl := Thread(s);
      var args := CallArgs(decl.next);
      var body := Braced(args.next);
      SpawnTail(AnonymousThread(decl.v), args.v, body.v, body.next)
    else if s.Peeks(DOLLAR_BRACE_OPEN) then
      var run := StmtRun(s.Next());
      SpawnTail(Shorthand, [], Block(run.v), run.next.Expect(BRACE_CLOSE))
    else if s.Peeks(DOLLAR) then
      var name := Name(s.Next());
      var args := CallArgs(name.next);
      var body := Braced(args.next);
      SpawnTail(NamedThread(name.v), args.v, body.v, body.next)
    else
      var body := Braced(s.Report(ExpectedSpawn));
      SpawnTail(Shorthand, [], body.v, body.next)
  }

  function ScopeStmt(s: Input): (r: Parsed<Stmt>)
    ensures r.next.Left() <= s.Left() && (!s.Empty() ==> r.next.Left() < s.Left())
    decreases s.Left(), if s.Peeks(AT) || s.Peeks(KW_AT_TEMPLATE) then 1 else 5
  {
    if s.Peeks(KW_AT_TEMPLATE) then
      var decl := Scope(s);
      var args := OptionalArgs(decl.next);
      var body := Braced(args.next);
      Parsed(ScopeBlock(AnonymousScope(decl.v), args.v, body.v), body.next)
    else if s.Peeks(AT) then
      var name := Name(s.Next());
      var args := OptionalArgs(name.next);
      var body := Braced(args.next);
      Parsed(ScopeBlock(NamedScope(name.v), args.v, body.v), body.next)
    else
      var body := Braced(s.Report(ExpectedScope));
      Parsed(ScopeBlock(NamedScope(ERROR_NAME), [], body.v), body.next)
  }

  // ── Functions and templates ────────────────────────────────────────────────

  /** What follows the name of a function or handler. */
  function Signature(s: Input, kind: FuncKind, name: string): (r: Parsed<FuncDef>)
    ensures r.next.Left() <= s.Left() && (!s.Empty() ==> r.next.Left() < s.Left())
    decreases s.Left(), 5
  {
    var params := Params(s);
    var ty := Type(params.next.Expect(COLON));
    var body := Braced(ty.next);
    Parsed(FuncDef(kind, name, params.v, ty.v, body.v), body.next)
  }

  function Func(s: Input, kind: FuncKind): (r: Parsed<FuncDef>)
    ensures r.next.Left() <= s.Left() && (!s.Empty() ==> r.next.Left() < s.Left())
    decreases s.Left(), 6
  {
    var name := Name(s);
    Signature(name.next, kind, name.v)
  }

  /** Dispatch on the name alone: an async `__on_enter__` of a scope is still its hook. */
  function ScopeMemberOf(f: FuncDef): ScopeMember {
    if f.name == ON_ENTER then ScopeOnEnter(f)
    else if f.name == ON_EXIT then ScopeOnExit(f)
    else ScopeFunc(f)
  }

  function OneScopeMember(s: Input): (r: Parsed<ScopeMember>)
    ensures r.next.Left() <= s.Left() && (!s.Empty() ==> r.next.Left() < s.Left())
    decreases s.Left(), 7
  {
    if s.Peeks(KW_DEFINE) then
      var d := Field(s.Next());
      Parsed(ScopeDefine(d.v), d.next)
    else
      var f := Func(s.Eat(KW_ASYNC).Expect(KW_FUNCTION), if s.Peeks(KW_ASYNC) then Async else Sync);
      Parsed(ScopeMemberOf(f.v), f.next)
  }

  function ScopeMembers(s: Input): (r: Parsed<seq<ScopeMember>>)
    ensures r.next.Left() <= s.Left()
    decreases s.Left(), 8
  {
    if s.Empty() || s.Peeks(BRACE_CLOSE) then Parsed([], s)
    else
      var first := OneScopeMember(s);
      var more := ScopeMembers(first.next);
      Parsed([first.v] + more.v, more.next)
  }

  function ScopeBody(s: Input): (r: Parsed<seq<ScopeMember>>)
    ensures r.next.Left() <= s.Left()
    decreases s.Left(), 10
  {
    var members := ScopeMembers(s.Expect(BRACE_OPEN));
    Parsed(members.v, members.next.Expect(BRACE_CLOSE))
  }

  function Scope(s: Input): (r: Parsed<ScopeDecl>)
    requires s.Peeks(KW_AT_TEMPLATE)
    ensures r.next.Left() < s.Left()
    decreases s.Left(), 0
  {
    var name := OptionalName(s.Next());
    var params := OptionalParams(name.next);
    var members := ScopeBody(params.next);
    Parsed(ScopeDecl(name.v, params.v, members.v), members.next)
  }

  /** The member recorded for something that is none. */
  function NoMember(kind: FuncKind): ThreadMember {
    MemberFunc(FuncDef(kind, ERROR_NAME, [], Void, Block([])))
  }

  /** The hooks of a thread: enter and exit are synchronous, terminate is not. */
  function ThreadMemberOf(f: FuncDef): ThreadMember {
    if f.kind == Async then (if f.name == ON_TERMINATE then OnTerminate(f) else MemberFunc(f))
    else if f.name == ON_ENTER then OnEnter(f)
    else if f.name == ON_EXIT then OnExit(f)
    else MemberFunc(f)
  }

  function Skipping(s: Input, problem: Problem): (r: Input)
    ensures r.Left() <= s.Left() && (!s.Empty() ==> r.Left() < s.Left())
  {
    if s.Empty() then s.Report(problem) else s.Report(problem).Next()
  }

  function FieldMember(s: Input): (r: Parsed<ThreadMember>)
    requires !s.Empty()
    ensures r.next.Left() < s.Left()
  {
    var d := Field(s.Next());
    Parsed(if s.Peeks(KW_EXPOSE) then Expose(d.v) else if s.Peeks(KW_DEFINE) then Define(d.v) else ExposeMutable(d.v), d.next)
  }

  function AsyncMember(s: Input): (r: Parsed<ThreadMember>)
    ensures r.next.Left() <= s.Left()
    decreases s.Left(), 7
  {
    if s.Peeks(KW_HANDLER) then
      var f := Func(s.Next(), Async);
      Parsed(Handler(HandlerDef(f.v.name, f.v.params, f.v.returnType, f.v.body)), f.next)
    else if s.Peeks(KW_FUNCTION) then
      var f := Func(s.Next(), Async);
      Parsed(ThreadMemberOf(f.v), f.next)
    else
      Parsed(NoMember(Async), Skipping(s, ExpectedAsyncMember))
  }

  function OneThreadMember(s: Input): (r: Parsed<ThreadMember>)
    ensures r.next.Left() <= s.Left() && (!s.Empty() ==> r.next.Left() < s.Left())
    decreases s.Left(), 8
  {
    if s.Peeks(KW_EXPOSE) || s.Peeks(KW_EXPOSE_MUTABLE) || s.Peeks(KW_DEFINE) then FieldMember(s)
    else if s.Peeks(KW_ASYNC) then AsyncMember(s.Next())
    else if s.Peeks(KW_FUNCTION) then
      var f := Func(s.Next(), Sync);
      Parsed(ThreadMemberOf(f.v), f.next)
    else
      Parsed(NoMember(Sync), Skipping(s, ExpectedMember))
  }

  function ThreadMembers(s: Input): (r: Parsed<seq<ThreadMember>>)
    ensures r.next.Left() <= s.Left()
    decreases s.Left(), 9
  {
    if s.Empty() || s.Peeks(BRACE_CLOSE) then Parsed([], s)
    else
      var first := OneThreadMember(s);
      var more := ThreadMembers(first.next);
      Parsed([first.v] + more.v, more.next)
  }

  function ThreadBody(s: Input): (r: Parsed<seq<ThreadMember>>)
    ensures r.next.Left() <= s.Left()
    decreases s.Left(), 10
  {
    var members := ThreadMembers(s.Expect(BRACE_OPEN));
    Parsed(members.v, members.next.Expect(BRACE_CLOSE))
  }

  function Thread(s: Input): (r: Parsed<ThreadDecl>)
    requires s.Peeks(KW_DOLLAR_TEMPLATE)
    ensures r.next.Left() < s.Left()
    decreases s.Left(), 0
  {
    var name := OptionalName(s.Next());
    var params := OptionalParams(name.next);
    var members := ThreadBody(params.next);
    Parsed(ThreadDecl(name.v, params.v, members.v), members.next)
  }

  // ── Programs ───────────────────────────────────────────────────────────────

  function TopFunc(s: Input): (r: Parsed<FuncDef>)
    requires s.Peeks(KW_FUNCTION) || s.Peeks(KW_ASYNC)
    ensures r.next.Left() < s.Left()
  {
    if s.Peeks(KW_FUNCTION) then Func(s.Next(), Sync) else Func(s.Next().Expect(KW_FUNCTION), Async)
  }

  function TopItem(s: Input): (r: Parsed<Item>)
    requires !s.Empty()
    ensures r.next.Left() < s.Left()
  {
    if s.Peeks(KW_AT_TEMPLATE) then
      var d := Scope(s);
      Parsed(ScopeItem(d.v), d.next)
    else if s.Peeks(KW_DOLLAR_TEMPLATE) && s.Next().PeeksWord() then
      var d := Thread(s);
      Parsed(ThreadItem(d.v), d.next)
    else if s.Peeks(KW_FUNCTION) || s.Peeks(KW_ASYNC) then
      var f := TopFunc(s);
      Parsed(FuncItem(f.v), f.next)
    else
      var stmt := Statement(s);
      Parsed(StmtItem(stmt.v), stmt.next)
  }

  /** `parse_program`: it always reads to the end of the tokens. */
  function Program(s: Input): (r: Parsed<seq<Item>>)
    ensures r.next.Empty()
    decreases s.Left()
  {
    if s.Empty() then Parsed([], s)
    else
      var first := TopItem(s);
      var more := Program(first.next);
      Parsed([first.v] + more.v, more.next)
  }
}
