/** The converse of the round trip (crates/tessera-parser/src/parser.rs): whatever the parser reads
    without an error is a writable tree. So the writable programs are exactly those that some token
    sequence stands for, and printing gives each of them a canonical spelling. */
module ErrorFree {
  import opened Options
  import opened Ast
  import opened Grammar
  import opened GrammarStmts
  import opened RoundTrip
  import opened RoundTripStmts

  /** Errors are never taken back. */
  predicate Grows(s: Input, t: Input) {
    |s.errors| <= |t.errors|
  }

  predicate Silent(s: Input, t: Input) {
    |s.errors| == |t.errors|
  }

  // ── Types ──────────────────────────────────────────────────────────────────

  lemma {:induction false} TypeGrows(s: Input)
    ensures Grows(s, Type(s).next)
    decreases s.Left(), 0
  {
    if (s.PeeksWord() || (s.left.More? && s.left.head.TypeWord?)) && s.Next().Peeks(LT) { TypeArgsGrow(s.Next()); }
  }

  lemma {:induction false} TypeArgsGrow(s: Input)
    requires s.Peeks(LT)
    ensures Grows(s, TypeArgs(s).next)
    ensures LooksLikeTypeArgs(s.left) ==> TypeArgs(s).v != []
    decreases s.Left(), 2
  {
    TypeArgRunGrows(s.Next());
  }

  lemma {:induction false} TypeArgRunGrows(s: Input)
    ensures Grows(s, TypeArgRun(s).next)
    decreases s.Left(), 1
  {
    if !s.Empty() && !s.Peeks(GT) {
      TypeGrows(s);
      if Type(s).next.Peeks(COMMA) { TypeArgRunGrows(Type(s).next.Next()); }
    }
  }

  // ── Expressions ────────────────────────────────────────────────────────────

  lemma {:induction false} ExpressionOk(s: Input)
    ensures Grows(s, Expression(s).next)
    ensures Silent(s, Expression(s).next) ==> Writable(Expression(s).v)
    decreases s.Left(), 6
  {
    PrattOk(s, 0);
  }

  lemma {:induction false} PrattOk(s: Input, min: nat)
    ensures Grows(s, Pratt(s, min).next)
    ensures Silent(s, Pratt(s, min).next) ==> Writable(Pratt(s, min).v)
    decreases s.Left(), 5
  {
    PrefixOk(s);
    if s.Empty() {
      assert InfixOp(Prefix(s).next).None?;
    } else {
      LoopOk(Prefix(s).v, Prefix(s).next, min);
    }
  }

  lemma {:induction false} LoopOk(left: Expr, s: Input, min: nat)
    ensures Grows(s, PrattLoop(left, s, min).next)
    ensures Silent(s, PrattLoop(left, s, min).next) && Writable(left) ==> Writable(PrattLoop(left, s, min).v)
    decreases s.Left(), 0
  {
    var op := InfixOp(s);
    if op.Some? && Power(op.value) >= min {
      PrattOk(s.Next(), Power(op.value) + 1);
      var right := Pratt(s.Next(), Power(op.value) + 1);
      LoopOk(Binary(op.value, left, right.v), right.next, min);
    }
  }

  lemma {:induction false} PrefixOk(s: Input)
    ensures Grows(s, Prefix(s).next)
    ensures Silent(s, Prefix(s).next) ==> Writable(Prefix(s).v)
    decreases s.Left(), 4
  {
    if s.Peeks(BANG) || s.Peeks(MINUS) { PrefixOk(s.Next()); } else { PostfixOk(s); }
  }

  lemma {:induction false} PostfixOk(s: Input)
    ensures Grows(s, Postfix(s).next)
    ensures Silent(s, Postfix(s).next) ==> Writable(Postfix(s).v)
    decreases s.Left(), 3
  {
    PrimaryOk(s);
    if !s.Empty() { PostfixLoopOk(Primary(s).v, Primary(s).next); }
  }

  lemma {:induction false} PostfixLoopOk(e: Expr, s: Input)
    ensures Grows(s, PostfixLoop(e, s).next)
    ensures Silent(s, PostfixLoop(e, s).next) && Writable(e) ==> Writable(PostfixLoop(e, s).v)
    decreases s.Left(), 0, 2
  {
    if s.Peeks(DOT) {
      FieldPostfixOk(e, s);
    } else if s.Peeks(BRACKET_OPEN) {
      var index := Expression(s.Next());
      ExpressionOk(s.Next());
      PostfixLoopOk(Index(e, index.v), index.next.Expect(BRACKET_CLOSE));
    }
  }

  lemma {:induction false} FieldPostfixOk(e: Expr, s: Input)
    requires s.Peeks(DOT)
    ensures Grows(s, PostfixLoop(e, s).next)
    ensures Silent(s, PostfixLoop(e, s).next) && Writable(e) ==> Writable(PostfixLoop(e, s).v)
    decreases s.Left(), 0, 1
  {
    var field := Name(s.Next());
    if field.next.Peeks(PAREN_OPEN) {
      MethodPostfixOk(e, s);
    } else {
      PostfixLoopOk(FieldAccess(e, field.v), field.next);
    }
  }

  lemma {:induction false} MethodPostfixOk(e: Expr, s: Input)
    requires s.Peeks(DOT) && Name(s.Next()).next.Peeks(PAREN_OPEN)
    ensures Grows(s, PostfixLoop(e, s).next)
    ensures Silent(s, PostfixLoop(e, s).next) && Writable(e) ==> Writable(PostfixLoop(e, s).v)
    decreases s.Left(), 0, 0
  {
    var field := Name(s.Next());
    var args := CallArgs(field.next);
    CallArgsOk(field.next);
    PostfixLoopOk(MethodCall(e, field.v, args.v), args.next);
    assert PostfixLoop(e, s) == PostfixLoop(MethodCall(e, field.v, args.v), args.next);
  }

  lemma {:induction false} PrimaryOk(s: Input)
    ensures Grows(s, Primary(s).next)
    ensures Silent(s, Primary(s).next) ==> Writable(Primary(s).v)
    decreases s.Left(), 2
  {
    if s.Peeks(KW_PANIC) {
      ExpressionOk(s.Next().Expect(PAREN_OPEN));
    } else if s.Peeks(KW_ASSERT) {
      AssertionOk(s);
    } else if s.Peeks(KW_AWAIT) || s.Peeks(KW_TRY) {
      PrefixOk(s.Next());
    } else if s.Peeks(PAREN_OPEN) {
      ExpressionOk(s.Next());
    } else if s.PeeksWord() {
      NameOrCallOk(s.left.head.name, s.Next());
    } else if s.left.More? && s.left.head.TypeWord? {
      NameOrCallOk(TypeKeyword(s.left.head.prim), s.Next());
    }
  }

  lemma {:induction false} AssertionOk(s: Input)
    requires s.Peeks(KW_ASSERT)
    ensures Grows(s, Assertion(s).next)
    ensures Silent(s, Assertion(s).next) ==> Writable(Assertion(s).v)
    decreases s.Left(), 1
  {
    var start := s.Next().Expect(PAREN_OPEN);
    ExpressionOk(start);
    var condition := Expression(start);
    if condition.next.Peeks(COMMA) { ExpressionOk(condition.next.Next()); }
  }

  lemma {:induction false} NameOrCallOk(name: string, s: Input)
    ensures Grows(s, NameOrCall(name, s).next)
    ensures Silent(s, NameOrCall(name, s).next) ==> Writable(NameOrCall(name, s).v)
    decreases s.Left(), 8
  {
    if s.Peeks(LT) && LooksLikeTypeArgs(s.left) {
      TypeArgsGrow(s);
      CallArgsOk(TypeArgs(s).next);
    } else if s.Peeks(PAREN_OPEN) {
      CallArgsOk(s);
    }
  }

  lemma {:induction false} CallArgsOk(s: Input)
    ensures Grows(s, CallArgs(s).next)
    ensures Silent(s, CallArgs(s).next) ==> AllWritable(CallArgs(s).v)
    decreases s.Left(), 7, 1
  {
    ArgRunOk(s.Expect(PAREN_OPEN));
  }

  lemma {:induction false} ArgRunOk(s: Input)
    ensures Grows(s, ArgRun(s).next)
    ensures Silent(s, ArgRun(s).next) ==> AllWritable(ArgRun(s).v)
    decreases s.Left(), 7, 0
  {
    if !s.Empty() && !s.Peeks(PAREN_CLOSE) {
      ExpressionOk(s);
      var first := Expression(s);
      if first.next.Peeks(COMMA) {
        ArgRunOk(first.next.Next());
        assert ([first.v] + ArgRun(first.next.Next()).v)[1..] == ArgRun(first.next.Next()).v;
      }
    }
  }

  // ── Parameters and fields ──────────────────────────────────────────────────

  lemma InitializerOk(s: Input)
    ensures Grows(s, Initializer(s).next)
    ensures Silent(s, Initializer(s).next) ==> WritableInit(Initializer(s).v)
  {
    if s.Peeks(EQ) { ExpressionOk(s.Next()); }
  }

  lemma TypedNameGrows(s: Input)
    ensures Grows(s, TypedName(s).next)
  {
    TypeGrows(Name(s).next.Expect(COLON));
  }

  lemma OneParamOk(s: Input)
    ensures Grows(s, OneParam(s).next)
    ensures Silent(s, OneParam(s).next) ==> WritableInit(OneParam(s).v.default)
  {
    TypedNameGrows(s);
    InitializerOk(TypedName(s).next);
  }

  lemma {:induction false} ParamRunOk(s: Input)
    ensures Grows(s, ParamRun(s).next)
    ensures Silent(s, ParamRun(s).next) ==> WritableParams(ParamRun(s).v)
    decreases s.Left()
  {
    if !s.Empty() && !s.Peeks(PAREN_CLOSE) {
      OneParamOk(s);
      var first := OneParam(s);
      if first.next.Peeks(COMMA) { ParamRunOk(first.next.Next()); }
    }
  }

  lemma ParamsOk(s: Input)
    ensures Grows(s, Params(s).next)
    ensures Silent(s, Params(s).next) ==> WritableParams(Params(s).v)
  {
    ParamRunOk(s.Expect(PAREN_OPEN));
  }

  lemma OptionalParamsOk(s: Input)
    ensures Grows(s, OptionalParams(s).next)
    ensures Silent(s, OptionalParams(s).next) ==> WritableParams(OptionalParams(s).v)
  {
    if s.Peeks(PAREN_OPEN) { ParamsOk(s); }
  }

  lemma OptionalArgsOk(s: Input)
    ensures Grows(s, OptionalArgs(s).next)
    ensures Silent(s, OptionalArgs(s).next) ==> AllWritable(OptionalArgs(s).v)
  {
    if s.Peeks(PAREN_OPEN) { CallArgsOk(s); }
  }

  lemma FieldOk(s: Input)
    ensures Grows(s, Field(s).next)
    ensures Silent(s, Field(s).next) ==> WritableInit(Field(s).v.initializer)
  {
    TypedNameGrows(s);
    InitializerOk(TypedName(s).next);
  }

  // ── Simple statements ──────────────────────────────────────────────────────

  lemma ExprOrAssignOk(s: Input, semi: bool)
    ensures Grows(s, ExprOrAssign(s, semi).next)
    ensures IsPlain(ExprOrAssign(s, semi).v)
    ensures Silent(s, ExprOrAssign(s, semi).next) ==> WritableStmt(ExprOrAssign(s, semi).v)
  {
    ExpressionOk(s);
    var e := Expression(s);
    if e.next.Peeks(EQ) {
      ExpressionOk(e.next.Next());
      assert CanAssign(e.v) ==> Source(TargetOf(e.v)) == e.v;
    }
  }

  lemma LetOk(s: Input)
    requires s.Peeks(KW_LET)
    ensures Grows(s, LetStmt(s).next)
    ensures LetStmt(s).v.Let? && (Silent(s, LetStmt(s).next) ==> WritableStmt(LetStmt(s).v))
  {
    var name := Name(s.Next());
    var afterType := if name.next.Peeks(COLON) then Type(name.next.Next()).next else name.next;
    if name.next.Peeks(COLON) { TypeGrows(name.next.Next()); }
    ExpressionOk(afterType.Expect(EQ));
  }

  lemma ReturnOk(s: Input)
    requires s.Peeks(KW_RETURN)
    ensures Grows(s, ReturnStmt(s).next)
    ensures ReturnStmt(s).v.Return? && (Silent(s, ReturnStmt(s).next) ==> WritableStmt(ReturnStmt(s).v))
  {
    if !s.Next().Peeks(SEMICOLON) { ExpressionOk(s.Next()); }
  }

  lemma ConditionOk(s: Input)
    ensures Grows(s, Condition(s).next)
    ensures Silent(s, Condition(s).next) ==> Writable(Condition(s).v)
  {
    ExpressionOk(s.Expect(PAREN_OPEN));
  }

  // ── Statements and blocks ──────────────────────────────────────────────────

  /** What a silent statement is, and which ones begin with the keyword of an anonymous template. */
  predicate Good(s: Input, p: Parsed<Stmt>) {
    && Grows(s, p.next)
    && (Silent(s, p.next) ==> WritableStmt(p.v))
    && (p.v.ScopeBlock? && p.v.scope.AnonymousScope? ==> s.Peeks(KW_AT_TEMPLATE))
  }

  lemma {:induction false} StatementOk(s: Input)
    ensures Good(s, Statement(s))
    ensures var v := Statement(s).v;
      v.ThreadSpawn? && v.thread.AnonymousThread? && v.thread.decl.name.Some? && !v.handle.Bind? ==>
        s.Peeks(KW_DOLLAR_TEMPLATE) && s.Next().PeeksWord()
    decreases s.Left(), 2
  {
    if IsPrebind(s) {
      SpawnOk(s.Next().Next());
    } else if !s.Empty() && StartsControl(s.left.head) {
      ControlOk(s);
    } else if StartsSpawn(s) {
      SpawnOk(s);
    } else if s.Peeks(AT) || s.Peeks(KW_AT_TEMPLATE) {
      ScopeStmtOk(s);
    } else {
      ExprOrAssignOk(s, true);
    }
  }

  lemma {:induction false} ControlOk(s: Input)
    requires !s.Empty() && StartsControl(s.left.head)
    ensures Good(s, Control(s)) && IsControl(Control(s).v)
    decreases s.Left(), 1, 1
  {
    if s.Peeks(KW_LET) {
      LetOk(s);
    } else if s.Peeks(KW_IF) {
      IfOk(s);
    } else if s.Peeks(KW_WHILE) {
      WhileOk(s);
    } else if s.Peeks(KW_FOR) {
      ForOk(s);
    } else if s.Peeks(KW_RETURN) {
      ReturnOk(s);
    } else if s.Peeks(KW_EXCLUSIVE) {
      BracedOk(s.Next());
    }
  }

  lemma {:induction false} StmtRunOk(s: Input)
    ensures Grows(s, StmtRun(s).next)
    ensures Silent(s, StmtRun(s).next) ==> WritableStmts(StmtRun(s).v)
    decreases s.Left(), 3
  {
    if !s.Empty() && !s.Peeks(BRACE_CLOSE) {
      StatementOk(s);
      var first := Statement(s);
      StmtRunOk(first.next);
      assert ([first.v] + StmtRun(first.next).v)[1..] == StmtRun(first.next).v;
    }
  }

  lemma {:induction false} BracedOk(s: Input)
    ensures Grows(s, Braced(s).next)
    ensures Silent(s, Braced(s).next) ==> WritableStmts(Braced(s).v.stmts)
    decreases s.Left(), 4
  {
    StmtRunOk(s.Expect(BRACE_OPEN));
  }

  lemma {:induction false} IfOk(s: Input)
    requires s.Peeks(KW_IF)
    ensures Grows(s, IfChain(s).next)
    ensures Silent(s, IfChain(s).next) ==> WritableIf(IfChain(s).v)
    decreases s.Left(), 1, 0
  {
    var condition := Condition(s.Next());
    ConditionOk(s.Next());
    BracedOk(condition.next);
    ElseOk(Braced(condition.next).next);
  }

  predicate WritableElse(b: ElseBranch) {
    match b
    case NoElse => true
    case Else(block) => WritableStmts(block.stmts)
    case ElseIf(next) => WritableIf(next)
  }

  lemma {:induction false} ElseOk(s: Input)
    ensures Grows(s, ElseOf(s).next)
    ensures Silent(s, ElseOf(s).next) ==> WritableElse(ElseOf(s).v)
    decreases s.Left(), 0
  {
    if s.Peeks(KW_ELSE) {
      if s.Next().Peeks(KW_IF) { IfOk(s.Next()); } else { BracedOk(s.Next()); }
    }
  }

  lemma {:induction false} WhileOk(s: Input)
    requires s.Peeks(KW_WHILE)
    ensures Grows(s, WhileStmt(s).next)
    ensures WhileStmt(s).v.While? && (Silent(s, WhileStmt(s).next) ==> WritableStmt(WhileStmt(s).v))
    decreases s.Left(), 1, 0
  {
    ConditionOk(s.Next());
    BracedOk(Condition(s.Next()).next);
  }

  lemma {:induction false} ForFirstOk(s: Input)
    ensures Grows(s, ForFirst(s).next)
    ensures Silent(s, ForFirst(s).next) && ForFirst(s).v.Some? ==> WritableStmt(ForFirst(s).v.value)
    decreases s.Left(), 3
  {
    if !s.Peeks(SEMICOLON) { StatementOk(s); }
  }

  lemma ForTestOk(s: Input)
    ensures Grows(s, ForTest(s).next)
    ensures Silent(s, ForTest(s).next) ==> WritableInit(ForTest(s).v)
  {
    if !s.Peeks(SEMICOLON) { ExpressionOk(s); }
  }

  lemma ForUpdateOk(s: Input)
    ensures Grows(s, ForUpdate(s).next)
    ensures Silent(s, ForUpdate(s).next) && ForUpdate(s).v.Some? ==> IsPlain(ForUpdate(s).v.value) && WritableStmt(ForUpdate(s).v.value)
  {
    if !s.Peeks(PAREN_CLOSE) { ExprOrAssignOk(s, false); }
  }

  lemma {:induction false} ForOk(s: Input)
    requires s.Peeks(KW_FOR)
    ensures Grows(s, ForStmt(s).next)
    ensures ForStmt(s).v.For? && (Silent(s, ForStmt(s).next) ==> WritableStmt(ForStmt(s).v))
    decreases s.Left(), 1, 0
  {
    var first := ForFirst(s.Next().Expect(PAREN_OPEN));
    var test := ForTest(first.next);
    var update := ForUpdate(test.next);
    ForFirstOk(s.Next().Expect(PAREN_OPEN));
    ForTestOk(first.next);
    ForUpdateOk(test.next);
    BracedOk(update.next);
  }

  lemma {:induction false} SpawnOk(s: Input)
    requires StartsSpawn(s)
    ensures Grows(s, Spawn(s).next)
    ensures Silent(s, Spawn(s).next) ==> WritableStmt(Spawn(s).v)
    ensures var v := Spawn(s).v;
      v.thread.AnonymousThread? && v.thread.decl.name.Some? ==> s.Peeks(KW_DOLLAR_TEMPLATE) && s.Next().PeeksWord()
    decreases s.Left(), 1
  {
    if s.Peeks(KW_DOLLAR_TEMPLATE) {
      AnonymousSpawnOk(s);
    } else if s.Peeks(DOLLAR_BRACE_OPEN) {
      StmtRunOk(s.Next());
    } else {
      ArgsAndBodyOk(Name(s.Next()).next);
    }
  }

  lemma {:induction false} AnonymousSpawnOk(s: Input)
    requires s.Peeks(KW_DOLLAR_TEMPLATE)
    ensures Grows(s, Spawn(s).next)
    ensures Silent(s, Spawn(s).next) ==> WritableStmt(Spawn(s).v)
    ensures var v := Spawn(s).v; v.thread.AnonymousThread? && (v.thread.decl.name.Some? <==> s.Next().PeeksWord())
    decreases s.Left(), 0, 1
  {
    ThreadOk(s);
    ArgsAndBodyOk(Thread(s).next);
  }

  lemma {:induction false} ArgsAndBodyOk(s: Input)
    ensures var args := CallArgs(s);
      var body := Braced(args.next);
      && Grows(s, body.next)
      && (Silent(s, body.next) ==> Silent(s, args.next) && AllWritable(args.v) && WritableStmts(body.v.stmts))
    decreases s.Left(), 5
  {
    CallArgsOk(s);
    BracedOk(CallArgs(s).next);
  }

  lemma {:induction false} ScopeStmtOk(s: Input)
    requires s.Peeks(AT) || s.Peeks(KW_AT_TEMPLATE)
    ensures Good(s, ScopeStmt(s)) && ScopeStmt(s).v.ScopeBlock?
    decreases s.Left(), 1
  {
    if s.Peeks(KW_AT_TEMPLATE) {
      ScopeOk(s);
      OptionalArgsOk(Scope(s).next);
      BracedOk(OptionalArgs(Scope(s).next).next);
    } else {
      var name := Name(s.Next());
      OptionalArgsOk(name.next);
      BracedOk(OptionalArgs(name.next).next);
    }
  }

  // ── Functions and templates ────────────────────────────────────────────────

  lemma {:induction false} SignatureOk(s: Input, kind: FuncKind, name: string)
    ensures Grows(s, Signature(s, kind, name).next)
    ensures Silent(s, Signature(s, kind, name).next) ==> WritableFunc(Signature(s, kind, name).v)
    ensures Signature(s, kind, name).v.kind == kind
    decreases s.Left(), 5
  {
    ParamsOk(s);
    var afterColon := Params(s).next.Expect(COLON);
    TypeGrows(afterColon);
    BracedOk(Type(afterColon).next);
  }

  lemma {:induction false} FuncOk(s: Input, kind: FuncKind)
    ensures Grows(s, Func(s, kind).next)
    ensures Silent(s, Func(s, kind).next) ==> WritableFunc(Func(s, kind).v)
    ensures Func(s, kind).v.kind == kind
    decreases s.Left(), 6
  {
    SignatureOk(Name(s).next, kind, Name(s).v);
  }

  lemma {:induction false} ScopeMemberOk(s: Input)
    ensures Grows(s, OneScopeMember(s).next)
    ensures Silent(s, OneScopeMember(s).next) ==> WritableScopeMember(OneScopeMember(s).v)
    decreases s.Left(), 7
  {
    if s.Peeks(KW_DEFINE) {
      FieldOk(s.Next());
    } else {
      FuncOk(s.Eat(KW_ASYNC).Expect(KW_FUNCTION), if s.Peeks(KW_ASYNC) then Async else Sync);
    }
  }

  lemma {:induction false} ScopeMembersOk(s: Input)
    ensures Grows(s, ScopeMembers(s).next)
    ensures Silent(s, ScopeMembers(s).next) ==> WritableScopeMembers(ScopeMembers(s).v)
    decreases s.Left(), 8
  {
    if !s.Empty() && !s.Peeks(BRACE_CLOSE) {
      ScopeMemberOk(s);
      var first := OneScopeMember(s);
      ScopeMembersOk(first.next);
      assert ([first.v] + ScopeMembers(first.next).v)[1..] == ScopeMembers(first.next).v;
    }
  }

  lemma {:induction false} ScopeOk(s: Input)
    requires s.Peeks(KW_AT_TEMPLATE)
    ensures Grows(s, Scope(s).next)
    ensures Silent(s, Scope(s).next) ==> WritableScope(Scope(s).v)
    decreases s.Left(), 0
  {
    var params := OptionalParams(OptionalName(s.Next()).next);
    OptionalParamsOk(OptionalName(s.Next()).next);
    ScopeMembersOk(params.next.Expect(BRACE_OPEN));
  }

  lemma {:induction false} AsyncMemberOk(s: Input)
    ensures Grows(s, AsyncMember(s).next)
    ensures Silent(s, AsyncMember(s).next) ==> WritableThreadMember(AsyncMember(s).v)
    decreases s.Left(), 7
  {
    if s.Peeks(KW_HANDLER) || s.Peeks(KW_FUNCTION) { FuncOk(s.Next(), Async); }
  }

  lemma {:induction false} ThreadMemberOk(s: Input)
    ensures Grows(s, OneThreadMember(s).next)
    ensures Silent(s, OneThreadMember(s).next) ==> WritableThreadMember(OneThreadMember(s).v)
    decreases s.Left(), 8
  {
    if s.Peeks(KW_EXPOSE) || s.Peeks(KW_EXPOSE_MUTABLE) || s.Peeks(KW_DEFINE) {
      FieldOk(s.Next());
    } else if s.Peeks(KW_ASYNC) {
      AsyncMemberOk(s.Next());
    } else if s.Peeks(KW_FUNCTION) {
      FuncOk(s.Next(), Sync);
    }
  }

  lemma {:induction false} ThreadMembersOk(s: Input)
    ensures Grows(s, ThreadMembers(s).next)
    ensures Silent(s, ThreadMembers(s).next) ==> WritableThreadMembers(ThreadMembers(s).v)
    decreases s.Left(), 9
  {
    if !s.Empty() && !s.Peeks(BRACE_CLOSE) {
      ThreadMemberOk(s);
      var first := OneThreadMember(s);
      ThreadMembersOk(first.next);
      assert ([first.v] + ThreadMembers(first.next).v)[1..] == ThreadMembers(first.next).v;
    }
  }

  lemma {:induction false} ThreadOk(s: Input)
    requires s.Peeks(KW_DOLLAR_TEMPLATE)
    ensures Grows(s, Thread(s).next)
    ensures Silent(s, Thread(s).next) ==> WritableThread(Thread(s).v)
    ensures Thread(s).v.name.Some? <==> s.Next().PeeksWord()
    decreases s.Left(), 0, 0
  {
    var params := OptionalParams(OptionalName(s.Next()).next);
    OptionalParamsOk(OptionalName(s.Next()).next);
    ThreadMembersOk(params.next.Expect(BRACE_OPEN));
  }

  // ── Programs ───────────────────────────────────────────────────────────────

  lemma ItemOk(s: Input)
    requires !s.Empty()
    ensures Grows(s, TopItem(s).next)
    ensures Silent(s, TopItem(s).next) ==> WritableItem(TopItem(s).v)
  {
    if s.Peeks(KW_AT_TEMPLATE) {
      ScopeOk(s);
    } else if s.Peeks(KW_DOLLAR_TEMPLATE) && s.Next().PeeksWord() {
      ThreadOk(s);
    } else if s.Peeks(KW_FUNCTION) {
      FuncOk(s.Next(), Sync);
    } else if s.Peeks(KW_ASYNC) {
      FuncOk(s.Next().Expect(KW_FUNCTION), Async);
    } else {
      StatementOk(s);
    }
  }

  lemma {:induction false} ProgramOk(s: Input)
    ensures Grows(s, Program(s).next)
    ensures Silent(s, Program(s).next) ==> WritableProgram(Program(s).v)
    decreases s.Left()
  {
    if !s.Empty() {
      ItemOk(s);
      var first := TopItem(s);
      ProgramOk(first.next);
      assert ([first.v] + Program(first.next).v)[1..] == Program(first.next).v;
    }
  }

  /** A program can be written exactly when some token sequence is read as it without an error. */
  lemma WritableIffParsed(items: seq<Item>)
    ensures WritableProgram(items) <==> exists ts :: Program(Input(ts, [])) == Parsed(items, Input(End, []))
  {
    if WritableProgram(items) {
      ProgramRoundTrip(items);
    }
    forall ts | Program(Input(ts, [])) == Parsed(items, Input(End, [])) ensures WritableProgram(items) {
      ProgramOk(Input(ts, []));
    }
  }

  /** Printing what was read without an error, and reading that, gives the same program. */
  lemma CanonicalSpelling(ts: Tokens)
    requires Program(Input(ts, [])).next.errors == []
    ensures WritableProgram(Program(Input(ts, [])).v)
    ensures Program(Input(PrintProgram(Program(Input(ts, [])).v), [])) == Program(Input(ts, []))
  {
    ProgramOk(Input(ts, []));
    ProgramRoundTrip(Program(Input(ts, [])).v);
  }
}
