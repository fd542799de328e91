/** The parser as the object it is (crates/tessera-parser/src/parser.rs): it moves a position over the
    tokens, records errors, keeps a stack of open delimiters and a flag for type context. Every method
    terminates on every token sequence and computes what `Grammar` and `GrammarStmts` say. */
module Parsers {
  import opened Options
  import opened Ast
  import opened Grammar
  import opened GrammarStmts

  // ── The stack of open delimiters ───────────────────────────────────────────

  predicate Opens(t: Token) {
    t == BRACE_OPEN || t == PAREN_OPEN || t == BRACKET_OPEN || t == DOLLAR_BRACE_OPEN
  }

  predicate Closes(open: Token, close: Token) {
    || (close == BRACE_CLOSE && (open == BRACE_OPEN || open == DOLLAR_BRACE_OPEN))
    || (close == PAREN_CLOSE && open == PAREN_OPEN)
    || (close == BRACKET_CLOSE && open == BRACKET_OPEN)
  }

  /** A closer that does not match the innermost opener is ignored. */
  function Track(stack: seq<Token>, t: Token): seq<Token> {
    if Opens(t) then stack + [t]
    else if stack != [] && Closes(stack[|stack| - 1], t) then stack[..|stack| - 1]
    else stack
  }

  /** The openers still open after the first `n` tokens. */
  function Scan(ts: seq<Token>, n: nat): seq<Token>
    requires n <= |ts|
  {
    if n == 0 then [] else Track(Scan(ts, n - 1), ts[n - 1])
  }

  function From(ts: seq<Token>, i: nat): (r: Tokens)
    requires i <= |ts|
    ensures r.Length() == |ts| - i
    decreases |ts| - i
  {
    if i == |ts| then End else More(ts[i], From(ts, i + 1))
  }

  /** What the lookaheads see. */
  lemma Ahead(ts: seq<Token>, i: nat)
    requires i < |ts|
    ensures From(ts, i) == More(ts[i], From(ts, i + 1))
    ensures i + 1 < |ts| ==> From(ts, i + 1) == More(ts[i + 1], From(ts, i + 2))
    ensures i + 2 < |ts| ==> From(ts, i + 2).More? && From(ts, i + 2).head == ts[i + 2]
  {
  }

  lemma Regroup<T>(done: seq<T>, x: T, more: seq<T>)
    ensures done + ([x] + more) == (done + [x]) + more
  {
  }

  class Parser {
    const tokens: seq<Token>
    var pos: nat
    var errors: seq<ParseError>
    var inTypeCtx: bool
    var openDelims: seq<Token>

    constructor (tokens: seq<Token>)
      ensures this.tokens == tokens && Now(Input(From(tokens, 0), []), false)
    {
      this.tokens := tokens;
      pos, errors, inTypeCtx, openDelims := 0, [], false, [];
    }

    predicate Valid()
      reads this
    {
      pos <= |tokens| && openDelims == Scan(tokens, pos)
    }

    /** The tokens that are left and the errors so far. */
    function Here(): Input
      requires Valid()
      reads this
    {
      Input(From(tokens, pos), errors)
    }

    predicate Now(here: Input, ctx: bool)
      reads this
    {
      Valid() && Here() == here && inTypeCtx == ctx
    }

    // ── Token helpers ────────────────────────────────────────────────────────

    predicate AtEof()
      requires Valid()
      reads this
      ensures AtEof() == Here().Empty()
    {
      pos >= |tokens|
    }

    predicate Peeks(t: Token)
      requires Valid()
      reads this
      ensures Peeks(t) == Here().Peeks(t)
    {
      pos < |tokens| && tokens[pos] == t
    }

    predicate PeeksWord()
      requires Valid()
      reads this
      ensures PeeksWord() == Here().PeeksWord()
    {
      pos < |tokens| && tokens[pos].Word?
    }

    method Advance() returns (t: Token)
      requires Valid() && !AtEof()
      modifies this
      ensures t == old(Here()).left.head
      ensures Now(old(Here()).Next(), old(inTypeCtx))
    {
      t := tokens[pos];
      Ahead(tokens, pos);
      TrackDelimiter(t);
      pos := pos + 1;
    }

    method TrackDelimiter(t: Token)
      modifies this`openDelims
      ensures openDelims == Track(old(openDelims), t)
    {
      if Opens(t) {
        openDelims := openDelims + [t];
      } else if openDelims != [] && Closes(openDelims[|openDelims| - 1], t) {
        openDelims := openDelims[..|openDelims| - 1];
      }
    }

    method Report(problem: Problem)
      requires Valid()
      modifies this
      ensures Now(old(Here()).Report(problem), old(inTypeCtx))
    {
      errors := errors + [ParseError(problem, |tokens| - pos)];
    }

    method Expect(t: Token)
      requires Valid()
      modifies this
      ensures Now(old(Here()).Expect(t), old(inTypeCtx))
    {
      if Peeks(t) {
        var _ := Advance();
      } else {
        Report(Expected(t));
      }
    }

    method Eat(t: Token) returns (ate: bool)
      requires Valid()
      modifies this
      ensures ate == old(Here()).Peeks(t)
      ensures Now(old(Here()).Eat(t), old(inTypeCtx))
    {
      ate := Peeks(t);
      if ate {
        var _ := Advance();
      }
    }

    method ExpectIdent() returns (name: string)
      requires Valid()
      modifies this
      ensures var p := Name(old(Here())); name == p.v && Now(p.next, old(inTypeCtx))
    {
      if PeeksWord() {
        var t := Advance();
        name := t.name;
      } else {
        Report(ExpectedName);
        name := ERROR_NAME;
      }
    }

    // ── Types ────────────────────────────────────────────────────────────────

    method ParseTypeExpr() returns (ty: TypeExpr)
      requires Valid()
      modifies this
      ensures var p := Type(old(Here())); ty == p.v && Now(p.next, old(inTypeCtx))
      decreases Here().Left(), 1
    {
      var before := inTypeCtx;
      inTypeCtx := true;
      ty := ParseTypeExprInner();
      inTypeCtx := before;
    }

    method ParseTypeExprInner() returns (ty: TypeExpr)
      requires Valid() && inTypeCtx
      modifies this
      ensures var p := Type(old(Here())); ty == p.v && Now(p.next, true)
      decreases Here().Left(), 0
    {
      if Peeks(KW_VOID) {
        var _ := Advance();
        ty := Void;
      } else if Peeks(KW_NEVER) {
        var _ := Advance();
        ty := TypeExpr.Never;
      } else if !AtEof() && (tokens[pos].Word? || tokens[pos].TypeWord?) {
        var t := Advance();
        var name := if t.Word? then t.name else TypeKeyword(t.prim);
        var args := [];
        if Peeks(LT) {
          args := ParseTypeArgList();
        }
        ty := Named(name, args);
      } else {
        Report(ExpectedType);
        ty := Named(ERROR_NAME, []);
      }
    }

    method ParseTypeArgList() returns (args: seq<TypeExpr>)
      requires Valid() && Peeks(LT)
      modifies this
      ensures var p := TypeArgs(old(Here())); args == p.v && Now(p.next, old(inTypeCtx))
      decreases Here().Left(), 2
    {
      ghost var start := Here();
      Expect(LT);
      var before := inTypeCtx;
      inTypeCtx := true;
      args := [];
      ghost var goal := TypeArgRun(Here());
      while !(Peeks(GT) || AtEof())
        invariant Valid() && inTypeCtx && Here().Left() < start.Left()
        invariant TypeArgRun(Here()).next == goal.next
        invariant args + TypeArgRun(Here()).v == goal.v
        decreases Here().Left()
      {
        var ty := ParseTypeExpr();
        ghost var had := args;
        args := args + [ty];
        var comma := Eat(COMMA);
        if !comma { break; }
        Regroup(had, ty, TypeArgRun(Here()).v);
      }
      Expect(GT);
      inTypeCtx := before;
    }

    // ── Expressions ──────────────────────────────────────────────────────────

    /** An operator is only peeked outside type context, where `<` and `>` are operators. */
    function PeekBinop(): (r: Option<BinOp>)
      requires Valid()
      reads this
      ensures !inTypeCtx ==> r == InfixOp(Here())
    {
      if pos < |tokens| && !(inTypeCtx && (tokens[pos] == LT || tokens[pos] == GT)) then OpOf(tokens[pos]) else None
    }

    method ParseExpr() returns (e: Expr)
      requires Valid() && !inTypeCtx
      modifies this
      ensures var p := Expression(old(Here())); e == p.v && Now(p.next, false)
      decreases Here().Left(), 6
    {
      e := ParsePratt(0);
    }

    method ParsePratt(min: nat) returns (left: Expr)
      requires Valid() && !inTypeCtx
      modifies this
      ensures var p := Pratt(old(Here()), min); left == p.v && Now(p.next, false)
      decreases Here().Left(), 5
    {
      ghost var start := Here();
      ghost var goal := Pratt(start, min);
      left := ParseUnary();
      while PeekBinop().Some?
        invariant Valid() && !inTypeCtx && Here().Left() <= start.Left()
        invariant PrattLoop(left, Here(), min) == goal
        decreases Here().Left()
      {
        var op := PeekBinop().value;
        if Power(op) < min { break; }
        var _ := Advance();
        var right := ParsePratt(Power(op) + 1);
        left := Binary(op, left, right);
      }
    }

    method ParseUnary() returns (e: Expr)
      requires Valid() && !inTypeCtx
      modifies this
      ensures var p := Prefix(old(Here())); e == p.v && Now(p.next, false)
      decreases Here().Left(), 4
    {
      if Peeks(BANG) || Peeks(MINUS) {
        var t := Advance();
        var operand := ParseUnary();
        e := Unary(if t == BANG then Not else Neg, operand);
      } else {
        e := ParsePostfix();
      }
    }

    method ParsePostfix() returns (e: Expr)
      requires Valid() && !inTypeCtx
      modifies this
      ensures var p := Postfix(old(Here())); e == p.v && Now(p.next, false)
      decreases Here().Left(), 3
    {
      ghost var start := Here();
      ghost var goal := Postfix(start);
      e := ParsePrimary();
      while Peeks(DOT) || Peeks(BRACKET_OPEN)
        invariant Valid() && !inTypeCtx && Here().Left() <= start.Left()
        invariant !start.Empty() ==> Here().Left() < start.Left()
        invariant PostfixLoop(e, Here()) == goal
        decreases Here().Left()
      {
        var t := Advance();
        if t == DOT {
          var field := ExpectIdent();
          if Peeks(PAREN_OPEN) {
            var args := ParseCallArgs();
            e := MethodCall(e, field, args);
          } else {
            e := FieldAccess(e, field);
          }
        } else {
          var index := ParseExpr();
          Expect(BRACKET_CLOSE);
          e := Index(e, index);
        }
      }
    }

    method ParsePrimary() returns (e: Expr)
      requires Valid() && !inTypeCtx
      modifies this
      ensures var p := Primary(old(Here())); e == p.v && Now(p.next, false)
      decreases Here().Left(), 2
    {
      if AtEof() {
        Report(ExpectedValue);
        e := Ident(ERROR_NAME);
        return;
      }
      var t := tokens[pos];
      if t.Value? {
        var _ := Advance();
        if t.lit.Int? && !FitsInt(t.lit.n) {
          Report(Overflow);
        }
        e := Lit(t.lit);
      } else if t == KW_PANIC {
        var _ := Advance();
        Expect(PAREN_OPEN);
        var message := ParseExpr();
        Expect(PAREN_CLOSE);
        e := Panic(message);
      } else if t == KW_ASSERT {
        e := ParseAssert();
      } else if t == KW_AWAIT || t == KW_TRY {
        var _ := Advance();
        var inner := ParseUnary();
        e := if t == KW_AWAIT then Await(inner) else Try(inner);
      } else if t == PAREN_OPEN {
        var _ := Advance();
        e := ParseExpr();
        Expect(PAREN_CLOSE);
      } else if t.Word? || t.TypeWord? {
        var _ := Advance();
        e := ParseIdentOrCall(if t.Word? then t.name else TypeKeyword(t.prim));
      } else {
        Report(ExpectedValue);
        var _ := Advance();
        e := Ident(ERROR_NAME);
      }
    }

    method ParseAssert() returns (e: Expr)
      requires Valid() && !inTypeCtx && Peeks(KW_ASSERT)
      modifies this
      ensures var p := Assertion(old(Here())); e == p.v && Now(p.next, false)
      decreases Here().Left(), 1
    {
      var _ := Advance();
      Expect(PAREN_OPEN);
      var condition := ParseExpr();
      var note := None;
      var comma := Eat(COMMA);
      if comma {
        var n := ParseExpr();
        note := Some(n);
      }
      Expect(PAREN_CLOSE);
      e := Assert(condition, note);
    }

    predicate SeesTypeArgs()
      requires Valid()
      reads this
      ensures SeesTypeArgs() == LooksLikeTypeArgs(Here().left)
    {
      && pos < |tokens|
      && (Ahead(tokens, pos); pos + 2 < |tokens|)
      && (tokens[pos + 1].Word? || tokens[pos + 1].TypeWord?)
      && tokens[pos + 2] in {GT, COMMA, LT}
    }

    method ParseIdentOrCall(name: string) returns (e: Expr)
      requires Valid() && !inTypeCtx
      modifies this
      ensures var p := NameOrCall(name, old(Here())); e == p.v && Now(p.next, false)
      decreases Here().Left(), 8
    {
      if Peeks(LT) && SeesTypeArgs() {
        var typeArgs := ParseTypeArgList();
        var args := ParseCallArgs();
        return TypeCtor(name, typeArgs, args);
      }
      if Peeks(PAREN_OPEN) {
        var args := ParseCallArgs();
        if name in {"Ok", "Err", "Some", "List", "locked", "Queue"} {
          return TypeCtor(name, [], args);
        } else if name == "None" {
          return TypeCtor(name, [], []);
        } else {
          return Call(Ident(name), args);
        }
      }
      if name == "None" {
        return TypeCtor(name, [], []);
      }
      return Ident(name);
    }

    method ParseCallArgs() returns (args: seq<Expr>)
      requires Valid() && !inTypeCtx
      modifies this
      ensures var p := CallArgs(old(Here())); args == p.v && Now(p.next, false)
      decreases Here().Left(), 7
    {
      ghost var start := Here();
      Expect(PAREN_OPEN);
      args := [];
      ghost var goal := ArgRun(Here());
      while !(Peeks(PAREN_CLOSE) || AtEof())
        invariant Valid() && !inTypeCtx && Here().Left() <= start.Left()
        invariant ArgRun(Here()).next == goal.next
        invariant args + ArgRun(Here()).v == goal.v
        decreases Here().Left()
      {
        var e := ParseExpr();
        ghost var had := args;
        args := args + [e];
        var comma := Eat(COMMA);
        if !comma { break; }
        Regroup(had, e, ArgRun(Here()).v);
      }
      Expect(PAREN_CLOSE);
    }

    // ── Parameters and fields ────────────────────────────────────────────────

    method ParseInitializer() returns (init: Option<Expr>)
      requires Valid() && !inTypeCtx
      modifies this
      ensures var p := Initializer(old(Here())); init == p.v && Now(p.next, false)
    {
      init := None;
      var eq := Eat(EQ);
      if eq {
        var e := ParseExpr();
        init := Some(e);
      }
    }

    method ParseTypedName() returns (name: string, ty: TypeExpr)
      requires Valid() && !inTypeCtx
      modifies this
      ensures var p := TypedName(old(Here())); (name, ty) == p.v && Now(p.next, false)
    {
      name := ExpectIdent();
      Expect(COLON);
      ty := ParseTypeExpr();
    }

    method ParseParam() returns (param: Param)
      requires Valid() && !inTypeCtx
      modifies this
      ensures var p := OneParam(old(Here())); param == p.v && Now(p.next, false)
    {
      var name, ty := ParseTypedName();
      var default := ParseInitializer();
      param := Param(name, ty, default);
    }

    method ParseParamList() returns (params: seq<Param>)
      requires Valid() && !inTypeCtx
      modifies this
      ensures var p := Params(old(Here())); params == p.v && Now(p.next, false)
    {
      Expect(PAREN_OPEN);
      params := [];
      ghost var goal := ParamRun(Here());
      while !(Peeks(PAREN_CLOSE) || AtEof())
        invariant Valid() && !inTypeCtx
        invariant ParamRun(Here()).next == goal.next
        invariant params + ParamRun(Here()).v == goal.v
        decreases Here().Left()
      {
        var param := ParseParam();
        ghost var had := params;
        params := params + [param];
        var comma := Eat(COMMA);
        if !comma { break; }
        Regroup(had, param, ParamRun(Here()).v);
      }
      Expect(PAREN_CLOSE);
    }

    method ParseParamListOpt() returns (params: seq<Param>)
      requires Valid() && !inTypeCtx
      modifies this
      ensures var p := OptionalParams(old(Here())); params == p.v && Now(p.next, false)
    {
      params := [];
      if Peeks(PAREN_OPEN) {
        params := ParseParamList();
      }
    }

    method ParseOptionalArgs() returns (args: seq<Expr>)
      requires Valid() && !inTypeCtx
      modifies this
      ensures var p := OptionalArgs(old(Here())); args == p.v && Now(p.next, false)
    {
      args := [];
      if Peeks(PAREN_OPEN) {
        args := ParseCallArgs();
      }
    }

    method ParseOptionalName() returns (name: Option<string>)
      requires Valid() && !inTypeCtx
      modifies this
      ensures var p := OptionalName(old(Here())); name == p.v && Now(p.next, false)
    {
      name := None;
      if PeeksWord() {
        var n := ExpectIdent();
        name := Some(n);
      }
    }

    method ParseExposeDecl() returns (d: FieldDecl)
      requires Valid() && !inTypeCtx
      modifies this
      ensures var p := Field(old(Here())); d == p.v && Now(p.next, false)
    {
      var name, ty := ParseTypedName();
      var init := ParseInitializer();
      Expect(SEMICOLON);
      d := FieldDecl(name, ty, init);
    }

    // ── Simple statements ────────────────────────────────────────────────────

    method ParseExprOrAssign(semi: bool) returns (s: Stmt)
      requires Valid() && !inTypeCtx
      modifies this
      ensures var p := ExprOrAssign(old(Here()), semi); s == p.v && Now(p.next, false)
    {
      var e := ParseExpr();
      var eq := Eat(EQ);
      if eq {
        var value := ParseExpr();
        if semi {
          Expect(SEMICOLON);
        }
        if !(e.Ident? || e.FieldAccess? || e.Index?) {
          Report(BadTarget);
        }
        s := Assign(TargetOf(e), value);
      } else {
        if semi {
          Expect(SEMICOLON);
        }
        s := ExprStmt(e);
      }
    }

    method ParseLetStmt() returns (s: Stmt)
      requires Valid() && !inTypeCtx && Peeks(KW_LET)
      modifies this
      ensures var p := LetStmt(old(Here())); s == p.v && Now(p.next, false)
    {
      Expect(KW_LET);
      var name := ExpectIdent();
      var ty := None;
      var colon := Eat(COLON);
      if colon {
        var t := ParseTypeExpr();
        ty := Some(t);
      }
      Expect(EQ);
      var init := ParseExpr();
      Expect(SEMICOLON);
      s := Let(name, ty, init);
    }

    method ParseReturnStmt() returns (s: Stmt)
      requires Valid() && !inTypeCtx && Peeks(KW_RETURN)
      modifies this
      ensures var p := ReturnStmt(old(Here())); s == p.v && Now(p.next, false)
    {
      Expect(KW_RETURN);
      var result := None;
      if !Peeks(SEMICOLON) {
        var e := ParseExpr();
        result := Some(e);
      }
      Expect(SEMICOLON);
      s := Return(result);
    }

    method ParseCondition() returns (e: Expr)
      requires Valid() && !inTypeCtx
      modifies this
      ensures var p := Condition(old(Here())); e == p.v && Now(p.next, false)
    {
      Expect(PAREN_OPEN);
      e := ParseExpr();
      Expect(PAREN_CLOSE);
    }

    method ParseHandleBindOpt() returns (h: HandleBind)
      requires Valid() && !inTypeCtx
      modifies this
      ensures var p := HandleOf(old(Here())); h == p.v && Now(p.next, false)
    {
      h := Discard;
      var bind := Eat(COLON_EQ);
      if bind {
        var name := ExpectIdent();
        h := Bind(name);
      }
    }

    // ── Statements and blocks ────────────────────────────────────────────────

    predicate PeeksPrebind()
      requires Valid()
      reads this
      ensures PeeksPrebind() == IsPrebind(Here())
    {
      && pos < |tokens|
      && (Ahead(tokens, pos); pos + 2 < |tokens|)
      && tokens[pos].Word?
      && tokens[pos + 1] == EQ
      && tokens[pos + 2] in {DOLLAR, DOLLAR_BRACE_OPEN, KW_DOLLAR_TEMPLATE}
    }

    method ParseStmt() returns (s: Stmt)
      requires Valid() && !inTypeCtx
      modifies this
      ensures var p := Statement(old(Here())); s == p.v && Now(p.next, false)
      decreases Here().Left(), 2
    {
      if PeeksPrebind() {
        s := ParsePrebind();
        return;
      }
      if AtEof() {
        s := ParseExprOrAssign(true);
      } else if StartsControl(tokens[pos]) {
        s := ParseControl();
      } else if Peeks(DOLLAR) || Peeks(DOLLAR_BRACE_OPEN) || Peeks(KW_DOLLAR_TEMPLATE) {
        s := ParseThreadSpawnStmt();
      } else if Peeks(AT) || Peeks(KW_AT_TEMPLATE) {
        s := ParseScopeBlockStmt();
      } else {
        s := ParseExprOrAssign(true);
      }
    }

    method ParseControl() returns (s: Stmt)
      requires Valid() && !inTypeCtx && !AtEof() && StartsControl(tokens[pos])
      modifies this
      ensures var p := Control(old(Here())); s == p.v && Now(p.next, false)
      decreases Here().Left(), 1, 1
    {
      var t := tokens[pos];
      if t == KW_LET {
        s := ParseLetStmt();
      } else if t == KW_IF {
        var i := ParseIfStmt();
        s := If(i);
      } else if t == KW_WHILE {
        s := ParseWhileStmt();
      } else if t == KW_FOR {
        s := ParseForStmt();
      } else if t == KW_RETURN {
        s := ParseReturnStmt();
      } else {
        var _ := Advance();
        if t == KW_EXCLUSIVE {
          var body := ParseBlock();
          s := ExclusiveBlock(body);
        } else {
          Expect(SEMICOLON);
          s := if t == KW_BREAK then Break else Continue;
        }
      }
    }

    method ParsePrebind() returns (s: Stmt)
      requires Valid() && !inTypeCtx && PeeksPrebind()
      modifies this
      ensures var p := Prebound(old(Here())); s == p.v && Now(p.next, false)
      decreases Here().Left(), 1
    {
      var name := ExpectIdent();
      Expect(EQ);
      s := ParseThreadSpawnStmt();
      s := s.(handle := Bind(name));
    }

    /** The loop of `parse_block`, also written out after `${`. */
    method ParseStmtRun() returns (stmts: seq<Stmt>)
      requires Valid() && !inTypeCtx
      modifies this
      ensures var p := StmtRun(old(Here())); stmts == p.v && Now(p.next, false)
      decreases Here().Left(), 3
    {
      ghost var start := Here();
      ghost var goal := StmtRun(start);
      stmts := [];
      while !(Peeks(BRACE_CLOSE) || AtEof())
        invariant Valid() && !inTypeCtx && Here().Left() <= start.Left()
        invariant StmtRun(Here()).next == goal.next
        invariant stmts + StmtRun(Here()).v == goal.v
        decreases Here().Left()
      {
        var s := ParseStmt();
        ghost var had := stmts;
        stmts := stmts + [s];
        Regroup(had, s, StmtRun(Here()).v);
      }
    }

    method ParseBlock() returns (b: Block)
      requires Valid() && !inTypeCtx
      modifies this
      ensures var p := Braced(old(Here())); b == p.v && Now(p.next, false)
      decreases Here().Left(), 4
    {
      Expect(BRACE_OPEN);
      var stmts := ParseStmtRun();
      Expect(BRACE_CLOSE);
      b := Block(stmts);
    }

    method ParseIfStmt() returns (i: IfStmt)
      requires Valid() && !inTypeCtx && Peeks(KW_IF)
      modifies this
      ensures var p := IfChain(old(Here())); i == p.v && Now(p.next, false)
      decreases Here().Left(), 1, 0
    {
      Expect(KW_IF);
      var condition := ParseCondition();
      var body := ParseBlock();
      var branch := ParseElse();
      i := IfStmt(condition, body, branch);
    }

    method ParseElse() returns (branch: ElseBranch)
      requires Valid() && !inTypeCtx
      modifies this
      ensures var p := ElseOf(old(Here())); branch == p.v && Now(p.next, false)
      decreases Here().Left(), 0
    {
      var found := Eat(KW_ELSE);
      if !found {
        branch := NoElse;
      } else if Peeks(KW_IF) {
        var next := ParseIfStmt();
        branch := ElseIf(next);
      } else {
        var body := ParseBlock();
        branch := Else(body);
      }
    }

    method ParseWhileStmt() returns (s: Stmt)
      requires Valid() && !inTypeCtx && Peeks(KW_WHILE)
      modifies this
      ensures var p := WhileStmt(old(Here())); s == p.v && Now(p.next, false)
      decreases Here().Left(), 1, 0
    {
      Expect(KW_WHILE);
      var condition := ParseCondition();
      var body := ParseBlock();
      s := While(condition, body);
    }

    method ParseForStmt() returns (s: Stmt)
      requires Valid() && !inTypeCtx && Peeks(KW_FOR)
      modifies this
      ensures var p := ForStmt(old(Here())); s == p.v && Now(p.next, false)
      decreases Here().Left(), 1, 0
    {
      Expect(KW_FOR);
      Expect(PAREN_OPEN);
      var first := None;
      if !Peeks(SEMICOLON) {
        var f := ParseStmt();
        first := Some(f);
      } else {
        Expect(SEMICOLON);
      }
      var test := None;
      if !Peeks(SEMICOLON) {
        var e := ParseExpr();
        test := Some(e);
      }
      Expect(SEMICOLON);
      var update := None;
      if !Peeks(PAREN_CLOSE) {
        var u := ParseExprOrAssign(false);
        update := Some(u);
      }
      Expect(PAREN_CLOSE);
      var body := ParseBlock();
      s := For(first, test, update, body);
    }

    method ParseThreadSpawnStmt() returns (s: Stmt)
      requires Valid() && !inTypeCtx
      modifies this
      ensures var p := Spawn(old(Here())); s == p.v && Now(p.next, false)
      decreases Here().Left(), if StartsSpawn(Here()) then 1 else 5
    {
      var thread := Shorthand;
      var args := [];
      var body;
      if Peeks(KW_DOLLAR_TEMPLATE) {
        var decl := ParseThreadTemplateDecl();
        args := ParseCallArgs();
        thread := AnonymousThread(decl);
        body := ParseBlock();
      } else if Peeks(DOLLAR_BRACE_OPEN) {
        var _ := Advance();
        var stmts := ParseStmtRun();
        Expect(BRACE_CLOSE);
        body := Block(stmts);
      } else if Peeks(DOLLAR) {
        var _ := Advance();
        var name := ExpectIdent();
        args := ParseCallArgs();
        thread := NamedThread(name);
        body := ParseBlock();
      } else {
        Report(ExpectedSpawn);
        body := ParseBlock();
      }
      var handle := ParseHandleBindOpt();
      Expect(SEMICOLON);
      s := ThreadSpawn(thread, args, body, handle);
    }

    method ParseScopeBlockStmt() returns (s: Stmt)
      requires Valid() && !inTypeCtx
      modifies this
      ensures var p := ScopeStmt(old(Here())); s == p.v && Now(p.next, false)
      decreases Here().Left(), if Here().Peeks(AT) || Here().Peeks(KW_AT_TEMPLATE) then 1 else 5
    {
      var scope := NamedScope(ERROR_NAME);
      var args := [];
      if Peeks(KW_AT_TEMPLATE) {
        var decl := ParseScopeTemplateDecl();
        args := ParseOptionalArgs();
        scope := AnonymousScope(decl);
      } else if Peeks(AT) {
        var _ := Advance();
        var name := ExpectIdent();
        args := ParseOptionalArgs();
        scope := NamedScope(name);
      } else {
        Report(ExpectedScope);
      }
      var body := ParseBlock();
      s := ScopeBlock(scope, args, body);
    }

    // ── Functions and templates ──────────────────────────────────────────────

    method FinishFuncDef(kind: FuncKind, name: string) returns (f: FuncDef)
      requires Valid() && !inTypeCtx
      modifies this
      ensures var p := Signature(old(Here()), kind, name); f == p.v && Now(p.next, false)
      decreases Here().Left(), 5
    {
      var params := ParseParamList();
      Expect(COLON);
      var ty := ParseTypeExpr();
      var body := ParseBlock();
      f := FuncDef(kind, name, params, ty, body);
    }

    method ParseFunc(kind: FuncKind) returns (f: FuncDef)
      requires Valid() && !inTypeCtx
      modifies this
      ensures var p := Func(old(Here()), kind); f == p.v && Now(p.next, false)
      decreases Here().Left(), 6
    {
      var name := ExpectIdent();
      f := FinishFuncDef(kind, name);
    }

    method ParseScopeTemplateMember() returns (m: ScopeMember)
      requires Valid() && !inTypeCtx
      modifies this
      ensures var p := OneScopeMember(old(Here())); m == p.v && Now(p.next, false)
      decreases Here().Left(), 7
    {
      if Peeks(KW_DEFINE) {
        var _ := Advance();
        var d := ParseExposeDecl();
        return ScopeDefine(d);
      }
      var isAsync := Eat(KW_ASYNC);
      Expect(KW_FUNCTION);
      var f := ParseFunc(if isAsync then Async else Sync);
      if f.name == ON_ENTER {
        m := ScopeOnEnter(f);
      } else if f.name == ON_EXIT {
        m := ScopeOnExit(f);
      } else {
        m := ScopeFunc(f);
      }
    }

    method ParseScopeTemplateBody() returns (members: seq<ScopeMember>)
      requires Valid() && !inTypeCtx
      modifies this
      ensures var p := ScopeBody(old(Here())); members == p.v && Now(p.next, false)
      decreases Here().Left(), 10
    {
      ghost var start := Here();
      Expect(BRACE_OPEN);
      members := [];
      ghost var goal := ScopeMembers(Here());
      while !(Peeks(BRACE_CLOSE) || AtEof())
        invariant Valid() && !inTypeCtx && Here().Left() <= start.Left()
        invariant ScopeMembers(Here()).next == goal.next
        invariant members + ScopeMembers(Here()).v == goal.v
        decreases Here().Left()
      {
        var m := ParseScopeTemplateMember();
        ghost var had := members;
        members := members + [m];
        Regroup(had, m, ScopeMembers(Here()).v);
      }
      Expect(BRACE_CLOSE);
    }

    method ParseScopeTemplateDecl() returns (d: ScopeDecl)
      requires Valid() && !inTypeCtx && Peeks(KW_AT_TEMPLATE)
      modifies this
      ensures var p := Scope(old(Here())); d == p.v && Now(p.next, false)
      decreases Here().Left(), 0
    {
      Expect(KW_AT_TEMPLATE);
      var name := ParseOptionalName();
      var params := ParseParamListOpt();
      var members := ParseScopeTemplateBody();
      d := ScopeDecl(name, params, members);
    }

    method ParseFieldMember() returns (m: ThreadMember)
      requires Valid() && !inTypeCtx && !AtEof()
      modifies this
      ensures var p := FieldMember(old(Here())); m == p.v && Now(p.next, false)
    {
      var t := Advance();
      var d := ParseExposeDecl();
      m := if t == KW_EXPOSE then Expose(d) else if t == KW_DEFINE then Define(d) else ExposeMutable(d);
    }

    method ParseAsyncMember() returns (m: ThreadMember)
      requires Valid() && !inTypeCtx
      modifies this
      ensures var p := AsyncMember(old(Here())); m == p.v && Now(p.next, false)
      decreases Here().Left(), 7
    {
      if Peeks(KW_HANDLER) {
        var _ := Advance();
        var f := ParseFunc(Async);
        m := Handler(HandlerDef(f.name, f.params, f.returnType, f.body));
      } else if Peeks(KW_FUNCTION) {
        var _ := Advance();
        var f := ParseFunc(Async);
        m := ThreadMemberOf(f);
      } else {
        Report(ExpectedAsyncMember);
        if !AtEof() {
          var _ := Advance();
        }
        m := NoMember(Async);
      }
    }

    method ParseThreadTemplateMember() returns (m: ThreadMember)
      requires Valid() && !inTypeCtx
      modifies this
      ensures var p := OneThreadMember(old(Here())); m == p.v && Now(p.next, false)
      decreases Here().Left(), 8
    {
      if Peeks(KW_EXPOSE) || Peeks(KW_EXPOSE_MUTABLE) || Peeks(KW_DEFINE) {
        m := ParseFieldMember();
      } else if Peeks(KW_ASYNC) {
        var _ := Advance();
        m := ParseAsyncMember();
      } else if Peeks(KW_FUNCTION) {
        var _ := Advance();
        var f := ParseFunc(Sync);
        m := ThreadMemberOf(f);
      } else {
        Report(ExpectedMember);
        if !AtEof() {
          var _ := Advance();
        }
        m := NoMember(Sync);
      }
    }

    method ParseThreadTemplateBody() returns (members: seq<ThreadMember>)
      requires Valid() && !inTypeCtx
      modifies this
      ensures var p := ThreadBody(old(Here())); members == p.v && Now(p.next, false)
      decreases Here().Left(), 10
    {
      ghost var start := Here();
      Expect(BRACE_OPEN);
      members := [];
      ghost var goal := ThreadMembers(Here());
      while !(Peeks(BRACE_CLOSE) || AtEof())
        invariant Valid() && !inTypeCtx && Here().Left() <= start.Left()
        invariant ThreadMembers(Here()).next == goal.next
        invariant members + ThreadMembers(Here()).v == goal.v
        decreases Here().Left()
      {
        var m := ParseThreadTemplateMember();
        ghost var had := members;
        members := members + [m];
        Regroup(had, m, ThreadMembers(Here()).v);
      }
      Expect(BRACE_CLOSE);
    }

    method ParseThreadTemplateDecl() returns (d: ThreadDecl)
      requires Valid() && !inTypeCtx && Peeks(KW_DOLLAR_TEMPLATE)
      modifies this
      ensures var p := Thread(old(Here())); d == p.v && Now(p.next, false)
      decreases Here().Left(), 0
    {
      Expect(KW_DOLLAR_TEMPLATE);
      var name := ParseOptionalName();
      var params := ParseParamListOpt();
      var members := ParseThreadTemplateBody();
      d := ThreadDecl(name, params, members);
    }

    // ── Programs ─────────────────────────────────────────────────────────────

    method ParseTopFunc() returns (f: FuncDef)
      requires Valid() && !inTypeCtx && (Peeks(KW_FUNCTION) || Peeks(KW_ASYNC))
      modifies this
      ensures var p := TopFunc(old(Here())); f == p.v && Now(p.next, false)
    {
      var t := Advance();
      if t == KW_ASYNC {
        Expect(KW_FUNCTION);
      }
      f := ParseFunc(if t == KW_ASYNC then Async else Sync);
    }

    /** `$template Name` declares a template; without a name it is a spawn. */
    predicate NamesThread()
      requires Valid()
      reads this
      ensures NamesThread() == (Peeks(KW_DOLLAR_TEMPLATE) && Here().Next().PeeksWord())
    {
      && pos < |tokens|
      && (Ahead(tokens, pos); pos + 1 < |tokens|)
      && tokens[pos] == KW_DOLLAR_TEMPLATE && tokens[pos + 1].Word?
    }

    method ParseItem() returns (item: Item)
      requires Valid() && !inTypeCtx && !AtEof()
      modifies this
      ensures var p := TopItem(old(Here())); item == p.v && Now(p.next, false)
    {
      if Peeks(KW_AT_TEMPLATE) {
        var s := ParseScopeTemplateDecl();
        item := ScopeItem(s);
      } else if NamesThread() {
        var t := ParseThreadTemplateDecl();
        item := ThreadItem(t);
      } else if Peeks(KW_FUNCTION) || Peeks(KW_ASYNC) {
        var f := ParseTopFunc();
        item := FuncItem(f);
      } else {
        var s := ParseStmt();
        item := StmtItem(s);
      }
    }

    /** Terminates on every token sequence, reads all of it, and leaves the delimiter scan of it. */
    method ParseProgram() returns (items: seq<Item>)
      requires Valid() && !inTypeCtx
      modifies this
      ensures var p := Program(old(Here())); items == p.v && Now(p.next, false)
      ensures pos == |tokens| && openDelims == Scan(tokens, |tokens|)
    {
      ghost var goal := Program(Here());
      items := [];
      while !AtEof()
        invariant Valid() && !inTypeCtx
        invariant Program(Here()).next == goal.next
        invariant items + Program(Here()).v == goal.v
        decreases Here().Left()
      {
        var item := ParseItem();
        ghost var had := items;
        items := items + [item];
        Regroup(had, item, Program(Here()).v);
      }
    }
  }
}
