/** Tokens (crates/tessera-lexer/src/token.rs) and syntax trees (crates/tessera-ast/src/lib.rs), with
    source spans erased. A double literal is a real number. */
module Ast {
  import opened Options

  /** The lexer's tokens, grouped by what the parser does with them: infix operators, keywords that
      name a type, literals, identifiers, and all others, which are only told apart. */
  datatype Token =
    | Infix(op: BinOp)
    | TypeWord(prim: PrimType)
    | Value(lit: TokenLiteral)
    | Word(name: string)
    | Mark(id: nat)

  datatype PrimType = BoolType | IntType | DoubleType | CharType | StringType | VoidType | NeverType

  const KW_DOLLAR_TEMPLATE := Mark(0)
  const KW_AT_TEMPLATE := Mark(1)
  const DOLLAR_BRACE_OPEN := Mark(2)
  const KW_EXCLUSIVE := Mark(3)
  const COLON_EQ := Mark(4)
  const KW_FUNCTION := Mark(5)
  const KW_ASYNC := Mark(6)
  const KW_HANDLER := Mark(7)
  const KW_EXPOSE_MUTABLE := Mark(8)
  const KW_EXPOSE := Mark(9)
  const KW_DEFINE := Mark(10)
  const KW_LET := Mark(11)
  const KW_IF := Mark(12)
  const KW_ELSE := Mark(13)
  const KW_WHILE := Mark(14)
  const KW_FOR := Mark(15)
  const KW_BREAK := Mark(16)
  const KW_CONTINUE := Mark(17)
  const KW_RETURN := Mark(18)
  const KW_AWAIT := Mark(19)
  const KW_TRY := Mark(20)
  const KW_PANIC := Mark(21)
  const KW_ASSERT := Mark(22)
  const DOLLAR := Mark(23)
  const AT := Mark(24)
  const EQ := Mark(25)
  const BANG := Mark(26)
  const BRACE_OPEN := Mark(27)
  const BRACE_CLOSE := Mark(28)
  const PAREN_OPEN := Mark(29)
  const PAREN_CLOSE := Mark(30)
  const BRACKET_OPEN := Mark(31)
  const BRACKET_CLOSE := Mark(32)
  const SEMICOLON := Mark(33)
  const COMMA := Mark(34)
  const COLON := Mark(35)
  const DOT := Mark(36)
  const INVALID := Mark(37)

  const LT := Infix(OpLt)
  const GT := Infix(OpGt)
  const MINUS := Infix(Sub)
  const KW_VOID := TypeWord(VoidType)
  const KW_NEVER := TypeWord(NeverType)

  /** The tokens that are left to read. */
  datatype Tokens = End | More(head: Token, tail: Tokens) {
    function Length(): nat {
      if End? then 0 else 1 + tail.Length()
    }
  }

  // ── Types and expressions ──────────────────────────────────────────────────

  datatype TypeExpr = Named(name: string, args: seq<TypeExpr>) | Void | Never

  datatype Literal = Bool(b: bool) | Int(n: int) | Double(d: real) | Char(c: char) | Str(s: string) | NoneLit

  /** The literals that have a token. */
  type TokenLiteral = l: Literal | l != NoneLit witness Bool(true)

  datatype BinOp = Add | Sub | Mul | Div | Rem | OpEq | Ne | OpLt | Le | OpGt | Ge | And | Or

  datatype UnaryOp = Neg | Not

  datatype Expr =
    | Lit(lit: Literal)
    | Ident(name: string)
    | Binary(op: BinOp, left: Expr, right: Expr)
    | Unary(uop: UnaryOp, operand: Expr)
    | Call(callee: Expr, args: seq<Expr>)
    | MethodCall(receiver: Expr, method': string, args: seq<Expr>)
    | FieldAccess(object': Expr, field: string)
    | Index(object': Expr, index: Expr)
    | Await(expr: Expr)
    | Try(expr: Expr)
    | Panic(message: Expr)
    | Assert(condition: Expr, note: Option<Expr>)
    | TypeCtor(name: string, typeArgs: seq<TypeExpr>, args: seq<Expr>)

  // ── Statements ─────────────────────────────────────────────────────────────

  datatype Block = Block(stmts: seq<Stmt>)

  datatype AssignTarget = ToIdent(name: string) | ToField(object': Expr, field: string) | ToIndex(object': Expr, index: Expr)

  datatype IfStmt = IfStmt(condition: Expr, thenBlock: Block, elseBranch: ElseBranch)

  datatype ElseBranch = NoElse | Else(block: Block) | ElseIf(next: IfStmt)

  datatype HandleBind = Bind(name: string) | Discard

  datatype Stmt =
    | Let(name: string, ty: Option<TypeExpr>, init: Expr)
    | Assign(target: AssignTarget, value: Expr)
    | If(branch: IfStmt)
    | While(condition: Expr, body: Block)
    | For(first: Option<Stmt>, test: Option<Expr>, update: Option<Stmt>, body: Block)
    | Return(result: Option<Expr>)
    | Break
    | Continue
    | ThreadSpawn(thread: ThreadRef, args: seq<Expr>, body: Block, handle: HandleBind)
    | ScopeBlock(scope: ScopeRef, args: seq<Expr>, body: Block)
    | ExclusiveBlock(body: Block)
    | ExprStmt(expr: Expr)

  // ── Templates and functions ────────────────────────────────────────────────

  datatype FuncKind = Sync | Async

  datatype Param = Param(name: string, ty: TypeExpr, default: Option<Expr>)

  datatype FuncDef = FuncDef(kind: FuncKind, name: string, params: seq<Param>, returnType: TypeExpr, body: Block)

  datatype HandlerDef = HandlerDef(name: string, params: seq<Param>, returnType: TypeExpr, body: Block)

  datatype FieldDecl = FieldDecl(name: string, ty: TypeExpr, initializer: Option<Expr>)

  datatype ScopeMember =
    | ScopeOnEnter(f: FuncDef) | ScopeOnExit(f: FuncDef) | ScopeFunc(f: FuncDef) | ScopeDefine(d: FieldDecl)

  datatype ScopeDecl = ScopeDecl(name: Option<string>, params: seq<Param>, members: seq<ScopeMember>)

  datatype ThreadMember =
    | OnEnter(f: FuncDef) | OnExit(f: FuncDef) | OnTerminate(f: FuncDef) | MemberFunc(f: FuncDef)
    | Handler(h: HandlerDef) | Expose(d: FieldDecl) | ExposeMutable(d: FieldDecl) | Define(d: FieldDecl)

  datatype ThreadDecl = ThreadDecl(name: Option<string>, params: seq<Param>, members: seq<ThreadMember>)

  datatype ThreadRef = NamedThread(name: string) | AnonymousThread(decl: ThreadDecl) | Shorthand

  datatype ScopeRef = NamedScope(name: string) | AnonymousScope(decl: ScopeDecl)

  datatype Item = ScopeItem(s: ScopeDecl) | ThreadItem(t: ThreadDecl) | FuncItem(f: FuncDef) | StmtItem(stmt: Stmt)

  const ON_ENTER := "__on_enter__"
  const ON_EXIT := "__on_exit__"
  const ON_TERMINATE := "__on_terminate__"
}
