/** Where `break`, `continue` and `return` may stand: the rule the loop lint enforces
    (crates/tessera-lint/src/passes/break_continue_outside_loop.rs), and the stricter habits under
    which the evaluator treats them as a reader expects (crates/tessera-interp/src/eval.rs). */
module LoopRule {
  import opened Options
  import opened Ast
  import opened Evaluator

  // ── The rule ───────────────────────────────────────────────────────────────

  /** Every `break` and `continue` stands in a loop of its own function, handler or spawned body; when
      `loop` holds, there is one around the statement. */
  predicate Lawful(s: Stmt, loop: bool)
    decreases s, 1
  {
    match s
    case Break => loop
    case Continue => loop
    case If(i) => LawfulIf(i, loop)
    case While(_, body) => LawfulBlock(body, true)
    case For(first, _, update, body) =>
      && (first.Some? ==> Lawful(first.value, loop)) && (update.Some? ==> Lawful(update.value, loop))
      && LawfulBlock(body, true)
    case ThreadSpawn(t, _, body, _) => LawfulBlock(body, false) && (t.AnonymousThread? ==> LawfulThread(t.decl))
    case ScopeBlock(r, _, body) => LawfulBlock(body, loop) && (r.AnonymousScope? ==> LawfulScope(r.decl))
    case ExclusiveBlock(body) => LawfulBlock(body, loop)
    case _ => true
  }

  predicate LawfulBlock(b: Block, loop: bool)
    decreases b, 1
  {
    forall i :: 0 <= i < |b.stmts| ==> Lawful(b.stmts[i], loop)
  }

  predicate LawfulIf(i: IfStmt, loop: bool)
    decreases i, 1
  {
    && LawfulBlock(i.thenBlock, loop)
    && match i.elseBranch {
         case NoElse => true
         case Else(b) => LawfulBlock(b, loop)
         case ElseIf(next) => LawfulIf(next, loop)
       }
  }

  predicate LawfulFunc(f: FuncDef)
    decreases f, 1
  {
    LawfulBlock(f.body, false)
  }

  predicate LawfulScope(d: ScopeDecl)
    decreases d, 1
  {
    forall i :: 0 <= i < |d.members| ==> LawfulScopeMember(d.members[i])
  }

  predicate LawfulScopeMember(m: ScopeMember)
    decreases m, 1
  {
    m.ScopeDefine? || LawfulFunc(m.f)
  }

  predicate LawfulThread(d: ThreadDecl)
    decreases d, 1
  {
    forall i :: 0 <= i < |d.members| ==> LawfulThreadMember(d.members[i])
  }

  predicate LawfulThreadMember(m: ThreadMember)
    decreases m, 1
  {
    match m
    case Handler(h) => LawfulHandler(h)
    case OnEnter(f) => LawfulFunc(f)
    case OnExit(f) => LawfulFunc(f)
    case OnTerminate(f) => LawfulFunc(f)
    case MemberFunc(f) => LawfulFunc(f)
    case _ => true
  }

  predicate LawfulHandler(h: HandlerDef)
    decreases h, 1
  {
    LawfulBlock(h.body, false)
  }

  predicate LawfulItem(item: Item) {
    match item
    case FuncItem(f) => LawfulFunc(f)
    case ScopeItem(d) => LawfulScope(d)
    case ThreadItem(d) => LawfulThread(d)
    case StmtItem(s) => Lawful(s, false)
  }

  predicate LawfulStmts(ss: seq<Stmt>, loop: bool) {
    forall i :: 0 <= i < |ss| ==> Lawful(ss[i], loop)
  }

  predicate LawfulContext(c: Context) {
    && (forall f :: f in c.funcs.Values ==> LawfulFunc(f))
    && (forall d :: d in c.scopes.Values ==> LawfulScope(d))
  }

  // ── Tidy programs ──────────────────────────────────────────────────────────

  /** No `return` in the statement, outside the functions it calls and the hooks it runs. */
  predicate ReturnFree(s: Stmt) {
    match s
    case Return(_) => false
    case If(i) => ReturnFreeIf(i)
    case While(_, body) => ReturnFreeStmts(body.stmts)
    case For(first, _, update, body) =>
      (first.Some? ==> ReturnFree(first.value)) && (update.Some? ==> ReturnFree(update.value)) && ReturnFreeStmts(body.stmts)
    case ExclusiveBlock(body) => ReturnFreeStmts(body.stmts)
    case ScopeBlock(_, _, body) => ReturnFreeStmts(body.stmts)
    case _ => true
  }

  predicate ReturnFreeStmts(ss: seq<Stmt>) {
    ss == [] || (ReturnFree(ss[0]) && ReturnFreeStmts(ss[1..]))
  }

  predicate ReturnFreeIf(i: IfStmt) {
    && ReturnFreeStmts(i.thenBlock.stmts)
    && match i.elseBranch {
         case NoElse => true
         case Else(b) => ReturnFreeStmts(b.stmts)
         case ElseIf(next) => ReturnFreeIf(next)
       }
  }

  /** A clause of a `for` that nothing leaves: a `break` in it is in a loop of its own. */
  predicate Contained(s: Stmt)
    decreases s, 1
  {
    Lawful(s, false) && ReturnFree(s) && Tidy(s, false)
  }

  /** Nothing leaves the clauses of a `for`, and a `continue` stands where nothing follows in its turn;
      when `last` holds, nothing follows the statement. */
  predicate Tidy(s: Stmt, last: bool)
    decreases s, 0
  {
    match s
    case Continue => last
    case If(i) => TidyIf(i, last)
    case While(_, body) => TidyStmts(body.stmts, true)
    case For(first, _, update, body) =>
      && (first.Some? ==> Contained(first.value)) && (update.Some? ==> Contained(update.value))
      && TidyStmts(body.stmts, true)
    case ExclusiveBlock(body) => TidyStmts(body.stmts, last)
    case ScopeBlock(r, _, body) => TidyStmts(body.stmts, last) && (r.AnonymousScope? ==> TidyScope(r.decl))
    case _ => true
  }

  predicate TidyStmts(ss: seq<Stmt>, last: bool) {
    ss == [] || (Tidy(ss[0], last && |ss| == 1) && TidyStmts(ss[1..], last))
  }

  predicate TidyIf(i: IfStmt, last: bool) {
    && TidyStmts(i.thenBlock.stmts, last)
    && match i.elseBranch {
         case NoElse => true
         case Else(b) => TidyStmts(b.stmts, last)
         case ElseIf(next) => TidyIf(next, last)
       }
  }

  predicate TidyScope(d: ScopeDecl) {
    TidyMembers(d.members)
  }

  predicate TidyMembers(ms: seq<ScopeMember>) {
    ms == [] || (TidyMember(ms[0]) && TidyMembers(ms[1..]))
  }

  predicate TidyMember(m: ScopeMember) {
    m.ScopeDefine? || TidyFunc(m.f)
  }

  predicate TidyFunc(f: FuncDef) {
    TidyStmts(f.body.stmts, false)
  }

  predicate TidyThread(d: ThreadDecl) {
    forall i :: 0 <= i < |d.members| ==> TidyThreadMember(d.members[i])
  }

  predicate TidyThreadMember(m: ThreadMember) {
    match m
    case Handler(h) => TidyStmts(h.body.stmts, false)
    case OnEnter(f) => TidyFunc(f)
    case OnExit(f) => TidyFunc(f)
    case OnTerminate(f) => TidyFunc(f)
    case MemberFunc(f) => TidyFunc(f)
    case _ => true
  }

  predicate TidyContext(c: Context) {
    && (forall f :: f in c.funcs.Values ==> TidyFunc(f))
    && (forall d :: d in c.scopes.Values ==> TidyScope(d))
  }
}
