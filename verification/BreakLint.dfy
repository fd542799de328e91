/** The lint that allows `break` and `continue` in loops only
    (crates/tessera-lint/src/passes/break_continue_outside_loop.rs), and what the evaluator gains from it. */
module BreakLint {
  import opened Options
  import opened Ast
  import opened Values
  import opened Evaluator
  import opened PlainValues
  import opened LoopRule
  import opened Reference
  import opened Faithful
  import opened Guard
  import opened Tasks

  // ── What the visitor reports ───────────────────────────────────────────────

  /** The keywords reported in a statement under `depth` loops. */
  function Reports(s: Stmt, depth: nat): seq<string>
    decreases s, 1
  {
    match s
    case Break => if depth == 0 then ["break"] else []
    case Continue => if depth == 0 then ["continue"] else []
    case If(i) => ReportsIf(i, depth)
    case While(_, body) => ReportsBlock(body, depth + 1)
    case For(first, _, update, body) =>
      (if first.Some? then Reports(first.value, depth) else []) +
      (if update.Some? then Reports(update.value, depth) else []) +
      ReportsBlock(body, depth + 1)
    case ThreadSpawn(t, _, body, _) => ReportsBlock(body, 0) + if t.AnonymousThread? then ReportsThread(t.decl) else []
    case ScopeBlock(r, _, body) => ReportsBlock(body, depth) + if r.AnonymousScope? then ReportsScope(r.decl) else []
    case ExclusiveBlock(body) => ReportsBlock(body, depth)
    case _ => []
  }

  function ReportsBlock(b: Block, depth: nat): seq<string>
    decreases b, 1
  {
    ReportsAll(b.stmts, depth)
  }

  function ReportsAll(ss: seq<Stmt>, depth: nat): seq<string>
    decreases ss
  {
    if ss == [] then [] else Reports(ss[0], depth) + ReportsAll(ss[1..], depth)
  }

  function ReportsIf(i: IfStmt, depth: nat): seq<string>
    decreases i, 1
  {
    ReportsBlock(i.thenBlock, depth) +
    match i.elseBranch {
      case NoElse => []
      case Else(b) => ReportsBlock(b, depth)
      case ElseIf(next) => ReportsIf(next, depth)
    }
  }

  /** A function starts outside every loop. */
  function ReportsFunc(f: FuncDef): seq<string>
    decreases f, 1
  {
    ReportsBlock(f.body, 0)
  }

  function ReportsScope(d: ScopeDecl): seq<string>
    decreases d, 1
  {
    ReportsScopeMembers(d.members)
  }

  function ReportsScopeMembers(ms: seq<ScopeMember>): seq<string>
    decreases ms
  {
    if ms == [] then []
    else ReportsScopeMember(ms[0]) + ReportsScopeMembers(ms[1..])
  }

  function ReportsScopeMember(m: ScopeMember): seq<string>
    decreases m, 1
  {
    if m.ScopeDefine? then [] else ReportsFunc(m.f)
  }

  function ReportsThread(d: ThreadDecl): seq<string>
    decreases d, 1
  {
    ReportsThreadMembers(d.members)
  }

  function ReportsThreadMembers(ms: seq<ThreadMember>): seq<string>
    decreases ms
  {
    if ms == [] then [] else ReportsThreadMember(ms[0]) + ReportsThreadMembers(ms[1..])
  }

  function ReportsThreadMember(m: ThreadMember): seq<string>
    decreases m, 1
  {
    match m
    case Handler(h) => ReportsHandler(h)
    case OnEnter(f) => ReportsFunc(f)
    case OnExit(f) => ReportsFunc(f)
    case OnTerminate(f) => ReportsFunc(f)
    case MemberFunc(f) => ReportsFunc(f)
    case _ => []
  }

  function ReportsHandler(h: HandlerDef): seq<string>
    decreases h, 1
  {
    ReportsBlock(h.body, 0)
  }

  /** Free functions are visited first, and then everything else in order. */
  function ReportsFuncs(items: seq<Item>): seq<string> {
    if items == [] then []
    else (if items[0].FuncItem? then ReportsFunc(items[0].f) else []) + ReportsFuncs(items[1..])
  }

  function ReportsRest(items: seq<Item>): seq<string> {
    if items == [] then [] else ReportsItem(items[0]) + ReportsRest(items[1..])
  }

  function ReportsItem(item: Item): seq<string> {
    match item
    case ScopeItem(d) => ReportsScope(d)
    case ThreadItem(d) => ReportsThread(d)
    case StmtItem(s) => Reports(s, 0)
    case FuncItem(_) => []
  }

  // ── The visitor ────────────────────────────────────────────────────────────

  class Visitor {
    var inLoop: nat
    var diags: seq<string>

    constructor ()
      ensures inLoop == 0 && diags == []
    {
      inLoop, diags := 0, [];
    }

    method VisitStmt(s: Stmt)
      modifies this
      ensures diags == old(diags) + Reports(s, old(inLoop)) && inLoop == old(inLoop)
      decreases s, 1
    {
      match s {
        case Break => if inLoop == 0 { diags := diags + ["break"]; }
        case Continue => if inLoop == 0 { diags := diags + ["continue"]; }
        case If(i) => VisitIf(i);
        case While(_, body) => VisitLoop(body);
        case For(_, _, _, _) => VisitFor(s);
        case ThreadSpawn(t, _, body, _) =>
          VisitFresh(body);
          if t.AnonymousThread? { VisitThread(t.decl); }
        case ScopeBlock(r, _, body) =>
          VisitBlock(body);
          if r.AnonymousScope? { VisitScope(r.decl); }
        case ExclusiveBlock(body) => VisitBlock(body);
        case Let(_, _, _) =>
        case Assign(_, _) =>
        case Return(_) =>
        case ExprStmt(_) =>
      }
    }

    method VisitFor(s: Stmt)
      requires s.For?
      modifies this
      ensures diags == old(diags) + Reports(s, old(inLoop)) && inLoop == old(inLoop)
      decreases s, 0
    {
      if s.first.Some? { VisitStmt(s.first.value); }
      if s.update.Some? { VisitStmt(s.update.value); }
      VisitLoop(s.body);
    }

    method VisitLoop(b: Block)
      modifies this
      ensures diags == old(diags) + ReportsBlock(b, old(inLoop) + 1) && inLoop == old(inLoop)
      decreases b, 2
    {
      inLoop := inLoop + 1;
      VisitBlock(b);
      inLoop := inLoop - 1;
    }

    /** `in_fresh_context` */
    method VisitFresh(b: Block)
      modifies this
      ensures diags == old(diags) + ReportsBlock(b, 0) && inLoop == old(inLoop)
      decreases b, 2
    {
      var saved := inLoop;
      inLoop := 0;
      VisitBlock(b);
      inLoop := saved;
    }

    method VisitBlock(b: Block)
      modifies this
      ensures diags == old(diags) + ReportsBlock(b, old(inLoop)) && inLoop == old(inLoop)
      decreases b, 1
    {
      for i := 0 to |b.stmts|
        invariant inLoop == old(inLoop)
        invariant diags + ReportsAll(b.stmts[i..], inLoop) == old(diags) + ReportsBlock(b, inLoop)
      {
        ghost var had := diags;
        VisitStmt(b.stmts[i]);
        assert b.stmts[i..][1..] == b.stmts[i + 1..];
        Regroup(had, Reports(b.stmts[i], inLoop), ReportsAll(b.stmts[i + 1..], inLoop));
      }
    }

    method VisitIf(i: IfStmt)
      modifies this
      ensures diags == old(diags) + ReportsIf(i, old(inLoop)) && inLoop == old(inLoop)
      decreases i, 1
    {
      VisitBlock(i.thenBlock);
      match i.elseBranch {
        case NoElse =>
        case Else(b) => VisitBlock(b);
        case ElseIf(next) => VisitIf(next);
      }
    }

    method VisitFunc(f: FuncDef)
      modifies this
      ensures diags == old(diags) + ReportsFunc(f) && inLoop == old(inLoop)
      decreases f, 1
    {
      VisitFresh(f.body);
    }

    method VisitHandler(h: HandlerDef)
      modifies this
      ensures diags == old(diags) + ReportsHandler(h) && inLoop == old(inLoop)
      decreases h, 1
    {
      VisitFresh(h.body);
    }

    method VisitScope(d: ScopeDecl)
      modifies this
      ensures diags == old(diags) + ReportsScope(d) && inLoop == old(inLoop)
      decreases d, 1
    {
      for i := 0 to |d.members|
        invariant inLoop == old(inLoop)
        invariant diags + ReportsScopeMembers(d.members[i..]) == old(diags) + ReportsScope(d)
      {
        ghost var had := diags;
        var m := d.members[i];
        if !m.ScopeDefine? { VisitFunc(m.f); }
        assert d.members[i..][1..] == d.members[i + 1..];
        Regroup(had, ReportsScopeMember(m), ReportsScopeMembers(d.members[i + 1..]));
      }
    }

    method VisitThreadMember(m: ThreadMember)
      modifies this
      ensures diags == old(diags) + ReportsThreadMember(m) && inLoop == old(inLoop)
      decreases m, 1
    {
      match m {
        case Handler(h) => VisitHandler(h);
        case OnEnter(f) => VisitFunc(f);
        case OnExit(f) => VisitFunc(f);
        case OnTerminate(f) => VisitFunc(f);
        case MemberFunc(f) => VisitFunc(f);
        case Expose(_) =>
        case ExposeMutable(_) =>
        case Define(_) =>
      }
    }

    method VisitThread(d: ThreadDecl)
      modifies this
      ensures diags == old(diags) + ReportsThread(d) && inLoop == old(inLoop)
      decreases d, 1
    {
      for i := 0 to |d.members|
        invariant inLoop == old(inLoop)
        invariant diags + ReportsThreadMembers(d.members[i..]) == old(diags) + ReportsThread(d)
      {
        ghost var had := diags;
        VisitThreadMember(d.members[i]);
        assert d.members[i..][1..] == d.members[i + 1..];
        Regroup(had, ReportsThreadMember(d.members[i]), ReportsThreadMembers(d.members[i + 1..]));
      }
    }

    method CheckFuncs(items: seq<Item>)
      requires inLoop == 0
      modifies this
      ensures diags == old(diags) + ReportsFuncs(items) && inLoop == 0
    {
      for i := 0 to |items|
        invariant inLoop == 0 && diags + ReportsFuncs(items[i..]) == old(diags) + ReportsFuncs(items)
      {
        ghost var had := diags;
        if items[i].FuncItem? { VisitFunc(items[i].f); }
        assert items[i..][1..] == items[i + 1..];
        Regroup(had, if items[i].FuncItem? then ReportsFunc(items[i].f) else [], ReportsFuncs(items[i + 1..]));
      }
    }

    method VisitItem(item: Item)
      requires inLoop == 0
      modifies this
      ensures diags == old(diags) + ReportsItem(item) && inLoop == 0
    {
      match item {
        case ScopeItem(d) => VisitScope(d);
        case ThreadItem(d) => VisitThread(d);
        case StmtItem(s) => VisitStmt(s);
        case FuncItem(_) =>
      }
    }

    method VisitProgram(items: seq<Item>)
      requires inLoop == 0
      modifies this
      ensures diags == old(diags) + ReportsRest(items) && inLoop == 0
    {
      for i := 0 to |items|
        invariant inLoop == 0 && diags + ReportsRest(items[i..]) == old(diags) + ReportsRest(items)
      {
        ghost var had := diags;
        VisitItem(items[i]);
        assert items[i..][1..] == items[i + 1..];
        Regroup(had, ReportsItem(items[i]), ReportsRest(items[i + 1..]));
      }
    }
  }

  function ReportsProgram(items: seq<Item>): seq<string> {
    ReportsFuncs(items) + ReportsRest(items)
  }

  method Check(items: seq<Item>) returns (diags: seq<string>)
    ensures diags == ReportsProgram(items)
  {
    var v := new Visitor();
    v.CheckFuncs(items);
    v.VisitProgram(items);
    diags := v.diags;
  }

  lemma Regroup(a: seq<string>, b: seq<string>, c: seq<string>)
    ensures a + (b + c) == (a + b) + c
  {
  }

  lemma {:induction false} SilentIff(s: Stmt, depth: nat)
    ensures Reports(s, depth) == [] <==> Lawful(s, depth > 0)
    decreases s, 1
  {
    match s {
      case If(i) => SilentIf(i, depth);
      case While(_, body) => SilentBlock(body, depth + 1);
      case For(first, _, update, body) =>
        if first.Some? { SilentIff(first.value, depth); }
        if update.Some? { SilentIff(update.value, depth); }
        SilentBlock(body, depth + 1);
      case ThreadSpawn(t, _, body, _) =>
        SilentBlock(body, 0);
        if t.AnonymousThread? { SilentThread(t.decl); }
      case ScopeBlock(r, _, body) =>
        SilentBlock(body, depth);
        if r.AnonymousScope? { SilentScope(r.decl); }
      case ExclusiveBlock(body) => SilentBlock(body, depth);
      case _ =>
    }
  }

  lemma {:induction false} SilentBlock(b: Block, depth: nat)
    ensures ReportsBlock(b, depth) == [] <==> LawfulBlock(b, depth > 0)
    decreases b, 1
  {
    SilentAll(b.stmts, depth);
  }

  lemma {:induction false} SilentAll(ss: seq<Stmt>, depth: nat)
    ensures ReportsAll(ss, depth) == [] <==> forall i :: 0 <= i < |ss| ==> Lawful(ss[i], depth > 0)
    decreases ss
  {
    if ss != [] {
      SilentIff(ss[0], depth);
      SilentAll(ss[1..], depth);
      assert forall i :: 0 < i < |ss| ==> ss[i] == ss[1..][i - 1];
    }
  }

  lemma {:induction false} SilentIf(i: IfStmt, depth: nat)
    ensures ReportsIf(i, depth) == [] <==> LawfulIf(i, depth > 0)
    decreases i, 1
  {
    SilentBlock(i.thenBlock, depth);
    if i.elseBranch.Else? {
      SilentBlock(i.elseBranch.block, depth);
    } else if i.elseBranch.ElseIf? {
      SilentIf(i.elseBranch.next, depth);
    }
  }

  lemma {:induction false} SilentFunc(f: FuncDef)
    ensures ReportsFunc(f) == [] <==> LawfulFunc(f)
    decreases f, 1
  {
    SilentBlock(f.body, 0);
  }

  lemma {:induction false} SilentScope(d: ScopeDecl)
    ensures ReportsScope(d) == [] <==> LawfulScope(d)
    decreases d, 1
  {
    SilentScopeMembers(d.members);
  }

  lemma {:induction false} SilentScopeMembers(ms: seq<ScopeMember>)
    ensures ReportsScopeMembers(ms) == [] <==> forall i :: 0 <= i < |ms| ==> LawfulScopeMember(ms[i])
    decreases ms
  {
    if ms != [] {
      SilentScopeMember(ms[0]);
      SilentScopeMembers(ms[1..]);
      assert forall i :: 0 < i < |ms| ==> ms[i] == ms[1..][i - 1];
    }
  }

  lemma {:induction false} SilentScopeMember(m: ScopeMember)
    ensures ReportsScopeMember(m) == [] <==> LawfulScopeMember(m)
    decreases m, 1
  {
    if !m.ScopeDefine? { SilentFunc(m.f); }
  }

  lemma {:induction false} SilentThread(d: ThreadDecl)
    ensures ReportsThread(d) == [] <==> LawfulThread(d)
    decreases d, 1
  {
    SilentThreadMembers(d.members);
  }

  lemma {:induction false} SilentThreadMembers(ms: seq<ThreadMember>)
    ensures ReportsThreadMembers(ms) == [] <==> forall i :: 0 <= i < |ms| ==> LawfulThreadMember(ms[i])
    decreases ms
  {
    if ms != [] {
      SilentThreadMember(ms[0]);
      SilentThreadMembers(ms[1..]);
      assert forall i :: 0 < i < |ms| ==> ms[i] == ms[1..][i - 1];
    }
  }

  lemma {:induction false} SilentThreadMember(m: ThreadMember)
    ensures ReportsThreadMember(m) == [] <==> LawfulThreadMember(m)
    decreases m, 1
  {
    match m {
      case Handler(h) => SilentHandler(h);
      case OnEnter(f) => SilentFunc(f);
      case OnExit(f) => SilentFunc(f);
      case OnTerminate(f) => SilentFunc(f);
      case MemberFunc(f) => SilentFunc(f);
      case _ =>
    }
  }

  lemma {:induction false} SilentHandler(h: HandlerDef)
    ensures ReportsHandler(h) == [] <==> LawfulHandler(h)
    decreases h, 1
  {
    SilentBlock(h.body, 0);
  }

  /** The pass accepts a program exactly when it obeys the rule everywhere. */
  lemma {:induction false} AcceptedIffLawful(items: seq<Item>)
    ensures ReportsProgram(items) == [] <==> forall i :: 0 <= i < |items| ==> LawfulItem(items[i])
  {
    if items != [] {
      AcceptedIffLawful(items[1..]);
      match items[0] {
        case FuncItem(f) => SilentFunc(f);
        case ScopeItem(d) => SilentScope(d);
        case ThreadItem(d) => SilentThread(d);
        case StmtItem(s) => SilentIff(s, 0);
      }
      assert forall i :: 0 < i < |items| ==> items[i] == items[1..][i - 1];
    }
  }

  // ── Whole programs ─────────────────────────────────────────────────────────

  /** The function table `run_program` builds: the last definition of a name is kept. */
  function FuncTable(items: seq<Item>): map<string, FuncDef> {
    if items == [] then map[]
    else
      var last := items[|items| - 1];
      var before := FuncTable(items[..|items| - 1]);
      if last.FuncItem? then before[last.f.name := last.f] else before
  }

  function ScopeTable(items: seq<Item>): map<string, ScopeDecl> {
    if items == [] then map[]
    else
      var last := items[|items| - 1];
      var before := ScopeTable(items[..|items| - 1]);
      if last.ScopeItem? && last.s.name.Some? then before[last.s.name.value := last.s] else before
  }

  predicate DefinesFunction(item: Item, name: string) {
    item.FuncItem? && item.f.name == name
  }

  predicate DefinesScope(item: Item, name: string) {
    item.ScopeItem? && item.s.name == Some(name)
  }

  /** A name means the last function of that name, and the last scope template. */
  lemma {:induction false} LastDefinitionCounts(items: seq<Item>, name: string, i: nat)
    requires i < |items|
    ensures DefinesFunction(items[i], name) && (forall j :: i < j < |items| ==> !DefinesFunction(items[j], name)) ==>
      name in FuncTable(items) && FuncTable(items)[name] == items[i].f
    ensures DefinesScope(items[i], name) && (forall j :: i < j < |items| ==> !DefinesScope(items[j], name)) ==>
      name in ScopeTable(items) && ScopeTable(items)[name] == items[i].s
    decreases |items|
  {
    var n := |items| - 1;
    if i < n {
      assert !DefinesFunction(items[n], name) || !DefinesScope(items[n], name);
      LastDefinitionCounts(items[..n], name, i);
      assert forall j :: 0 <= j < n ==> items[..n][j] == items[j];
    }
  }

  lemma {:induction false} OnlyDefinitionsCount(items: seq<Item>, name: string)
    ensures name in FuncTable(items) <==> exists i :: 0 <= i < |items| && DefinesFunction(items[i], name)
    ensures name in ScopeTable(items) <==> exists i :: 0 <= i < |items| && DefinesScope(items[i], name)
    decreases |items|
  {
    if items != [] {
      var n := |items| - 1;
      OnlyDefinitionsCount(items[..n], name);
      assert forall j :: 0 <= j < n ==> items[..n][j] == items[j];
      if exists i :: 0 <= i < n && DefinesFunction(items[..n][i], name) {
        var i :| 0 <= i < n && DefinesFunction(items[..n][i], name);
        assert DefinesFunction(items[i], name);
      }
      if exists i :: 0 <= i < n && DefinesScope(items[..n][i], name) {
        var i :| 0 <= i < n && DefinesScope(items[..n][i], name);
        assert DefinesScope(items[i], name);
      }
    }
  }

  function ProgramContext(items: seq<Item>, host: Host): Context {
    Context(FuncTable(items), ScopeTable(items), None, {}, {}, false, host)
  }

  /** The statements of a program, in order; what they give is dropped. */
  function RunTop(c: Context, fuel: nat, items: seq<Item>, st: State): Went {
    if items == [] then Went(Fell, st)
    else if !items[0].StmtItem? then RunTop(c, fuel, items[1..], st)
    else
      var a := Exec(c, fuel, items[0].stmt, st);
      if a.flow.Threw? || a.flow.Halted? then a else RunTop(c, fuel, items[1..], a.st)
  }

  function RefTop(c: Context, guarded: bool, fuel: nat, items: seq<Item>, st: State): RefWent {
    if items == [] then RefWent(Normal, st)
    else if !items[0].StmtItem? then RefTop(c, guarded, fuel, items[1..], st)
    else
      var a := RefExec(c, guarded, fuel, items[0].stmt, st);
      if Leaves(a.flow) then a else RefTop(c, guarded, fuel, items[1..], a.st)
  }

  /** A program comes to its end, to the same error, or to a stop for the same reason. */
  predicate SameEnd(x: Went, r: RefWent) {
    && x.st == r.st
    && match r.flow {
         case Normal => x.flow == Fell
         case Erred(e) => x.flow == Threw(e)
         case Stuck(why) => x.flow == Halted(why)
         case _ => false
       }
  }

  predicate TidyItem(item: Item) {
    match item
    case FuncItem(f) => TidyFunc(f)
    case ScopeItem(d) => TidyScope(d)
    case ThreadItem(d) => TidyThread(d)
    case StmtItem(s) => Tidy(s, false)
  }

  predicate TidyProgram(items: seq<Item>) {
    forall i :: 0 <= i < |items| ==> TidyItem(items[i])
  }

  lemma {:induction false} TablesObey(items: seq<Item>)
    requires forall i :: 0 <= i < |items| ==> LawfulItem(items[i])
    ensures forall f :: f in FuncTable(items).Values ==> LawfulFunc(f)
    ensures forall d :: d in ScopeTable(items).Values ==> LawfulScope(d)
    ensures TidyProgram(items) ==> forall f :: f in FuncTable(items).Values ==> TidyFunc(f)
    ensures TidyProgram(items) ==> forall d :: d in ScopeTable(items).Values ==> TidyScope(d)
  {
    if items != [] {
      TablesObey(items[..|items| - 1]);
      assert LawfulItem(items[|items| - 1]);
    }
  }

  lemma {:induction false} TopAgrees(c: Context, tidy: bool, fuel: nat, items: seq<Item>, st: State)
    requires LawfulContext(c) && PlainState(st) && (tidy ==> TidyContext(c) && TidyProgram(items))
    requires forall i :: 0 <= i < |items| ==> LawfulItem(items[i])
    ensures var x, r := RunTop(c, fuel, items, st), RefTop(c, true, fuel, items, st);
      (!tidy && r.flow == Stuck(Strayed)) || (SameEnd(x, r) && r.flow != Stuck(Strayed))
  {
    if items != [] {
      assert LawfulItem(items[0]) && (tidy ==> TidyItem(items[0]));
      if items[0].StmtItem? {
        ExecAgrees(c, tidy, fuel, items[0].stmt, st, false, false);
        var a := Exec(c, fuel, items[0].stmt, st);
        if !a.flow.Threw? && !a.flow.Halted? { TopAgrees(c, tidy, fuel, items[1..], a.st); }
      } else {
        TopAgrees(c, tidy, fuel, items[1..], st);
      }
    }
  }

  lemma {:induction false} TopUnguarded(c: Context, fuel: nat, items: seq<Item>, st: State)
    ensures CutWent(RefTop(c, true, fuel, items, st), RefTop(c, false, fuel, items, st))
  {
    if items != [] {
      if items[0].StmtItem? {
        ExecUnguarded(c, fuel, items[0].stmt, st);
        TopUnguarded(c, fuel, items[1..], RefExec(c, true, fuel, items[0].stmt, st).st);
      } else {
        TopUnguarded(c, fuel, items[1..], st);
      }
    }
  }

  /** Every program the lint accepts runs as the reference says, from its first statement on, unless
      the reference run strays; and that of a tidy program does not. */
  lemma LintedProgramsRunAsMeant(items: seq<Item>, host: Host, fuel: nat, st: State)
    requires ReportsProgram(items) == [] && PlainState(st)
    ensures var c := ProgramContext(items, host);
      var guarded := RefTop(c, true, fuel, items, st);
      && LawfulContext(c)
      && (guarded.flow != Stuck(Strayed) ==> SameEnd(RunTop(c, fuel, items, st), RefTop(c, false, fuel, items, st)))
      && (TidyProgram(items) ==> guarded.flow != Stuck(Strayed))
  {
    var c := ProgramContext(items, host);
    AcceptedIffLawful(items);
    TablesObey(items);
    TopAgrees(c, false, fuel, items, st);
    TopUnguarded(c, fuel, items, st);
    if TidyProgram(items) { TopAgrees(c, true, fuel, items, st); }
  }

  // ── Threads of a program ───────────────────────────────────────────────────

  function ReportsJob(j: Job): seq<string> {
    match j
    case CallJob(f, _) => ReportsFunc(f)
    case HandlerJob(h, _) => ReportsHandler(h)
    case BodyJob(body) => ReportsBlock(body, 0)
  }

  /** A function or hook, or a handler, of a template. */
  predicate IsOf(j: Job, d: ThreadDecl) {
    match j
    case CallJob(f, _) => exists m :: m in d.members && (m.OnEnter? || m.OnExit? || m.OnTerminate? || m.MemberFunc?) && m.f == f
    case HandlerJob(h, _) => Handler(h) in d.members
    case BodyJob(_) => false
  }

  lemma MembersAreAccepted(d: ThreadDecl, j: Job)
    requires ReportsThread(d) == [] && IsOf(j, d)
    ensures ReportsJob(j) == [] && (TidyThread(d) ==> TidyJob(j))
  {
    SilentThread(d);
    if j.CallJob? {
      var m :| m in d.members && (m.OnEnter? || m.OnExit? || m.OnTerminate? || m.MemberFunc?) && m.f == j.f;
      assert LawfulThreadMember(m) && (TidyThread(d) ==> TidyThreadMember(m));
      SilentFunc(j.f);
    } else {
      var m := Handler(j.h);
      assert LawfulThreadMember(m) && (TidyThread(d) ==> TidyThreadMember(m));
      SilentHandler(j.h);
    }
  }

  lemma SpawnedBodiesAreAccepted(s: Stmt, depth: nat)
    requires s.ThreadSpawn? && Reports(s, depth) == []
    ensures ReportsJob(BodyJob(s.body)) == [] && (s.thread.AnonymousThread? ==> ReportsThread(s.thread.decl) == [])
  {
  }

  lemma {:induction false} NamedThreadsAreAccepted(items: seq<Item>, d: ThreadDecl)
    requires ReportsProgram(items) == [] && ThreadItem(d) in items
    ensures ReportsThread(d) == []
  {
    AcceptedIffLawful(items);
    assert LawfulItem(ThreadItem(d));
    SilentThread(d);
  }

  /** And so do the body of a thread, its hooks, functions and handlers, each from any plain state and in
      the context its template builds over the program's; what they deliver is plain in any case. */
  lemma LintedThreadsRunAsMeant(
      items: seq<Item>, host: Host, d: Option<ThreadDecl>, self: nat, fuel: nat, j: Job, st: State)
    requires ReportsProgram(items) == [] && (d.Some? ==> ReportsThread(d.value) == []) && ReportsJob(j) == []
    requires PlainState(st) && PlainJob(j)
    ensures var c := ThreadContext(ProgramContext(items, host), d, self);
      var guarded := RefJob(c, true, fuel, j, st);
      && PlainAnswer(Delivery(c, fuel, j, st))
      && (guarded.r != Stopped(Strayed) ==> RunJob(c, fuel, j, st) == RefJob(c, false, fuel, j, st))
      && (TidyProgram(items) && TidyJob(j) && (d.Some? ==> TidyThread(d.value)) ==> guarded.r != Stopped(Strayed))
  {
    var c := ProgramContext(items, host);
    AcceptedIffLawful(items);
    TablesObey(items);
    if d.Some? { SilentThread(d.value); }
    ThreadsObey(c, d, self);
    AcceptedJobs(j);
    JobsRunAsMeant(ThreadContext(c, d, self), fuel, j, st);
    DeliversAPlainAnswer(ThreadContext(c, d, self), fuel, j, st);
  }

  lemma AcceptedJobs(j: Job)
    ensures ReportsJob(j) == [] <==> LawfulJob(j)
  {
    match j {
      case CallJob(f, _) => SilentFunc(f);
      case HandlerJob(h, _) => SilentHandler(h);
      case BodyJob(body) => SilentBlock(body, 0);
    }
  }

  // ── Where the encoding shows ───────────────────────────────────────────────

  /** Without the lint: a `break` in a function is a value of its call. */
  lemma BreakEscapesAFunction(c: Context, name: string, fuel: nat)
    ensures CallFunc(c, fuel, FuncDef(Sync, name, [], Void, Block([Break])), [], START).r == Done(NeverV)
  {
    var f := FuncDef(Sync, name, [], Void, Block([Break]));
    var st := EnterFunc(f, [], PushFrame(f, START));
    assert ExecStmts(c, fuel, [Break], PushScope(st)).flow == Gave(NeverV);
    assert ExecBlock(c, fuel, f.body, st).flow == Gave(NeverV);
  }

  /** A `return` in the first clause of a `for` is dropped: the loop runs on. */
  lemma ForDropsAReturn(c: Context, fuel: nat)
    ensures var s := For(Some(Return(None)), None, None, Block([Break]));
      Reports(s, 0) == []
      && Exec(c, fuel, s, START).flow == Fell && RefExec(c, false, fuel, s, START).flow == Returned(VoidV)
  {
    var s := For(Some(Return(None)), None, None, Block([Break]));
    var st := PushScope(START);
    assert Exec(c, fuel, Return(None), st) == Went(Gave(VoidV), st);
    assert ExecStmts(c, fuel, [Break], PushScope(st)).flow == Gave(NeverV);
    assert ExecBlock(c, fuel, s.body, st).flow == Gave(NeverV);
    assert ExecFor(c, fuel, s, st).flow == Fell;
    assert RefExec(c, false, fuel, Return(None), st).flow == Returned(VoidV);
  }

  /** So is a `break` there, which the lint takes for one of the loop around the `for`: the evaluator
      goes on to the `return` behind it, where the reference has left the outer loop. */
  lemma ForDropsABreak(c: Context, fuel: nat)
    ensures var s := While(Lit(Bool(true)), Block([For(Some(Break), None, None, Block([Break])), Return(None)]));
      Reports(s, 0) == []
      && Exec(c, fuel, s, START).flow == Gave(VoidV) && RefExec(c, false, fuel, s, START).flow == Normal
  {
    var first := For(Some(Break), None, None, Block([Break]));
    var s := While(Lit(Bool(true)), Block([first, Return(None)]));
    var inner := PushScope(START);
    assert s.body.stmts[1..] == [Return(None)];
    assert ReportsAll([Return(None)], 1) == [] && ReportsAll(s.body.stmts, 1) == [];
    BreakClause(c, fuel, inner);
    assert ExecStmts(c, fuel, [Return(None)], Exec(c, fuel, first, inner).st).flow == Gave(VoidV);
    assert ExecBlock(c, fuel, s.body, START).flow == Gave(VoidV);
    assert RefBlock(c, false, fuel, s.body, START).flow == Broke;
    assert Eval(c, s.condition, START, CallAt(c, fuel)) == Ran(Done(BoolV(true)), START);
    assert Eval(c, s.condition, START, RefCallAt(c, false, fuel)) == Ran(Done(BoolV(true)), START);
    assert ExecWhile(c, fuel, s, START) == ExecRound(c, fuel, s, START);
    assert RefWhile(c, false, fuel, s, START) == RefRound(c, false, fuel, s, START);
  }

  lemma BreakClause(c: Context, fuel: nat, st: State)
    ensures var s := For(Some(Break), None, None, Block([Break]));
      Reports(s, 1) == [] && Exec(c, fuel, s, st).flow == Fell && RefExec(c, false, fuel, s, st).flow == Broke
  {
    var s := For(Some(Break), None, None, Block([Break]));
    var inner := PushScope(st);
    assert s.body.stmts[1..] == [];
    assert ReportsAll(s.body.stmts, 2) == [];
    assert Exec(c, fuel, Break, inner) == Went(Gave(NeverV), inner);
    assert RefExec(c, false, fuel, Break, inner) == RefWent(Broke, inner);
    assert ExecStmts(c, fuel, [Break], PushScope(inner)).flow == Gave(NeverV);
    assert ExecBlock(c, fuel, s.body, inner).flow == Gave(NeverV);
    assert ExecFor(c, fuel, s, inner) == ExecTurn(c, fuel, s, inner);
  }

  /** A `continue` is skipped: where the reference loops for ever, the evaluator reaches the `break`. */
  lemma {:induction false} ContinueIsSkipped(c: Context, fuel: nat, st: State)
    ensures var s := While(Lit(Bool(true)), Block([Continue, Break]));
      Reports(s, 0) == []
      && Exec(c, fuel, s, st).flow == Fell && RefExec(c, false, fuel, s, st).flow == Stuck(OutOfFuel)
  {
    var s := While(Lit(Bool(true)), Block([Continue, Break]));
    var inner := PushScope(st);
    assert s.body.stmts[1..] == [Break];
    assert ExecStmts(c, fuel, [Break], inner) == Went(Gave(NeverV), inner);
    assert ExecStmts(c, fuel, s.body.stmts, inner) == Went(Gave(NeverV), inner);
    assert RefStmts(c, false, fuel, s.body.stmts, inner) == RefWent(Continued, inner);
    assert PopScope(inner) == st;
    assert Eval(c, s.condition, st, CallAt(c, fuel)) == Ran(Done(BoolV(true)), st);
    assert Eval(c, s.condition, st, RefCallAt(c, false, fuel)) == Ran(Done(BoolV(true)), st);
    assert RefBlock(c, false, fuel, s.body, st) == RefWent(Continued, st);
    assert ExecBlock(c, fuel, s.body, st) == Went(Gave(NeverV), st);
    assert ExecWhile(c, fuel, s, st) == ExecRound(c, fuel, s, st);
    assert RefWhile(c, false, fuel, s, st) == RefRound(c, false, fuel, s, st);
    if fuel > 0 {
      assert RefWhile(c, false, fuel, s, st) == RefWhile(c, false, fuel - 1, s, st);
      assert RefExec(c, false, fuel - 1, s, st) == RefWhile(c, false, fuel - 1, s, st);
      ContinueIsSkipped(c, fuel - 1, st);
    }
  }
}
