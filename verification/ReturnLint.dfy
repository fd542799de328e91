/** The lint that asks a non-void function to return on every path
    (crates/tessera-lint/src/passes/return_not_all_paths.rs), and its soundness for the evaluator. */
module ReturnLint {
  import opened Options
  import opened Ast
  import opened Values
  import opened Evaluator
  import opened LoopRule
  import opened PlainValues
  import opened Cutoff
  import opened Reference
  import opened Faithful
  import opened Guard
  import opened Tasks
  import opened BreakLint

  /** `definitely_terminates`: some statement of the block does. */
  predicate Terminates(ss: seq<Stmt>) {
    ss != [] && (StmtTerminates(ss[0]) || Terminates(ss[1..]))
  }

  predicate StmtTerminates(s: Stmt) {
    match s
    case Return(_) => true
    case ExprStmt(e) => e.Panic?
    case If(i) => IfTerminates(i)
    case _ => false
  }

  predicate IfTerminates(i: IfStmt) {
    match i.elseBranch
    case NoElse => false
    case Else(b) => Terminates(i.thenBlock.stmts) && Terminates(b.stmts)
    case ElseIf(next) => Terminates(i.thenBlock.stmts) && IfTerminates(next)
  }

  predicate Offends(ty: TypeExpr, body: Block) {
    ty != Void && ty != TypeExpr.Never && !Terminates(body.stmts)
  }

  // ── Paths ──────────────────────────────────────────────────────────────────

  /** A walk through statements ends on the way, or comes out with the choices it has not used. */
  datatype Walked = Ended | Through(choices: seq<bool>)

  /** One path, with every `if` decided by the next choice (the `else` when there is none left): a
      `return` and a `panic` statement end it, and everything else, loops included, is passed. */
  function Walk(ss: seq<Stmt>, choices: seq<bool>): Walked
    decreases ss
  {
    if ss == [] then Through(choices)
    else
      match WalkStmt(ss[0], choices)
      case Ended => Ended
      case Through(left) => Walk(ss[1..], left)
  }

  function WalkStmt(s: Stmt, choices: seq<bool>): Walked
    decreases s, 1
  {
    match s
    case Return(_) => Ended
    case ExprStmt(Panic(_)) => Ended
    case If(i) => WalkIf(i, choices)
    case _ => Through(choices)
  }

  function WalkIf(i: IfStmt, choices: seq<bool>): Walked
    decreases i, 1
  {
    var left := if choices == [] then [] else choices[1..];
    if choices != [] && choices[0] then Walk(i.thenBlock.stmts, left)
    else
      match i.elseBranch
      case NoElse => Through(left)
      case Else(b) => Walk(b.stmts, left)
      case ElseIf(next) => WalkIf(next, left)
  }

  /** The choices of a path that falls off the end, if the lint sees one. */
  lemma {:induction false} FallingPath(ss: seq<Stmt>) returns (p: seq<bool>)
    requires !Terminates(ss)
    ensures forall more: seq<bool> {:trigger Walk(ss, p + more)} :: Walk(ss, p + more) == Through(more)
    decreases ss
  {
    if ss == [] {
      p := [];
      assert forall more: seq<bool> :: p + more == more;
    } else {
      var first := FallingStmt(ss[0]);
      var others := FallingPath(ss[1..]);
      p := first + others;
      forall more: seq<bool> ensures Walk(ss, p + more) == Through(more) {
        assert p + more == first + (others + more);
        assert WalkStmt(ss[0], first + (others + more)) == Through(others + more);
        assert Walk(ss[1..], others + more) == Through(more);
        WalkOn(ss, p + more, others + more, more);
      }
    }
  }

  lemma WalkOn(ss: seq<Stmt>, choices: seq<bool>, left: seq<bool>, more: seq<bool>)
    requires ss != [] && WalkStmt(ss[0], choices) == Through(left) && Walk(ss[1..], left) == Through(more)
    ensures Walk(ss, choices) == Through(more)
  {
  }

  lemma {:induction false} FallingStmt(s: Stmt) returns (p: seq<bool>)
    requires !StmtTerminates(s)
    ensures forall more: seq<bool> {:trigger WalkStmt(s, p + more)} :: WalkStmt(s, p + more) == Through(more)
    decreases s, 1
  {
    if s.If? {
      p := FallingIf(s.branch);
    } else {
      p := [];
      assert forall more: seq<bool> :: p + more == more;
    }
  }

  lemma {:induction false} FallingIf(i: IfStmt) returns (p: seq<bool>)
    requires !IfTerminates(i)
    ensures forall more: seq<bool> {:trigger WalkIf(i, p + more)} :: WalkIf(i, p + more) == Through(more)
    decreases i, 1
  {
    var branch: seq<bool> := [];
    if !i.elseBranch.NoElse? && !Terminates(i.thenBlock.stmts) {
      branch := FallingPath(i.thenBlock.stmts);
      p := [true] + branch;
    } else {
      if i.elseBranch.Else? {
        branch := FallingPath(i.elseBranch.block.stmts);
      } else if i.elseBranch.ElseIf? {
        branch := FallingIf(i.elseBranch.next);
      }
      p := [false] + branch;
    }
    forall more: seq<bool> ensures WalkIf(i, p + more) == Through(more) {
      assert (p + more)[0] == p[0] && (p + more)[1..] == branch + more;
      if i.elseBranch.NoElse? { assert branch + more == more; }
    }
  }

  lemma {:induction false} PathsEnd(ss: seq<Stmt>, choices: seq<bool>)
    requires Terminates(ss)
    ensures Walk(ss, choices).Ended?
    decreases ss
  {
    if StmtTerminates(ss[0]) {
      StmtPathsEnd(ss[0], choices);
    } else if WalkStmt(ss[0], choices).Through? {
      PathsEnd(ss[1..], WalkStmt(ss[0], choices).choices);
    }
  }

  lemma {:induction false} StmtPathsEnd(s: Stmt, choices: seq<bool>)
    requires StmtTerminates(s)
    ensures WalkStmt(s, choices).Ended?
    decreases s, 1
  {
    if s.If? { IfPathsEnd(s.branch, choices); }
  }

  lemma {:induction false} IfPathsEnd(i: IfStmt, choices: seq<bool>)
    requires IfTerminates(i)
    ensures WalkIf(i, choices).Ended?
    decreases i, 1
  {
    var left := if choices == [] then [] else choices[1..];
    PathsEnd(i.thenBlock.stmts, left);
    if i.elseBranch.Else? { PathsEnd(i.elseBranch.block.stmts, left); } else { IfPathsEnd(i.elseBranch.next, left); }
  }

  ghost predicate EveryPathEnds(ss: seq<Stmt>) {
    forall choices: seq<bool> :: Walk(ss, choices).Ended?
  }

  /** The lint's test is exact on paths: it accepts a body if and only if no path falls off its end. */
  lemma TerminatesIff(ss: seq<Stmt>)
    ensures Terminates(ss) <==> EveryPathEnds(ss)
  {
    if Terminates(ss) {
      forall choices: seq<bool> ensures Walk(ss, choices).Ended? { PathsEnd(ss, choices); }
    } else {
      var p := FallingPath(ss);
      assert Walk(ss, p + []) == Through([]);
    }
  }

  // ── The pass ───────────────────────────────────────────────────────────────

  /** The functions and handlers reported, in order; hooks and nested templates are not looked at. */
  function Offenders(items: seq<Item>): seq<string> {
    if items == [] then [] else ItemOffenders(items[0]) + Offenders(items[1..])
  }

  function ItemOffenders(item: Item): seq<string> {
    match item
    case FuncItem(f) => if Offends(f.returnType, f.body) then [f.name] else []
    case ScopeItem(d) => ScopeOffenders(d.members)
    case ThreadItem(d) => ThreadOffenders(d.members)
    case StmtItem(_) => []
  }

  function ScopeOffenders(ms: seq<ScopeMember>): seq<string> {
    if ms == [] then []
    else (if ms[0].ScopeFunc? && Offends(ms[0].f.returnType, ms[0].f.body) then [ms[0].f.name] else []) + ScopeOffenders(ms[1..])
  }

  function ThreadOffenders(ms: seq<ThreadMember>): seq<string> {
    if ms == [] then [] else MemberOffenders(ms[0]) + ThreadOffenders(ms[1..])
  }

  function MemberOffenders(m: ThreadMember): seq<string> {
    if m.MemberFunc? && Offends(m.f.returnType, m.f.body) then [m.f.name]
    else if m.Handler? && Offends(m.h.returnType, m.h.body) then [m.h.name]
    else []
  }

  method CheckScope(ms: seq<ScopeMember>, before: seq<string>) returns (diags: seq<string>)
    ensures diags == before + ScopeOffenders(ms)
  {
    diags := before;
    for i := 0 to |ms|
      invariant diags + ScopeOffenders(ms[i..]) == before + ScopeOffenders(ms)
    {
      assert ms[i..][1..] == ms[i + 1..];
      if ms[i].ScopeFunc? && Offends(ms[i].f.returnType, ms[i].f.body) {
        diags := diags + [ms[i].f.name];
      }
    }
  }

  method CheckThread(ms: seq<ThreadMember>, before: seq<string>) returns (diags: seq<string>)
    ensures diags == before + ThreadOffenders(ms)
  {
    diags := before;
    for i := 0 to |ms|
      invariant diags + ThreadOffenders(ms[i..]) == before + ThreadOffenders(ms)
    {
      assert ms[i..][1..] == ms[i + 1..];
      ghost var had := diags;
      if ms[i].MemberFunc? && Offends(ms[i].f.returnType, ms[i].f.body) {
        diags := diags + [ms[i].f.name];
      } else if ms[i].Handler? && Offends(ms[i].h.returnType, ms[i].h.body) {
        diags := diags + [ms[i].h.name];
      }
      Regroup(had, MemberOffenders(ms[i]), ThreadOffenders(ms[i + 1..]));
    }
  }

  method CheckItem(item: Item, before: seq<string>) returns (diags: seq<string>)
    ensures diags == before + ItemOffenders(item)
  {
    match item {
      case FuncItem(f) => diags := if Offends(f.returnType, f.body) then before + [f.name] else before;
      case ScopeItem(d) => diags := CheckScope(d.members, before);
      case ThreadItem(d) => diags := CheckThread(d.members, before);
      case StmtItem(_) => diags := before;
    }
  }

  method Check(items: seq<Item>) returns (diags: seq<string>)
    ensures diags == Offenders(items)
  {
    diags := [];
    for i := 0 to |items|
      invariant diags + Offenders(items[i..]) == Offenders(items)
    {
      ghost var had := diags;
      diags := CheckItem(items[i], diags);
      assert items[i..][1..] == items[i + 1..];
      Regroup(had, ItemOffenders(items[i]), Offenders(items[i + 1..]));
    }
  }

  /** A body that must give a value has a path that falls off its end. */
  ghost predicate FallsOff(ty: TypeExpr, body: Block) {
    !ty.Void? && !ty.Never? && !EveryPathEnds(body.stmts)
  }

  lemma OffendsIff(ty: TypeExpr, body: Block)
    ensures Offends(ty, body) <==> FallsOff(ty, body)
  {
    TerminatesIff(body.stmts);
  }

  ghost predicate ScopeMemberFalls(m: ScopeMember, name: string) {
    m.ScopeFunc? && m.f.name == name && FallsOff(m.f.returnType, m.f.body)
  }

  ghost predicate ThreadMemberFalls(m: ThreadMember, name: string) {
    || (m.MemberFunc? && m.f.name == name && FallsOff(m.f.returnType, m.f.body))
    || (m.Handler? && m.h.name == name && FallsOff(m.h.returnType, m.h.body))
  }

  ghost predicate ItemFalls(item: Item, name: string) {
    match item
    case FuncItem(f) => f.name == name && FallsOff(f.returnType, f.body)
    case ScopeItem(d) => exists m :: m in d.members && ScopeMemberFalls(m, name)
    case ThreadItem(d) => exists m :: m in d.members && ThreadMemberFalls(m, name)
    case StmtItem(_) => false
  }

  /** A name is reported if and only if a function or handler of that name, with a value to give, has a
      path that falls off the end of its body. */
  lemma {:induction false} ReportedIff(items: seq<Item>, name: string)
    ensures name in Offenders(items) <==> exists item :: item in items && ItemFalls(item, name)
  {
    if items != [] {
      ReportedIff(items[1..], name);
      ItemReportedIff(items[0], name);
      assert forall item :: item in items <==> item == items[0] || item in items[1..];
    }
  }

  lemma ItemReportedIff(item: Item, name: string)
    ensures name in ItemOffenders(item) <==> ItemFalls(item, name)
  {
    match item {
      case FuncItem(f) => OffendsIff(f.returnType, f.body);
      case ScopeItem(d) => ScopeMembersReported(d.members, name);
      case ThreadItem(d) => ThreadMembersReported(d.members, name);
      case StmtItem(_) =>
    }
  }

  lemma {:induction false} ScopeMembersReported(ms: seq<ScopeMember>, name: string)
    ensures name in ScopeOffenders(ms) <==> exists m :: m in ms && ScopeMemberFalls(m, name)
  {
    if ms != [] {
      ScopeMembersReported(ms[1..], name);
      if ms[0].ScopeFunc? { OffendsIff(ms[0].f.returnType, ms[0].f.body); }
      var first := if ms[0].ScopeFunc? && Offends(ms[0].f.returnType, ms[0].f.body) then [ms[0].f.name] else [];
      assert name in first <==> ScopeMemberFalls(ms[0], name);
      assert ScopeOffenders(ms) == first + ScopeOffenders(ms[1..]);
      assert name in ScopeOffenders(ms) <==> name in first || name in ScopeOffenders(ms[1..]);
      assert forall m :: m in ms <==> m == ms[0] || m in ms[1..];
    }
  }

  lemma {:induction false} ThreadMembersReported(ms: seq<ThreadMember>, name: string)
    ensures name in ThreadOffenders(ms) <==> exists m :: m in ms && ThreadMemberFalls(m, name)
  {
    if ms != [] {
      ThreadMembersReported(ms[1..], name);
      if ms[0].MemberFunc? { OffendsIff(ms[0].f.returnType, ms[0].f.body); }
      if ms[0].Handler? { OffendsIff(ms[0].h.returnType, ms[0].h.body); }
      var first := MemberOffenders(ms[0]);
      assert name in first <==> ThreadMemberFalls(ms[0], name);
      assert ThreadOffenders(ms) == first + ThreadOffenders(ms[1..]);
      assert name in ThreadOffenders(ms) <==> name in first || name in ThreadOffenders(ms[1..]);
      assert forall m :: m in ms <==> m == ms[0] || m in ms[1..];
    }
  }

  // ── Soundness ──────────────────────────────────────────────────────────────

  lemma {:induction false} StmtNeverFalls(c: Context, fuel: nat, s: Stmt, st: State)
    requires StmtTerminates(s)
    ensures !Exec(c, fuel, s, st).flow.Fell?
    decreases s, 1
  {
    match s {
      case Return(e) =>
      case ExprStmt(e) => assert !Eval(c, e, st, CallAt(c, fuel)).r.Done?;
      case If(i) => IfNeverFalls(c, fuel, i, st);
    }
  }

  lemma {:induction false} IfNeverFalls(c: Context, fuel: nat, i: IfStmt, st: State)
    requires IfTerminates(i)
    ensures !ExecIf(c, fuel, i, st).flow.Fell?
    decreases i, 1
  {
    var cond := Eval(c, i.condition, st, CallAt(c, fuel));
    if cond.r.Done? {
      BlockNeverFalls(c, fuel, i.thenBlock, cond.st);
      if i.elseBranch.Else? {
        BlockNeverFalls(c, fuel, i.elseBranch.block, cond.st);
      } else {
        IfNeverFalls(c, fuel, i.elseBranch.next, cond.st);
      }
    }
  }

  /** Whatever the body does before, it does not fall off its end. */
  lemma {:induction false} BlockNeverFalls(c: Context, fuel: nat, b: Block, st: State)
    requires Terminates(b.stmts)
    ensures !ExecBlock(c, fuel, b, st).flow.Fell?
    decreases b, 1
  {
    StmtsNeverFall(c, fuel, b.stmts, PushScope(st));
  }

  lemma {:induction false} StmtsNeverFall(c: Context, fuel: nat, ss: seq<Stmt>, st: State)
    requires Terminates(ss)
    ensures !ExecStmts(c, fuel, ss, st).flow.Fell?
    decreases ss
  {
    if StmtTerminates(ss[0]) {
      StmtNeverFalls(c, fuel, ss[0], st);
    } else {
      StmtsNeverFall(c, fuel, ss[1..], Exec(c, fuel, ss[0], st).st);
    }
  }

  /** The reference ends a body by a `return`, an error or a stop, and the result is that. */
  predicate ReturnsOrLeaves(r: Result, flow: RefFlow) {
    (flow.Returned? || Leaves(flow)) && r == RefResult(flow)
  }

  lemma BodyReturns(c: Context, fuel: nat, body: Block, st: State)
    requires LawfulContext(c) && LawfulBlock(body, false) && Terminates(body.stmts) && PlainState(st)
    requires RefBlock(c, true, fuel, body, st).flow != Stuck(Strayed)
    ensures ReturnsOrLeaves(FuncResult(ExecBlock(c, fuel, body, st).flow), RefBlock(c, false, fuel, body, st).flow)
  {
    BlockNeverFalls(c, fuel, body, st);
    BlockAgrees(c, false, fuel, body, st, false, false);
    BlockUnguarded(c, fuel, body, st);
  }

  /** A function whose body terminates and does not stray gives a value only through a `return`: never
      the void of falling off the end, and never the `Never` of a `break`. */
  lemma ValuesAreReturned(c: Context, fuel: nat, f: FuncDef, vs: seq<Value>, st: State)
    requires LawfulContext(c) && LawfulFunc(f) && Terminates(f.body.stmts)
    requires Accepts(f, vs) && PlainSeq(vs) && PlainState(st)
    requires RefCallFunc(c, true, fuel, f, vs, st).r != Stopped(Strayed)
    ensures ReturnsOrLeaves(CallFunc(c, fuel, f, vs, st).r,
                            RefBlock(c, false, fuel, f.body, EnterFunc(f, vs, PushFrame(f, st))).flow)
  {
    var st0 := PushFrame(f, st);
    DefineAllPlain(Push(st0.scopes), f.params, vs);
    BodyReturns(c, fuel, f.body, EnterFunc(f, vs, st0));
  }

  /** The same of a handler, which does not check the types of its arguments. */
  lemma HandlersReturn(c: Context, fuel: nat, h: HandlerDef, vs: seq<Value>, st: State)
    requires LawfulContext(c) && LawfulHandler(h) && Terminates(h.body.stmts)
    requires |h.params| == |vs| && PlainSeq(vs) && PlainState(st)
    requires RefHandler(c, true, fuel, h, vs, st).r != Stopped(Strayed)
    ensures ReturnsOrLeaves(RunHandler(c, fuel, h, vs, st).r, RefBlock(c, false, fuel, h.body, EnterHandler(h, vs, st)).flow)
  {
    DefineAllPlain(Push(st.scopes), h.params, vs);
    BodyReturns(c, fuel, h.body, EnterHandler(h, vs, st));
  }

  lemma {:induction false} AcceptedFunctions(items: seq<Item>)
    requires forall i :: 0 <= i < |items| ==> ItemOffenders(items[i]) == []
    ensures forall f :: f in FuncTable(items).Values ==> !Offends(f.returnType, f.body)
  {
    if items != [] {
      AcceptedFunctions(items[..|items| - 1]);
      assert ItemOffenders(items[|items| - 1]) == [];
    }
  }

  lemma {:induction false} NoOffender(items: seq<Item>, i: nat)
    requires Offenders(items) == [] && i < |items|
    ensures ItemOffenders(items[i]) == []
  {
    if i > 0 {
      NoOffender(items[1..], i - 1);
    }
  }

  lemma TableIsAccepted(items: seq<Item>, host: Host, name: string)
    requires Offenders(items) == [] && ReportsProgram(items) == [] && name in FuncTable(items)
    ensures var c, f := ProgramContext(items, host), FuncTable(items)[name];
      && LawfulContext(c) && LawfulFunc(f) && !Offends(f.returnType, f.body)
      && (TidyProgram(items) ==> TidyContext(c) && TidyFunc(f))
  {
    forall i | 0 <= i < |items| ensures ItemOffenders(items[i]) == [] { NoOffender(items, i); }
    AcceptedFunctions(items);
    AcceptedIffLawful(items);
    TablesObey(items);
    assert FuncTable(items)[name] in FuncTable(items).Values;
  }

  /** Both lints together: every non-void function of a program without reports that gives a value gives
      one of its `return`s, unless it strays; and in a tidy program it does not. */
  lemma LintedFunctionsReturn(items: seq<Item>, host: Host, fuel: nat, name: string, vs: seq<Value>, st: State)
    requires Offenders(items) == [] && ReportsProgram(items) == []
    requires name in FuncTable(items) && FuncTable(items)[name].returnType.Named?
    requires Accepts(FuncTable(items)[name], vs) && PlainSeq(vs) && PlainState(st)
    ensures var c, f := ProgramContext(items, host), FuncTable(items)[name];
      var guarded := RefCallFunc(c, true, fuel, f, vs, st).r;
      && (guarded != Stopped(Strayed) ==>
           ReturnsOrLeaves(CallFunc(c, fuel, f, vs, st).r,
                           RefBlock(c, false, fuel, f.body, EnterFunc(f, vs, PushFrame(f, st))).flow))
      && (TidyProgram(items) ==> guarded != Stopped(Strayed))
  {
    var c, f := ProgramContext(items, host), FuncTable(items)[name];
    TableIsAccepted(items, host, name);
    JobsRunAsMeant(c, fuel, CallJob(f, vs), st);
    if RefCallFunc(c, true, fuel, f, vs, st).r != Stopped(Strayed) { ValuesAreReturned(c, fuel, f, vs, st); }
  }

  // ── Threads ────────────────────────────────────────────────────────────────

  /** A member function or handler of the template, which has a value to give, with arguments it takes. */
  predicate MustReturn(j: Job, d: ThreadDecl) {
    match j
    case CallJob(f, vs) => MemberFunc(f) in d.members && f.returnType.Named? && Accepts(f, vs)
    case HandlerJob(h, vs) => Handler(h) in d.members && h.returnType.Named? && |h.params| == |vs|
    case BodyJob(_) => false
  }

  function BodyOf(j: Job): Block {
    match j
    case CallJob(f, _) => f.body
    case HandlerJob(h, _) => h.body
    case BodyJob(body) => body
  }

  function Enter(j: Job, st: State): State {
    match j
    case CallJob(f, vs) => EnterFunc(f, vs, PushFrame(f, st))
    case HandlerJob(h, vs) => EnterHandler(h, vs, st)
    case BodyJob(_) => st
  }

  lemma {:induction false} AcceptedMembers(ms: seq<ThreadMember>)
    requires ThreadOffenders(ms) == []
    ensures forall m :: m in ms && m.MemberFunc? ==> !Offends(m.f.returnType, m.f.body)
    ensures forall m :: m in ms && m.Handler? ==> !Offends(m.h.returnType, m.h.body)
  {
    if ms != [] {
      AcceptedMembers(ms[1..]);
      assert forall m :: m in ms ==> m == ms[0] || m in ms[1..];
    }
  }

  /** Both lints together, in the context a template builds: its non-void functions and its handlers that
      give a value give one of their `return`s. */
  lemma LintedThreadsReturn(items: seq<Item>, host: Host, d: ThreadDecl, self: nat, fuel: nat, j: Job, st: State)
    requires ReportsProgram(items) == [] && ReportsThread(d) == [] && ThreadOffenders(d.members) == []
    requires MustReturn(j, d) && PlainState(st) && PlainJob(j)
    ensures var c := ThreadContext(ProgramContext(items, host), Some(d), self);
      var guarded := RefJob(c, true, fuel, j, st).r;
      && (guarded != Stopped(Strayed) ==>
           ReturnsOrLeaves(RunJob(c, fuel, j, st).r, RefBlock(c, false, fuel, BodyOf(j), Enter(j, st)).flow))
      && (TidyProgram(items) && TidyThread(d) ==> guarded != Stopped(Strayed))
  {
    var c := ThreadContext(ProgramContext(items, host), Some(d), self);
    AcceptedMembers(d.members);
    if j.CallJob? { assert MemberFunc(j.f) in d.members; } else { assert Handler(j.h) in d.members; }
    MembersAreAccepted(d, j);
    AcceptedJobs(j);
    LintedThreadsRunAsMeant(items, host, Some(d), self, fuel, j, st);
    ThreadIsLawful(items, host, d, self);
    if RefJob(c, true, fuel, j, st).r != Stopped(Strayed) {
      if j.CallJob? { ValuesAreReturned(c, fuel, j.f, j.args, st); } else { HandlersReturn(c, fuel, j.h, j.args, st); }
    }
  }

  lemma ThreadIsLawful(items: seq<Item>, host: Host, d: ThreadDecl, self: nat)
    requires ReportsProgram(items) == [] && ReportsThread(d) == []
    ensures LawfulContext(ThreadContext(ProgramContext(items, host), Some(d), self))
  {
    AcceptedIffLawful(items);
    TablesObey(items);
    SilentThread(d);
    ThreadsObey(ProgramContext(items, host), Some(d), self);
  }

  /** The lint is not complete: this loop never falls off its end, and is reported all the same. */
  lemma ReportedButNeverFalls(c: Context, fuel: nat, st: State)
    ensures var s := While(Lit(Bool(true)), Block([Return(None)]));
      !Terminates([s]) && Exec(c, fuel, s, st).flow == Gave(VoidV)
  {
    var s := While(Lit(Bool(true)), Block([Return(None)]));
    assert Eval(c, s.condition, st, CallAt(c, fuel)) == Ran(Done(BoolV(true)), st);
    assert ExecStmts(c, fuel, [Return(None)], PushScope(st)).flow == Gave(VoidV);
    assert ExecBlock(c, fuel, s.body, st).flow == Gave(VoidV);
    assert ExecWhile(c, fuel, s, st) == ExecRound(c, fuel, s, st);
  }
}
