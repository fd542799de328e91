/** What runs as a task or in a thread of its own: async calls, member functions, hooks, handlers and
    spawned bodies (crates/tessera-interp/src/eval.rs and event_loop.rs), each from the state it is
    given to the answer it delivers. */
module Tasks {
  import opened Options
  import opened Ast
  import opened Values
  import opened Evaluator
  import opened LoopRule
  import opened PlainValues
  import opened Cutoff
  import opened Reference
  import opened Faithful
  import opened Guard

  datatype Job = CallJob(f: FuncDef, args: seq<Value>) | HandlerJob(h: HandlerDef, args: seq<Value>) | BodyJob(body: Block)

  // ── The context of a thread ────────────────────────────────────────────────

  /** A thread registers the functions and hooks of its template over those of the program, in order. */
  function MemberTable(funcs: map<string, FuncDef>, ms: seq<ThreadMember>): map<string, FuncDef> {
    if ms == [] then funcs
    else
      var last := ms[|ms| - 1];
      var before := MemberTable(funcs, ms[..|ms| - 1]);
      if last.OnEnter? || last.OnExit? || last.OnTerminate? || last.MemberFunc? then before[last.f.name := last.f] else before
  }

  function ThreadContext(c: Context, d: Option<ThreadDecl>, self: nat): Context {
    match d
    case None => c.(self := None, exposed := {}, exposedMutable := {}, hasThread := true)
    case Some(t) =>
      c.(funcs := MemberTable(c.funcs, t.members), self := Some(self),
         exposed := set m | m in t.members && m.Expose? :: m.d.name,
         exposedMutable := set m | m in t.members && m.ExposeMutable? :: m.d.name,
         hasThread := true)
  }

  predicate NamedMember(m: ThreadMember, name: string) {
    (m.OnEnter? || m.OnExit? || m.OnTerminate? || m.MemberFunc?) && m.f.name == name
  }

  /** In a thread, a name means the template's last function or hook of that name, and what it meant in
      the program if there is none. */
  lemma {:induction false} MembersHideFunctions(funcs: map<string, FuncDef>, ms: seq<ThreadMember>, name: string)
    ensures var table := MemberTable(funcs, ms);
      || ((forall i :: 0 <= i < |ms| ==> !NamedMember(ms[i], name))
          && (name in table <==> name in funcs) && (name in funcs ==> table[name] == funcs[name]))
      || (exists i :: 0 <= i < |ms| && NamedMember(ms[i], name) && name in table && table[name] == ms[i].f
                      && forall j :: i < j < |ms| ==> !NamedMember(ms[j], name))
    decreases |ms|
  {
    if ms != [] {
      var n := |ms| - 1;
      MembersHideFunctions(funcs, ms[..n], name);
      if !NamedMember(ms[n], name) {
        assert name in MemberTable(funcs, ms) <==> name in MemberTable(funcs, ms[..n]);
      }
    }
  }

  /** A thread publishes the fields its template exposes, and its `self` is its own. */
  lemma ThreadsPublishTheirs(c: Context, d: ThreadDecl, self: nat, name: string)
    ensures var t := ThreadContext(c, Some(d), self);
      && t.hasThread && t.self == Some(self) && t.scopes == c.scopes
      && (name in t.exposed <==> exists m :: m in d.members && m.Expose? && m.d.name == name)
      && (name in t.exposedMutable <==> exists m :: m in d.members && m.ExposeMutable? && m.d.name == name)
  {
  }

  // ── Jobs ───────────────────────────────────────────────────────────────────

  /** The frame of a handler says that it is one. */
  function AsFunc(h: HandlerDef): FuncDef {
    FuncDef(Sync, "handler " + h.name, h.params, h.returnType, h.body)
  }

  function EnterHandler(h: HandlerDef, vs: seq<Value>, st: State): State {
    EnterFunc(AsFunc(h), vs, PushFrame(AsFunc(h), st))
  }

  /** `exec_handler_body`: no default arguments, and no check of their types. */
  function RunHandler(c: Context, fuel: nat, h: HandlerDef, vs: seq<Value>, st: State): Ran {
    if |h.params| != |vs| then Ran(Fail(c, "Panic"), st)
    else
      var b := ExecBlock(c, fuel, h.body, EnterHandler(h, vs, st));
      var r := FuncResult(b.flow);
      Ran(r, if r.Stopped? then b.st else LeaveFrame(r, PopScope(b.st)))
  }

  /** The loop of a thread drops what its body gives. */
  function BodyResult(r: Result): Result {
    if r.Done? then Done(VoidV) else r
  }

  function RunJob(c: Context, fuel: nat, j: Job, st: State): Ran {
    match j
    case CallJob(f, vs) => CallFunc(c, fuel, f, vs, st)
    case HandlerJob(h, vs) => RunHandler(c, fuel, h, vs, st)
    case BodyJob(body) => var b := ExecBlock(c, fuel, body, st); Ran(BodyResult(FuncResult(b.flow)), b.st)
  }

  function RefHandler(c: Context, guarded: bool, fuel: nat, h: HandlerDef, vs: seq<Value>, st: State): Ran {
    if |h.params| != |vs| then Ran(Fail(c, "Panic"), st)
    else
      var b := RefBlock(c, guarded, fuel, h.body, EnterHandler(h, vs, st));
      var r := RefResult(b.flow);
      Ran(r, if r.Stopped? then b.st else LeaveFrame(r, PopScope(b.st)))
  }

  function RefJob(c: Context, guarded: bool, fuel: nat, j: Job, st: State): Ran {
    match j
    case CallJob(f, vs) => RefCallFunc(c, guarded, fuel, f, vs, st)
    case HandlerJob(h, vs) => RefHandler(c, guarded, fuel, h, vs, st)
    case BodyJob(body) => var b := RefBlock(c, guarded, fuel, body, st); Ran(BodyResult(RefResult(b.flow)), b.st)
  }

  predicate LawfulJob(j: Job) {
    match j
    case CallJob(f, _) => LawfulFunc(f)
    case HandlerJob(h, _) => LawfulHandler(h)
    case BodyJob(body) => LawfulBlock(body, false)
  }

  predicate TidyJob(j: Job) {
    match j
    case CallJob(f, _) => TidyFunc(f)
    case HandlerJob(h, _) => TidyStmts(h.body.stmts, false)
    case BodyJob(body) => TidyStmts(body.stmts, false)
  }

  predicate PlainJob(j: Job) {
    j.BodyJob? || PlainSeq(j.args)
  }

  // ── Lawful threads ─────────────────────────────────────────────────────────

  lemma {:induction false} MembersObey(funcs: map<string, FuncDef>, ms: seq<ThreadMember>)
    requires forall f :: f in funcs.Values ==> LawfulFunc(f)
    requires forall i :: 0 <= i < |ms| ==> LawfulThreadMember(ms[i])
    ensures forall f :: f in MemberTable(funcs, ms).Values ==> LawfulFunc(f)
    ensures (forall f :: f in funcs.Values ==> TidyFunc(f)) && (forall i :: 0 <= i < |ms| ==> TidyThreadMember(ms[i])) ==>
      forall f :: f in MemberTable(funcs, ms).Values ==> TidyFunc(f)
  {
    if ms != [] {
      MembersObey(funcs, ms[..|ms| - 1]);
      assert LawfulThreadMember(ms[|ms| - 1]);
    }
  }

  lemma ThreadsObey(c: Context, d: Option<ThreadDecl>, self: nat)
    requires LawfulContext(c) && (d.Some? ==> LawfulThread(d.value))
    ensures LawfulContext(ThreadContext(c, d, self))
    ensures TidyContext(c) && (d.Some? ==> TidyThread(d.value)) ==> TidyContext(ThreadContext(c, d, self))
  {
    if d.Some? { MembersObey(c.funcs, d.value.members); }
  }

  // ── What jobs do ───────────────────────────────────────────────────────────

  lemma HandlerAgrees(c: Context, tidy: bool, fuel: nat, h: HandlerDef, vs: seq<Value>, st: State)
    requires LawfulContext(c) && LawfulHandler(h) && PlainSeq(vs) && PlainState(st)
    requires tidy ==> TidyContext(c) && TidyStmts(h.body.stmts, false)
    ensures PlainRan(RunHandler(c, fuel, h, vs, st))
    ensures Follows(tidy, RunHandler(c, fuel, h, vs, st), RefHandler(c, true, fuel, h, vs, st))
  {
    if |h.params| == |vs| {
      DefineAllPlain(Push(st.scopes), h.params, vs);
      BlockAgrees(c, tidy, fuel, h.body, EnterHandler(h, vs, st), false, false);
    }
  }

  lemma JobAgrees(c: Context, tidy: bool, fuel: nat, j: Job, st: State)
    requires LawfulContext(c) && LawfulJob(j) && PlainJob(j) && PlainState(st)
    requires tidy ==> TidyContext(c) && TidyJob(j)
    ensures PlainRan(RunJob(c, fuel, j, st))
    ensures Follows(tidy, RunJob(c, fuel, j, st), RefJob(c, true, fuel, j, st))
  {
    match j {
      case CallJob(f, vs) => CallFuncAgrees(c, tidy, fuel, f, vs, st);
      case HandlerJob(h, vs) => HandlerAgrees(c, tidy, fuel, h, vs, st);
      case BodyJob(body) => BlockAgrees(c, tidy, fuel, body, st, false, false);
    }
  }

  lemma JobUnguarded(c: Context, fuel: nat, j: Job, st: State)
    ensures Cut(Strayed, RefJob(c, true, fuel, j, st), RefJob(c, false, fuel, j, st))
  {
    match j {
      case CallJob(f, vs) => CallFuncUnguarded(c, fuel, f, vs, st);
      case HandlerJob(h, vs) => BlockUnguarded(c, fuel, h.body, EnterHandler(h, vs, st));
      case BodyJob(body) => BlockUnguarded(c, fuel, body, st);
    }
  }

  /** A lawful job that does not stray does what the reference says, and a tidy one never strays. */
  lemma JobsRunAsMeant(c: Context, fuel: nat, j: Job, st: State)
    requires LawfulContext(c) && LawfulJob(j) && PlainJob(j) && PlainState(st)
    ensures RefJob(c, true, fuel, j, st).r != Stopped(Strayed) ==> RunJob(c, fuel, j, st) == RefJob(c, false, fuel, j, st)
    ensures TidyContext(c) && TidyJob(j) ==> RefJob(c, true, fuel, j, st).r != Stopped(Strayed)
  {
    JobAgrees(c, false, fuel, j, st);
    JobUnguarded(c, fuel, j, st);
    if TidyContext(c) && TidyJob(j) { JobAgrees(c, true, fuel, j, st); }
  }

  // ── What jobs deliver ──────────────────────────────────────────────────────

  /** The result of a job, and the heap it leaves to whoever waits for it. */
  function Delivery(c: Context, fuel: nat, j: Job, st: State): Answer {
    var a := RunJob(c, fuel, j, st);
    Answer(a.r, a.st.w.heap)
  }

  /** A lawful job that is given plain answers delivers a plain one, tidy or not. */
  lemma DeliversAPlainAnswer(c: Context, fuel: nat, j: Job, st: State)
    requires LawfulContext(c) && LawfulJob(j) && PlainJob(j) && PlainState(st)
    ensures PlainAnswer(Delivery(c, fuel, j, st))
  {
    JobAgrees(c, false, fuel, j, st);
  }

  datatype TaskRun = TaskRun(c: Context, fuel: nat, job: Job, st: State)

  function Delivered(t: TaskRun): Answer {
    Delivery(t.c, t.fuel, t.job, t.st)
  }

  /** An answer comes from the host, which has no `Never`, or from a job before. */
  predicate Supplied(a: Answer, before: seq<TaskRun>) {
    PlainAnswer(a) || exists j :: 0 <= j < |before| && Delivered(before[j]) == a
  }

  /** A lawful task on plain variables, whose heap and answers are supplied by the tasks before it. */
  predicate Follower(t: TaskRun, before: seq<TaskRun>) {
    && LawfulContext(t.c) && LawfulJob(t.job) && PlainJob(t.job) && PlainScopes(t.st.scopes)
    && (PlainHeap(t.st.w.heap) || exists j :: 0 <= j < |before| && Delivered(before[j]).heap == t.st.w.heap)
    && (forall k :: 0 <= k < |t.st.w.answers| ==> Supplied(t.st.w.answers[k], before))
  }

  /** Among tasks that answer one another nobody ever delivers a `Never`. */
  lemma {:induction false} NobodyDeliversNever(ts: seq<TaskRun>, i: nat)
    requires i < |ts| && forall k :: 0 <= k <= i ==> Follower(ts[k], ts[..k])
    ensures PlainAnswer(Delivered(ts[i])) && PlainState(ts[i].st)
    decreases i
  {
    var before := ts[..i];
    assert Follower(ts[i], before);
    forall j | 0 <= j < i ensures PlainAnswer(Delivered(before[j])) {
      NobodyDeliversNever(ts, j);
      assert before[j] == ts[j];
    }
    forall k | 0 <= k < |ts[i].st.w.answers| ensures PlainAnswer(ts[i].st.w.answers[k]) {
      assert Supplied(ts[i].st.w.answers[k], before);
    }
    DeliversAPlainAnswer(ts[i].c, ts[i].fuel, ts[i].job, ts[i].st);
  }
}
