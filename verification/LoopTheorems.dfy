/** What the encoding of `break` as a value promises under the loop rule, and exactly where the
    evaluator (crates/tessera-interp/src/eval.rs) parts from the reference semantics: at a `for` that its
    first clause leaves, and at statements behind a `continue`. */
module LoopTheorems {
  import opened Options
  import opened Ast
  import opened Values
  import opened Evaluator
  import opened LoopRule
  import opened PlainValues
  import opened Cutoff
  import opened Reference
  import opened Faithful
  import opened Guard

  /** The guarded run of a statement meets one of the two places. */
  predicate Strays(c: Context, fuel: nat, s: Stmt, st: State) {
    RefExec(c, true, fuel, s, st).flow == Stuck(Strayed)
  }

  lemma AgreesUnlessItStrays(c: Context, fuel: nat, s: Stmt, st: State, loop: bool)
    requires LawfulContext(c) && Lawful(s, loop) && PlainState(st) && !Strays(c, fuel, s, st)
    ensures Agrees(Exec(c, fuel, s, st), RefExec(c, false, fuel, s, st), loop)
    ensures RefExec(c, true, fuel, s, st) == RefExec(c, false, fuel, s, st)
    ensures Sound(Exec(c, fuel, s, st), loop)
  {
    ExecAgrees(c, false, fuel, s, st, loop, false);
    ExecUnguarded(c, fuel, s, st);
  }

  /** Outside loops a run that does not stray is the reference's: a value is given exactly by a
      `return`, it is never `Never`, and a `break` never leaves its loop. */
  lemma NeverIsFaithful(c: Context, fuel: nat, s: Stmt, st: State)
    requires LawfulContext(c) && Lawful(s, false) && PlainState(st) && !Strays(c, fuel, s, st)
    ensures var x, r := Exec(c, fuel, s, st), RefExec(c, false, fuel, s, st);
      && x.st == r.st
      && (x.flow.Fell? <==> r.flow.Normal?)
      && (x.flow.Gave? <==> r.flow.Returned?)
      && (x.flow.Gave? ==> x.flow.v == r.flow.v && x.flow.v != NeverV)
      && (x.flow.Threw? <==> r.flow.Erred?)
      && (x.flow.Threw? ==> x.flow.e == r.flow.e)
  {
    AgreesUnlessItStrays(c, fuel, s, st, false);
  }

  /** Tidy programs never stray, whatever they call and however they are run. */
  lemma TidyNeverStrays(c: Context, fuel: nat, s: Stmt, st: State, loop: bool)
    requires LawfulContext(c) && TidyContext(c) && PlainState(st)
    requires Lawful(s, loop) && Tidy(s, true)
    ensures !Strays(c, fuel, s, st)
  {
    ExecAgrees(c, true, fuel, s, st, loop, true);
  }

  /** No expression evaluates to `Never`, whatever it calls and however the calls are written. */
  lemma NoExpressionIsNever(c: Context, fuel: nat, e: Expr, st: State)
    requires LawfulContext(c) && PlainState(st)
    ensures var a := Eval(c, e, st, CallAt(c, fuel)); (a.r.Done? ==> Plain(a.r.v)) && PlainState(a.st)
  {
    ValueAgrees(c, false, fuel, e, st);
  }

  /** A call whose body does not stray gives what the reference's `return` gives, and never `Never`. */
  lemma CallsGiveWhatIsReturned(c: Context, fuel: nat, f: FuncDef, vs: seq<Value>, st: State)
    requires LawfulContext(c) && LawfulFunc(f) && PlainSeq(vs) && PlainState(st)
    ensures PlainRan(CallFunc(c, fuel, f, vs, st))
    ensures RefCallFunc(c, true, fuel, f, vs, st).r != Stopped(Strayed) ==>
      CallFunc(c, fuel, f, vs, st) == RefCallFunc(c, false, fuel, f, vs, st)
    ensures TidyContext(c) && TidyFunc(f) ==> RefCallFunc(c, true, fuel, f, vs, st).r != Stopped(Strayed)
  {
    CallFuncAgrees(c, false, fuel, f, vs, st);
    CallFuncUnguarded(c, fuel, f, vs, st);
    if TidyContext(c) && TidyFunc(f) { CallFuncAgrees(c, true, fuel, f, vs, st); }
  }

  // ── `for` with any first clause ────────────────────────────────────────────

  /** The statement ends normally here, or with an error or a stop. */
  predicate NotLeft(c: Context, fuel: nat, s: Stmt, st: State) {
    var r := RefExec(c, false, fuel, s, st).flow;
    r.Normal? || Leaves(r)
  }

  /** A `for` with this first clause, lawful where it stands, whose turns are tidy. */
  predicate LoopOn(s: Stmt, first: Stmt, loop: bool) {
    s.For? && s.first == Some(first) && LawfulTurns(s, loop) && TidyTurns(s)
  }

  /** The exact condition on the first clause of a `for`, in any state and at any place: around it every
      tidy loop goes as the reference does if and only if the clause ends normally or not at all. */
  lemma ForIsFaithfulIff(c: Context, fuel: nat, first: Stmt, st: State, loop: bool)
    requires LawfulContext(c) && TidyContext(c) && PlainState(st)
    requires Lawful(first, loop) && !Strays(c, fuel, first, PushScope(st))
    ensures (forall s: Stmt | LoopOn(s, first, loop) :: Agrees(Exec(c, fuel, s, st), RefExec(c, false, fuel, s, st), loop))
            <==> NotLeft(c, fuel, first, PushScope(st))
  {
    var init := RefExec(c, false, fuel, first, PushScope(st)).flow;
    if NotLeft(c, fuel, first, PushScope(st)) {
      forall s: Stmt | LoopOn(s, first, loop) ensures Agrees(Exec(c, fuel, s, st), RefExec(c, false, fuel, s, st), loop) {
        ForAgreesWhenNotLeft(c, fuel, s, first, st, loop);
      }
    } else {
      var s := Leaving(first, OtherWay(init));
      LeavingDisagrees(c, fuel, first, st, loop);
      assert !Agrees(Exec(c, fuel, s, st), RefExec(c, false, fuel, s, st), loop);
    }
  }

  lemma ForAgreesWhenNotLeft(c: Context, fuel: nat, s: Stmt, first: Stmt, st: State, loop: bool)
    requires LawfulContext(c) && TidyContext(c) && PlainState(st)
    requires Lawful(first, loop) && !Strays(c, fuel, first, PushScope(st)) && LoopOn(s, first, loop)
    requires NotLeft(c, fuel, first, PushScope(st))
    ensures Agrees(Exec(c, fuel, s, st), RefExec(c, false, fuel, s, st), loop)
  {
    AgreesUnlessItStrays(c, fuel, first, PushScope(st), loop);
    var init := RefExec(c, false, fuel, first, PushScope(st));
    if init.flow.Normal? {
      TurnsAgree(c, true, fuel, s, init.st, loop);
      ForUnguarded(c, fuel, s, init.st);
    }
  }

  /** A loop that does nothing but leave: what shows the difference. */
  function Leaving(first: Stmt, way: Stmt): Stmt {
    For(Some(first), None, None, Block([way]))
  }

  /** A way to leave that cannot be taken for the clause's. */
  function OtherWay(init: RefFlow): (way: Stmt)
    ensures way == Break || way == Return(None)
  {
    if init.Continued? then Return(None) else Break
  }

  lemma LeavingDisagrees(c: Context, fuel: nat, first: Stmt, st: State, loop: bool)
    requires LawfulContext(c) && PlainState(st) && Lawful(first, loop) && !Strays(c, fuel, first, PushScope(st))
    requires !NotLeft(c, fuel, first, PushScope(st))
    ensures var s := Leaving(first, OtherWay(RefExec(c, false, fuel, first, PushScope(st)).flow));
      LoopOn(s, first, loop) && !Agrees(Exec(c, fuel, s, st), RefExec(c, false, fuel, s, st), loop)
  {
    LeavingDiffers(c, fuel, first, st, loop);
    LeavingIsALoop(first, OtherWay(RefExec(c, false, fuel, first, PushScope(st)).flow), loop);
  }

  lemma LeavingIsALoop(first: Stmt, way: Stmt, loop: bool)
    requires way == Break || way == Return(None)
    ensures LoopOn(Leaving(first, way), first, loop)
  {
    var ss := [way];
    assert ss[1..] == [] && Tidy(way, true) && TidyStmts([], true);
    assert TidyStmts(ss, true);
    assert Lawful(way, true) && LawfulBlock(Block(ss), true);
  }

  lemma LeavingDiffers(c: Context, fuel: nat, first: Stmt, st: State, loop: bool)
    requires LawfulContext(c) && PlainState(st) && Lawful(first, loop) && !Strays(c, fuel, first, PushScope(st))
    requires !NotLeft(c, fuel, first, PushScope(st))
    ensures var init := RefExec(c, false, fuel, first, PushScope(st)).flow;
      var s := Leaving(first, OtherWay(init));
      && RefExec(c, false, fuel, s, st).flow == init
      && Exec(c, fuel, s, st).flow == if init.Continued? then Gave(VoidV) else Fell
  {
    AgreesUnlessItStrays(c, fuel, first, PushScope(st), loop);
    var way := OtherWay(RefExec(c, false, fuel, first, PushScope(st)).flow);
    OneTurn(c, fuel, Leaving(first, way), way, Exec(c, fuel, first, PushScope(st)).st);
  }

  lemma OneTurn(c: Context, fuel: nat, s: Stmt, way: Stmt, st: State)
    requires s.For? && s.test.None? && s.body == Block([way]) && (way == Break || way == Return(None))
    ensures ExecFor(c, fuel, s, st).flow == if way.Break? then Fell else Gave(VoidV)
  {
    assert ExecStmts(c, fuel, [way], PushScope(st)).flow == Gave(if way.Break? then NeverV else VoidV);
    assert ExecBlock(c, fuel, s.body, st).flow == Gave(if way.Break? then NeverV else VoidV);
    assert ExecFor(c, fuel, s, st) == ExecTurn(c, fuel, s, st);
  }

  // ── `for` with any update ──────────────────────────────────────────────────

  /** A `for` with this update whose body is tidy. */
  predicate LoopBy(s: Stmt, update: Stmt) {
    s.For? && s.update == Some(update) && LawfulBlock(s.body, true) && TidyStmts(s.body.stmts, true)
  }

  ghost predicate LeftNowhere(c: Context, s: Stmt) {
    forall fuel: nat, st: State | PlainState(st) :: NotLeft(c, fuel, s, st)
  }

  /** The exact condition on the update of a `for`: the turns of every tidy loop with it go as the
      reference does, from every plain state, if and only if it is left from none. */
  lemma UpdateIsFaithfulIff(c: Context, update: Stmt, loop: bool)
    requires LawfulContext(c) && TidyContext(c) && Lawful(update, loop) && Tidy(update, true)
    ensures (forall s: Stmt, fuel: nat, st: State | LoopBy(s, update) && PlainState(st) ::
               Agrees(ExecFor(c, fuel, s, st), RefFor(c, false, fuel, s, st), loop))
            <==> LeftNowhere(c, update)
  {
    if LeftNowhere(c, update) {
      forall s: Stmt, fuel: nat, st: State | LoopBy(s, update) && PlainState(st)
        ensures Agrees(ExecFor(c, fuel, s, st), RefFor(c, false, fuel, s, st), loop)
      {
        TurnsNeverLeft(c, fuel, s, update, st, loop);
      }
    } else {
      var fuel: nat, st: State :| PlainState(st) && !NotLeft(c, fuel, update, st);
      EndlessDiffers(c, fuel, update, st, loop);
      assert !Agrees(ExecFor(c, fuel, Endless(update), st), RefFor(c, false, fuel, Endless(update), st), loop);
    }
  }

  lemma {:induction false} TurnsNeverLeft(c: Context, fuel: nat, s: Stmt, update: Stmt, st: State, loop: bool)
    requires LawfulContext(c) && TidyContext(c) && Lawful(update, loop) && Tidy(update, true) && PlainState(st)
    requires LoopBy(s, update) && LeftNowhere(c, update)
    ensures Agrees(ExecFor(c, fuel, s, st), RefFor(c, false, fuel, s, st), loop)
    decreases fuel, 2
  {
    TestAgrees(c, fuel, s, st);
    var a := ForTest(c, s, st, CallAt(c, fuel));
    if a.r.Done? && Truthy(a.r.v) { TurnNeverLeft(c, fuel, s, update, a.st, loop); }
  }

  lemma {:induction false} TurnNeverLeft(c: Context, fuel: nat, s: Stmt, update: Stmt, st: State, loop: bool)
    requires LawfulContext(c) && TidyContext(c) && Lawful(update, loop) && Tidy(update, true) && PlainState(st)
    requires LoopBy(s, update) && LeftNowhere(c, update)
    ensures Agrees(ExecTurn(c, fuel, s, st), RefTurn(c, false, fuel, s, st), loop)
    decreases fuel, 1
  {
    BlockAgrees(c, true, fuel, s.body, st, true, true);
    BlockUnguarded(c, fuel, s.body, st);
    var b := ExecBlock(c, fuel, s.body, st);
    if b.flow.Fell? { UpdateNeverLeft(c, fuel, s, update, b.st, loop); }
  }

  lemma {:induction false} UpdateNeverLeft(c: Context, fuel: nat, s: Stmt, update: Stmt, st: State, loop: bool)
    requires LawfulContext(c) && TidyContext(c) && Lawful(update, loop) && Tidy(update, true) && PlainState(st)
    requires LoopBy(s, update) && LeftNowhere(c, update)
    ensures Agrees(ExecUpdate(c, fuel, s, st), RefUpdate(c, false, fuel, s, st), loop)
    decreases fuel, 0
  {
    TidyNeverStrays(c, fuel, update, st, loop);
    AgreesUnlessItStrays(c, fuel, update, st, loop);
    assert NotLeft(c, fuel, update, st);
    var u := Exec(c, fuel, update, st);
    if u.flow.Fell? && fuel > 0 { TurnsNeverLeft(c, fuel - 1, s, update, u.st, loop); }
  }

  lemma TestAgrees(c: Context, fuel: nat, s: Stmt, st: State)
    requires LawfulContext(c) && TidyContext(c) && s.For? && PlainState(st)
    ensures ForTest(c, s, st, CallAt(c, fuel)) == ForTest(c, s, st, RefCallAt(c, false, fuel))
    ensures PlainState(ForTest(c, s, st, CallAt(c, fuel)).st)
  {
    if s.test.Some? {
      ValueAgrees(c, true, fuel, s.test.value, st);
      CallsUnguarded(c, fuel);
      EvalCut(c, Strayed, s.test.value, st, RefCallAt(c, true, fuel), RefCallAt(c, false, fuel));
    }
  }

  /** A loop that never ends by itself: what shows the difference. */
  function Endless(update: Stmt): Stmt {
    For(None, None, Some(update), Block([]))
  }

  lemma EndlessDiffers(c: Context, fuel: nat, update: Stmt, st: State, loop: bool)
    requires !NotLeft(c, fuel, update, st)
    ensures LoopBy(Endless(update), update)
    ensures !Agrees(ExecFor(c, fuel, Endless(update), st), RefFor(c, false, fuel, Endless(update), st), loop)
  {
    EndlessLeft(c, fuel, update, st);
    EndlessGoesOn(c, fuel, update, st);
  }

  lemma EndlessLeft(c: Context, fuel: nat, update: Stmt, st: State)
    requires !NotLeft(c, fuel, update, st)
    ensures RefFor(c, false, fuel, Endless(update), st).flow == RefExec(c, false, fuel, update, st).flow
  {
    assert PopScope(PushScope(st)) == st;
    assert RefBlock(c, false, fuel, Block([]), st) == RefWent(Normal, st);
    assert RefTurn(c, false, fuel, Endless(update), st) == RefUpdate(c, false, fuel, Endless(update), st);
  }

  lemma {:induction false} EndlessGoesOn(c: Context, fuel: nat, update: Stmt, st: State)
    ensures var x := ExecFor(c, fuel, Endless(update), st).flow; x.Threw? || x.Halted?
    decreases fuel
  {
    assert PopScope(PushScope(st)) == st;
    assert ExecBlock(c, fuel, Block([]), st) == Went(Fell, st);
    assert ExecTurn(c, fuel, Endless(update), st) == ExecUpdate(c, fuel, Endless(update), st);
    if fuel > 0 { EndlessGoesOn(c, fuel - 1, update, Exec(c, fuel, update, st).st); }
  }

  // ── `continue` with anything behind it ─────────────────────────────────────

  lemma {:induction false} ExecAppend(c: Context, fuel: nat, a: seq<Stmt>, b: seq<Stmt>, st: State)
    ensures var x := ExecStmts(c, fuel, a, st);
      ExecStmts(c, fuel, a + b, st) == if x.flow.Fell? then ExecStmts(c, fuel, b, x.st) else x
    decreases |a|
  {
    if a == [] {
      assert a + b == b;
    } else {
      assert (a + b)[1..] == a[1..] + b;
      ExecAppend(c, fuel, a[1..], b, Exec(c, fuel, a[0], st).st);
    }
  }

  lemma {:induction false} RefAppend(c: Context, fuel: nat, a: seq<Stmt>, b: seq<Stmt>, st: State)
    ensures var x := RefStmts(c, false, fuel, a, st);
      RefStmts(c, false, fuel, a + b, st) == if x.flow.Normal? then RefStmts(c, false, fuel, b, x.st) else x
    decreases |a|
  {
    if a == [] {
      assert a + b == b;
    } else {
      assert (a + b)[1..] == a[1..] + b;
      RefAppend(c, fuel, a[1..], b, RefExec(c, false, fuel, a[0], st).st);
    }
  }

  /** What may follow in the same turn. */
  predicate MayFollow(more: seq<Stmt>, loop: bool) {
    LawfulStmts(more, loop) && TidyStmts(more, true)
  }

  /** The exact condition on a list of statements, in any state and at any place: whatever tidy
      statements follow, the evaluator goes as the reference does if and only if the list does not end
      in a `continue`. */
  lemma ListIsFaithfulIff(c: Context, fuel: nat, ss: seq<Stmt>, st: State, loop: bool)
    requires LawfulContext(c) && TidyContext(c) && PlainState(st)
    requires LawfulStmts(ss, loop) && RefStmts(c, true, fuel, ss, st).flow != Stuck(Strayed)
    ensures (forall more: seq<Stmt> | MayFollow(more, loop) ::
               Agrees(ExecStmts(c, fuel, ss + more, st), RefStmts(c, false, fuel, ss + more, st), loop))
            <==> !RefStmts(c, false, fuel, ss, st).flow.Continued?
  {
    StmtsAgree(c, false, fuel, ss, st, loop, false);
    StmtsUnguarded(c, fuel, ss, st);
    var r := RefStmts(c, false, fuel, ss, st);
    if r.flow.Continued? {
      var more := [Return(None)];
      ExecAppend(c, fuel, ss, more, st);
      RefAppend(c, fuel, ss, more, st);
      assert MayFollow(more, loop);
      assert ExecStmts(c, fuel, more, r.st).flow == Gave(VoidV);
      assert !Agrees(ExecStmts(c, fuel, ss + more, st), RefStmts(c, false, fuel, ss + more, st), loop);
    } else {
      forall more: seq<Stmt> | MayFollow(more, loop)
        ensures Agrees(ExecStmts(c, fuel, ss + more, st), RefStmts(c, false, fuel, ss + more, st), loop)
      {
        ExecAppend(c, fuel, ss, more, st);
        RefAppend(c, fuel, ss, more, st);
        if r.flow.Normal? {
          StmtsAgree(c, true, fuel, more, r.st, loop, true);
          StmtsUnguarded(c, fuel, more, r.st);
        }
      }
    }
  }
}
