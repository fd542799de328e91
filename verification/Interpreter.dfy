/** The interpreter as the objects it is made of (crates/tessera-interp/src/env.rs and eval.rs): a scope
    chain and a task that walk the syntax and change their fields. Every method does what `Evaluator`
    says, keeps the scope chain non-empty and never makes it shorter. */
module Interpreters {
  import opened Options
  import opened Ast
  import opened Values
  import opened Evaluator

  // ── The scope chain ────────────────────────────────────────────────────────

  class Env {
    var scopes: seq<Scope>

    constructor ()
      ensures scopes == [map[]]
    {
      scopes := [map[]];
    }

    method PushScope()
      modifies this
      ensures scopes == Push(old(scopes))
    {
      scopes := scopes + [map[]];
    }

    method PopScope()
      requires scopes != []
      modifies this
      ensures scopes == Pop(old(scopes))
    {
      scopes := scopes[..|scopes| - 1];
    }

    method Define(name: string, v: Value)
      requires scopes != []
      modifies this
      ensures scopes == DefineIn(old(scopes), name, v)
    {
      var top := |scopes| - 1;
      scopes := scopes[top := scopes[top][name := v]];
    }

    /** From the innermost scope outwards. */
    method Find(name: string) returns (v: Option<Value>)
      ensures v == Lookup(scopes, name)
    {
      var i := |scopes|;
      assert scopes[..i] == scopes;
      while i > 0
        invariant i <= |scopes| && Lookup(scopes, name) == Lookup(scopes[..i], name)
      {
        i := i - 1;
        assert Pop(scopes[..i + 1]) == scopes[..i];
        if name in scopes[i] { return Some(scopes[i][name]); }
      }
      return None;
    }

    method Assign(name: string, v: Value) returns (found: bool)
      modifies this
      ensures found == Lookup(old(scopes), name).Some?
      ensures scopes == Rebind(old(scopes), name, v)
    {
      var i := |scopes|;
      assert scopes[..i] == scopes;
      while i > 0
        invariant i <= |scopes| && scopes == old(scopes)
        invariant Lookup(scopes, name) == Lookup(scopes[..i], name)
        invariant Rebind(scopes, name, v) == Rebind(scopes[..i], name, v) + scopes[i..]
      {
        i := i - 1;
        assert Pop(scopes[..i + 1]) == scopes[..i];
        assert [scopes[i]] + scopes[i + 1..] == scopes[i..];
        if name in scopes[i] {
          scopes := scopes[i := scopes[i][name := v]];
          assert scopes == (scopes[..i] + [scopes[i]]) + scopes[i + 1..];
          return true;
        }
      }
      assert scopes[0..] == scopes;
      return false;
    }
  }

  // ── One task ───────────────────────────────────────────────────────────────

  class Interpreter {
    const c: Context
    const env: Env
    var heap: Heap
    var next: nat
    var answers: seq<Answer>
    var callStack: seq<string>
    var backtrace: Option<seq<string>>
    var exposed: map<string, Value>
    var owned: seq<nat>
    var exclusive: bool

    constructor (c: Context, heap: Heap, next: nat, answers: seq<Answer>)
      ensures fresh(env) && this.c == c
      ensures Here() == State([map[]], World(heap, next, answers, [], None, map[], [], false))
    {
      this.c := c;
      env := new Env();
      this.heap, this.next, this.answers := heap, next, answers;
      callStack, backtrace, exposed, owned, exclusive := [], None, map[], [], false;
    }

    function Here(): State
      reads this, env
    {
      State(env.scopes, World(heap, next, answers, callStack, backtrace, exposed, owned, exclusive))
    }

    predicate Ready()
      reads this, env
    {
      env.scopes != []
    }

    /** The run so far gave this, and the chain is as deep as `depth` at least. */
    predicate Evaluated(r: Result, x: Ran, depth: nat)
      reads this, env
    {
      Ran(r, Here()) == x && (!r.Stopped? ==> depth <= |env.scopes|)
    }

    predicate Executed(flow: Flow, x: Went, depth: nat)
      reads this, env
    {
      Went(flow, Here()) == x && (!flow.Halted? ==> depth <= |env.scopes|)
    }

    // ── Effects ──────────────────────────────────────────────────────────────

    method AskOther() returns (r: Result)
      modifies this
      ensures Ran(r, Here()) == Ask(old(Here()))
    {
      if answers == [] { return Stopped(Waiting); }
      r := answers[0].result;
      heap, answers := answers[0].heap, answers[1..];
    }

    method Handle(k: HandleKind) returns (r: Result)
      modifies this
      ensures Ran(r, Here()) == NewHandle(k, old(Here()))
    {
      r := Done(HandleV(k, next));
      next := next + 1;
    }

    method MaybeSyncExpose(name: string, v: Value)
      modifies this
      ensures Here() == old(Here()).(w := SyncExpose(c, name, v, old(Here()).w))
    {
      if (name in c.exposed || name in c.exposedMutable) && c.hasThread {
        exposed := exposed[name := v];
        if v.HandleV? && v.handle in {Signal, Contract, Permit} && v.ref !in heap.claimed {
          heap := heap.(claimed := heap.claimed + {v.ref});
          owned := owned + [v.ref];
        }
      }
    }

    // ── Expressions ──────────────────────────────────────────────────────────

    method EvalExpr(fuel: nat, e: Expr) returns (r: Result)
      requires Ready()
      modifies this, env
      ensures Evaluated(r, Eval(c, e, old(Here()), CallAt(c, fuel)), |old(env.scopes)|)
      decreases fuel, 0, e, 2
    {
      match e {
        case Lit(l) => r := Done(LiteralValue(l));
        case Ident(name) => r := EvalIdent(name);
        case Binary(_, _, _) => r := EvalBinop(fuel, e);
        case Unary(op, x) =>
          r := EvalExpr(fuel, x);
          if r.Done? { r := UnaryOpOf(c, op, r.v); }
        case Call(f, args) => if f.Ident? { r := EvalCall(fuel, f.name, args); } else { r := Done(VoidV); }
        case MethodCall(_, _, _) => r := EvalMethodCall(fuel, e);
        case FieldAccess(o, name) =>
          r := EvalExpr(fuel, o);
          if r.Done? { r := EvalField(r.v, name); }
        case Index(_, _) => r := EvalIndex(fuel, e);
        case Await(x) =>
          r := EvalExpr(fuel, x);
          if r.Done? && Awaits(r.v) { r := AskOther(); }
        case Try(x) =>
          r := EvalExpr(fuel, x);
          if r.Done? {
            r := Done(OkV(r.v));
          } else if r.Failed? {
            r := Done(ErrV(ErrorV(r.e.kind, r.e.message)));
          }
        case Panic(m) =>
          r := EvalExpr(fuel, m);
          if r.Done? { r := Failed(RuntimeError("Panic", Show(r.v, c.host.showDouble))); }
        case Assert(_, _) => r := EvalAssert(fuel, e);
        case TypeCtor(name, _, args) => r := EvalTypeCtor(fuel, name, args);
      }
    }

    method EvalIdent(name: string) returns (r: Result)
      ensures r == IdentValue(c, name, Here())
    {
      if name == "self" && c.self.Some? { return Done(ObjectV(c.self.value)); }
      var v := env.Find(name);
      if v.Some? { return Done(v.value); }
      return Fail(c, if name == "self" then "Panic" else "UndefinedVariable");
    }

    method EvalBinop(fuel: nat, e: Expr) returns (r: Result)
      requires Ready() && e.Binary?
      modifies this, env
      ensures Evaluated(r, Eval(c, e, old(Here()), CallAt(c, fuel)), |old(env.scopes)|)
      decreases fuel, 0, e, 1
    {
      var lv := EvalExpr(fuel, e.left);
      if !lv.Done? { return lv; }
      if e.op == And && !Truthy(lv.v) { return Done(BoolV(false)); }
      if e.op == Or && Truthy(lv.v) { return Done(BoolV(true)); }
      var rv := EvalExpr(fuel, e.right);
      if !rv.Done? { return rv; }
      if e.op == And || e.op == Or { return Done(BoolV(Truthy(rv.v))); }
      return BinaryOp(c, e.op, lv.v, rv.v, heap.faults);
    }

    method EvalArguments(fuel: nat, es: seq<Expr>) returns (vs: seq<Value>, r: Result)
      requires Ready()
      modifies this, env
      ensures var x := EvalArgs(c, es, old(Here()), CallAt(c, fuel));
        if r.Done? then x == Args(vs, Here()) else x == NoArgs(r, Here())
      ensures !r.Stopped? ==> |old(env.scopes)| <= |env.scopes|
      decreases fuel, 0, es, 0
    {
      vs, r := [], Done(VoidV);
      ghost var goal := EvalArgs(c, es, Here(), CallAt(c, fuel));
      for i := 0 to |es|
        invariant r.Done? && |old(env.scopes)| <= |env.scopes|
        invariant var x := EvalArgs(c, es[i..], Here(), CallAt(c, fuel));
          goal == if x.Args? then Args(vs + x.vs, x.st) else x
      {
        assert es[i..][0] == es[i] && es[i..][1..] == es[i + 1..];
        r := EvalExpr(fuel, es[i]);
        if !r.Done? { return; }
        ghost var had := vs;
        vs := vs + [r.v];
        Regroup(had, r.v, EvalArgs(c, es[i + 1..], Here(), CallAt(c, fuel)));
      }
    }

    method EvalMethodCall(fuel: nat, e: Expr) returns (r: Result)
      requires Ready() && e.MethodCall?
      modifies this, env
      ensures Evaluated(r, Eval(c, e, old(Here()), CallAt(c, fuel)), |old(env.scopes)|)
      decreases fuel, 0, e, 1
    {
      r := EvalExpr(fuel, e.receiver);
      if !r.Done? { return; }
      var vs;
      vs, r := EvalArguments(fuel, e.args);
      if r.Done? { r := AskOther(); }
    }

    method EvalField(o: Value, name: string) returns (r: Result)
      modifies this
      ensures Ran(r, Here()) == FieldOf(c, o, name, old(Here()))
    {
      if o.HandleV? && o.handle == ThreadHandle {
        r := AskOther();
      } else if o.ObjectV? && name in ObjectAt(heap, o.ref) {
        r := Done(ObjectAt(heap, o.ref)[name]);
      } else if o.ErrorV? && name == "kind" {
        r := Done(StrV(o.kind));
      } else if o.ErrorV? && name == "message" {
        r := Done(StrV(o.message));
      } else {
        r := Fail(c, "Panic");
      }
    }

    method EvalIndex(fuel: nat, e: Expr) returns (r: Result)
      requires Ready() && e.Index?
      modifies this, env
      ensures Evaluated(r, Eval(c, e, old(Here()), CallAt(c, fuel)), |old(env.scopes)|)
      decreases fuel, 0, e, 1
    {
      var o := EvalExpr(fuel, e.object');
      if !o.Done? { return o; }
      var i := EvalExpr(fuel, e.index);
      if !i.Done? { return i; }
      return ElementOf(c, o.v, i.v, heap);
    }

    method EvalAssert(fuel: nat, e: Expr) returns (r: Result)
      requires Ready() && e.Assert?
      modifies this, env
      ensures Evaluated(r, Eval(c, e, old(Here()), CallAt(c, fuel)), |old(env.scopes)|)
      decreases fuel, 0, e, 1
    {
      r := EvalExpr(fuel, e.condition);
      if !r.Done? { return; }
      if Truthy(r.v) { return Done(VoidV); }
      if e.note.None? { return Failed(RuntimeError("AssertionFailed", "assertion failed")); }
      r := EvalExpr(fuel, e.note.value);
      if r.Done? { r := Failed(RuntimeError("AssertionFailed", Show(r.v, c.host.showDouble))); }
    }

    method EvalTypeCtor(fuel: nat, name: string, args: seq<Expr>) returns (r: Result)
      requires Ready()
      modifies this, env
      ensures var vs := EvalArgs(c, args, old(Here()), CallAt(c, fuel));
        Evaluated(r, if vs.Args? then Construct(c, name, vs.vs, vs.st) else Ran(vs.r, vs.st), |old(env.scopes)|)
      decreases fuel, 0, args, 1
    {
      var vs;
      vs, r := EvalArguments(fuel, args);
      if !r.Done? { return; }
      if name == "Ok" {
        r := Done(OkV(First(vs)));
      } else if name == "Err" {
        r := Done(ErrV(First(vs)));
      } else if name == "Some" {
        r := Done(SomeV(First(vs)));
      } else if name == "None" {
        r := Done(NoneV);
      } else if name == "List" {
        heap := heap.(lists := heap.lists[next := vs]);
        r := Done(ListV(next));
        next := next + 1;
      } else if name == "Map" {
        r := Done(MapV(next));
        next := next + 1;
      } else if name == "locked" {
        r := Handle(Locked);
      } else if name == "Queue" {
        r := Handle(Queue);
      } else {
        r := Fail(c, "Panic");
      }
    }

    // ── Calls ────────────────────────────────────────────────────────────────

    method EvalCall(fuel: nat, name: string, args: seq<Expr>) returns (r: Result)
      requires Ready()
      modifies this, env
      ensures Evaluated(r, Evaluator.EvalCall(c, name, args, old(Here()), CallAt(c, fuel)), |old(env.scopes)|)
      decreases fuel, 0, args, 2
    {
      if name in BUILTINS {
        r := EvalBuiltin(fuel, name, args);
        return;
      }
      if name !in c.funcs { return Fail(c, "Panic"); }
      var vs;
      vs, r := EvalArguments(fuel, args);
      if !r.Done? { return; }
      if c.funcs[name].kind == Async {
        r := Handle(Future);
      } else if fuel == 0 {
        r := Stopped(OutOfFuel);
      } else {
        r := CallFunc(fuel - 1, c.funcs[name], vs);
      }
    }

    method EvalBuiltin(fuel: nat, name: string, args: seq<Expr>) returns (r: Result)
      requires Ready() && name in BUILTINS
      modifies this, env
      ensures Evaluated(r, Evaluator.EvalBuiltin(c, name, args, old(Here()), CallAt(c, fuel)), |old(env.scopes)|)
      decreases fuel, 0, args, 1
    {
      if name == "print" || name == "println" {
        var vs;
        vs, r := EvalArguments(fuel, args);
        if r.Done? { r := Done(VoidV); }
      } else if name == "asleep" {
        r := Done(VoidV);
        if args != [] {
          r := EvalExpr(fuel, args[0]);
          if r.Done? { r := Done(VoidV); }
        }
      } else if name == "keepalive" {
        r := Stopped(Waiting);
      } else if name == "getchar" {
        r := AskOther();
      } else if name == "signal" {
        r := Handle(Signal);
      } else if name == "contract" {
        r := Handle(Contract);
      } else {
        if args != [] {
          r := EvalExpr(fuel, args[0]);
          if !r.Done? { return; }
          if !(r.v.IntV? && r.v.n >= 0) { return Fail(c, "Panic"); }
        }
        r := Handle(Permit);
      }
    }

    method CallFunc(fuel: nat, f: FuncDef, vs: seq<Value>) returns (r: Result)
      requires Ready()
      modifies this, env
      ensures Evaluated(r, Evaluator.CallFunc(c, fuel, f, vs, old(Here())), |old(env.scopes)|)
      decreases fuel, 4
    {
      callStack := callStack + [f.name];
      r := CallFuncInner(fuel, f, vs);
      if r.Stopped? { return; }
      if r.Failed? && backtrace.None? { backtrace := Some(callStack); }
      if callStack != [] { callStack := callStack[..|callStack| - 1]; }
    }

    method CallFuncInner(fuel: nat, f: FuncDef, vs: seq<Value>) returns (r: Result)
      requires Ready()
      modifies this, env
      ensures Evaluated(r, CallInner(c, fuel, f, vs, old(Here())), |old(env.scopes)|)
      decreases fuel, 3
    {
      if !Accepts(f, vs) { return Fail(c, "Panic"); }
      env.PushScope();
      ghost var pushed := env.scopes;
      for i := 0 to (if |f.params| < |vs| then |f.params| else |vs|)
        invariant Here() == old(Here()).(scopes := env.scopes) && |env.scopes| == |pushed|
        invariant DefineAll(env.scopes, f.params[i..], vs[i..]) == DefineAll(pushed, f.params, vs)
      {
        assert f.params[i..][1..] == f.params[i + 1..] && vs[i..][1..] == vs[i + 1..];
        env.Define(f.params[i].name, vs[i]);
      }
      assert Here() == EnterFunc(f, vs, old(Here()));
      var flow := ExecBlock(fuel, f.body);
      if !flow.Halted? { env.PopScope(); }
      r := FuncResult(flow);
    }

    // ── Statements ───────────────────────────────────────────────────────────

    method ExecStmt(fuel: nat, s: Stmt) returns (flow: Flow)
      requires Ready()
      modifies this, env
      ensures Executed(flow, Exec(c, fuel, s, old(Here())), |old(env.scopes)|)
      decreases fuel, 1, s, 3
    {
      match s {
        case Let(_, _, _) => flow := ExecLet(fuel, s);
        case Assign(target, value) =>
          var r := AssignTo(fuel, target, value);
          flow := AfterExpr(r);
        case If(i) => flow := ExecIf(fuel, i);
        case While(_, _) => flow := ExecWhile(fuel, s);
        case For(_, _, _, _) => flow := ExecFor(fuel, s);
        case Return(e) => flow := ExecReturn(fuel, e);
        case Break => flow := Gave(NeverV);
        case Continue => flow := Fell;
        case ExclusiveBlock(body) => flow := ExecExclusive(fuel, body);
        case ThreadSpawn(_, args, _, handle) =>
          var r := ExecThreadSpawn(fuel, args, handle);
          flow := AfterExpr(r);
        case ScopeBlock(scope, args, body) =>
          if fuel == 0 { return Halted(OutOfFuel); }
          flow := ExecScopeBlock(fuel - 1, scope, args, body);
        case ExprStmt(e) =>
          var r := EvalExpr(fuel, e);
          flow := AfterExpr(r);
      }
    }

    method ExecLet(fuel: nat, s: Stmt) returns (flow: Flow)
      requires Ready() && s.Let?
      modifies this, env
      ensures Executed(flow, Exec(c, fuel, s, old(Here())), |old(env.scopes)|)
      decreases fuel, 1, s, 0
    {
      var r := EvalExpr(fuel, s.init);
      if !r.Done? { return Broken(r); }
      MaybeSyncExpose(s.name, r.v);
      env.Define(s.name, r.v);
      return Fell;
    }

    method ExecReturn(fuel: nat, e: Option<Expr>) returns (flow: Flow)
      requires Ready()
      modifies this, env
      ensures Executed(flow, Exec(c, fuel, Return(e), old(Here())), |old(env.scopes)|)
      decreases fuel, 0, Return(e), 3
    {
      if e.None? { return Gave(VoidV); }
      var r := EvalExpr(fuel, e.value);
      return if r.Done? then Gave(r.v) else Broken(r);
    }

    method ExecExclusive(fuel: nat, body: Block) returns (flow: Flow)
      requires Ready()
      modifies this, env
      ensures Executed(flow, Exec(c, fuel, ExclusiveBlock(body), old(Here())), |old(env.scopes)|)
      decreases fuel, 1, body, 2
    {
      if c.hasThread { exclusive := true; }
      flow := ExecBlock(fuel, body);
      if flow.Halted? { return; }
      if c.hasThread { exclusive := false; }
    }

    /** The assignment to a name: the exposed copy first, then the variable. */
    method AssignName(name: string, v: Value) returns (r: Result)
      modifies this, env
      ensures Ran(r, Here()) == AssignVar(c, name, v, old(Here())) && |env.scopes| == |old(env.scopes)|
    {
      var existing := env.Find(name);
      if !MayAssign(existing, v) { return Fail(c, "Panic"); }
      MaybeSyncExpose(name, v);
      var found := env.Assign(name, v);
      return if found then Done(VoidV) else Fail(c, "UndefinedVariable");
    }

    method AssignMember(o: Value, name: string, v: Value) returns (r: Result)
      modifies this
      ensures Ran(r, Here()) == AssignField(c, o, name, v, old(Here()))
    {
      if o.ObjectV? {
        heap := heap.(objects := heap.objects[o.ref := ObjectAt(heap, o.ref)[name := v]]);
        MaybeSyncExpose(name, v);
        r := Done(VoidV);
      } else if o.HandleV? && o.handle == ThreadHandle {
        r := AskOther();
      } else {
        r := Fail(c, "Panic");
      }
    }

    method AssignAt(o: Value, i: Value, v: Value) returns (r: Result)
      modifies this
      ensures Ran(r, Here()) == AssignElement(c, o, i, v, old(Here()))
    {
      r := Done(VoidV);
      if o.ListV? && i.IntV? {
        var vs := ListAt(heap, o.ref);
        if 0 <= i.n < |vs| {
          heap := heap.(lists := heap.lists[o.ref := vs[i.n := v]]);
        } else {
          r := Fail(c, "IndexOutOfBounds");
        }
      }
    }

    method AssignTo(fuel: nat, target: AssignTarget, value: Expr) returns (r: Result)
      requires Ready()
      modifies this, env
      ensures Evaluated(r, Evaluator.AssignTo(c, target, value, old(Here()), CallAt(c, fuel)), |old(env.scopes)|)
      decreases fuel, 0, Assign(target, value), 3
    {
      r := EvalExpr(fuel, value);
      if !r.Done? { return; }
      var v := r.v;
      match target {
        case ToIdent(name) => r := AssignName(name, v);
        case ToField(o, name) =>
          r := EvalExpr(fuel, o);
          if r.Done? { r := AssignMember(r.v, name, v); }
        case ToIndex(o, i) =>
          r := EvalExpr(fuel, o);
          if !r.Done? { return; }
          var obj := r.v;
          r := EvalExpr(fuel, i);
          if r.Done? { r := AssignAt(obj, r.v, v); }
      }
    }

    /** The chain of `else if`s is walked in a loop. */
    method ExecIf(fuel: nat, i: IfStmt) returns (flow: Flow)
      requires Ready()
      modifies this, env
      ensures Executed(flow, Evaluator.ExecIf(c, fuel, i, old(Here())), |old(env.scopes)|)
      decreases fuel, 1, i, 1
    {
      var cur := i;
      ghost var goal := Evaluator.ExecIf(c, fuel, i, Here());
      while true
        invariant |old(env.scopes)| <= |env.scopes| && (cur == i || cur < i)
        invariant Evaluator.ExecIf(c, fuel, cur, Here()) == goal
        decreases cur
      {
        var cond := EvalExpr(fuel, cur.condition);
        if !cond.Done? { return Broken(cond); }
        if Truthy(cond.v) {
          flow := ExecBlock(fuel, cur.thenBlock);
          return;
        }
        match cur.elseBranch {
          case NoElse => return Fell;
          case Else(b) =>
            flow := ExecBlock(fuel, b);
            return;
          case ElseIf(following) => cur := following;
        }
      }
    }

    method ExecWhile(fuel: nat, s: Stmt) returns (flow: Flow)
      requires Ready() && s.While?
      modifies this, env
      ensures Executed(flow, Evaluator.ExecWhile(c, fuel, s, old(Here())), |old(env.scopes)|)
      decreases fuel, 1, s, 0
    {
      var left: nat := fuel;
      ghost var goal := Evaluator.ExecWhile(c, fuel, s, Here());
      while true
        invariant left <= fuel && |old(env.scopes)| <= |env.scopes|
        invariant Evaluator.ExecWhile(c, left, s, Here()) == goal
        decreases left
      {
        var cond := EvalExpr(left, s.condition);
        if !cond.Done? { return Broken(cond); }
        if !Truthy(cond.v) { return Fell; }
        flow := ExecBlock(left, s.body);
        if flow == Gave(NeverV) { return Fell; }
        if !flow.Fell? { return; }
        if left == 0 { return Halted(OutOfFuel); }
        left := left - 1;
      }
    }

    method ExecFor(fuel: nat, s: Stmt) returns (flow: Flow)
      requires Ready() && s.For?
      modifies this, env
      ensures Executed(flow, Exec(c, fuel, s, old(Here())), |old(env.scopes)|)
      decreases fuel, 1, s, 2
    {
      env.PushScope();
      if s.first.Some? {
        flow := ExecStmt(fuel, s.first.value);
        if flow.Threw? || flow.Halted? { return; }
      }
      flow := ExecTurns(fuel, s);
    }

    method ExecTurns(fuel: nat, s: Stmt) returns (flow: Flow)
      requires Ready() && s.For?
      modifies this, env
      ensures Executed(flow, Evaluator.ExecFor(c, fuel, s, old(Here())), |old(env.scopes)| - 1)
      decreases fuel, 1, s, 1
    {
      var left: nat := fuel;
      ghost var goal := Evaluator.ExecFor(c, fuel, s, Here());
      while true
        invariant left <= fuel && |old(env.scopes)| <= |env.scopes|
        invariant Evaluator.ExecFor(c, left, s, Here()) == goal
        decreases left
      {
        if s.test.Some? {
          var cond := EvalExpr(left, s.test.value);
          if !cond.Done? { return Broken(cond); }
          if !Truthy(cond.v) { break; }
        }
        assert ExecTurn(c, left, s, Here()) == goal;
        flow := ExecBlock(left, s.body);
        if flow == Gave(NeverV) { break; }
        if flow.Gave? {
          env.PopScope();
          return;
        }
        if !flow.Fell? { return; }
        assert ExecUpdate(c, left, s, Here()) == goal;
        if s.update.Some? {
          flow := ExecStmt(left, s.update.value);
          if flow.Threw? || flow.Halted? { return; }
        }
        if left == 0 { return Halted(OutOfFuel); }
        left := left - 1;
      }
      env.PopScope();
      return Fell;
    }

    method ExecBlock(fuel: nat, b: Block) returns (flow: Flow)
      requires Ready()
      modifies this, env
      ensures Executed(flow, Evaluator.ExecBlock(c, fuel, b, old(Here())), |old(env.scopes)|)
      decreases fuel, 1, b, 1
    {
      env.PushScope();
      flow := Fell;
      ghost var goal := ExecStmts(c, fuel, b.stmts, Here());
      for i := 0 to |b.stmts|
        invariant flow.Fell? && |old(env.scopes)| < |env.scopes|
        invariant ExecStmts(c, fuel, b.stmts[i..], Here()) == goal
      {
        assert b.stmts[i..][0] == b.stmts[i] && b.stmts[i..][1..] == b.stmts[i + 1..];
        flow := ExecStmt(fuel, b.stmts[i]);
        if flow.Gave? {
          env.PopScope();
          return;
        }
        if !flow.Fell? { return; }
      }
      env.PopScope();
    }

    method ExecThreadSpawn(fuel: nat, args: seq<Expr>, handle: HandleBind) returns (r: Result)
      requires Ready()
      modifies this, env
      ensures Evaluated(r, SpawnThread(c, args, handle, old(Here()), CallAt(c, fuel)), |old(env.scopes)|)
      decreases fuel, 0, args, 3
    {
      var vs;
      vs, r := EvalArguments(fuel, args);
      if !r.Done? { return; }
      r := AskOther();
      if r.Stopped? { return; }
      if handle.Bind? { env.Define(handle.name, HandleV(ThreadHandle, next)); }
      next := next + 1;
      r := Done(VoidV);
    }

    // ── Scope blocks ─────────────────────────────────────────────────────────

    method ExecScopeBlock(fuel: nat, scope: ScopeRef, args: seq<Expr>, body: Block) returns (flow: Flow)
      requires Ready()
      modifies this, env
      ensures Executed(flow, Evaluator.ExecScopeBlock(c, fuel, scope, args, body, old(Here())), |old(env.scopes)|)
      decreases fuel, 4
    {
      var decl := ScopeOf(c, scope);
      env.PushScope();
      if decl.None? {
        flow := ExecBlock(fuel, body);
        if !flow.Halted? { env.PopScope(); }
        return;
      }
      var d := decl.value;
      if |d.params| != |args| { return AfterExpr(Fail(c, "Panic")); }
      var vs, r := EvalArguments(fuel, args);
      if !r.Done? { return AfterExpr(r); }
      var o := BindParams(d.params, vs);
      o, r := EvalFields(fuel, d.members, o);
      if !r.Done? { return AfterExpr(r); }
      flow := ExecInScope(fuel, d, body, o);
    }

    method EvalFields(fuel: nat, ms: seq<ScopeMember>, o: map<string, Value>) returns (fields: map<string, Value>, r: Result)
      requires Ready()
      modifies this, env
      ensures InitFields(c, ms, o, old(Here()), CallAt(c, fuel)) == (r, fields, Here())
      ensures !r.Stopped? ==> |old(env.scopes)| <= |env.scopes|
      decreases fuel, 2
    {
      fields, r := o, Done(VoidV);
      ghost var goal := InitFields(c, ms, o, Here(), CallAt(c, fuel));
      for i := 0 to |ms|
        invariant |old(env.scopes)| <= |env.scopes|
        invariant InitFields(c, ms[i..], fields, Here(), CallAt(c, fuel)) == goal
      {
        assert ms[i..][0] == ms[i] && ms[i..][1..] == ms[i + 1..];
        if ms[i].ScopeDefine? {
          var v := DefaultValue(ms[i].d.ty);
          if ms[i].d.initializer.Some? {
            r := EvalExpr(fuel, ms[i].d.initializer.value);
            if !r.Done? { return; }
            v := r.v;
          }
          fields := fields[ms[i].d.name := v];
        }
      }
      r := Done(VoidV);
    }

    /** `collect_define_field_prims` */
    method CollectPrims(ms: seq<ScopeMember>, o: map<string, Value>) returns (prims: seq<nat>)
      ensures prims == FieldPrims(ms, o)
    {
      prims := [];
      for i := 0 to |ms|
        invariant prims + FieldPrims(ms[i..], o) == FieldPrims(ms, o)
      {
        assert ms[i..][0] == ms[i] && ms[i..][1..] == ms[i + 1..];
        if ms[i].ScopeDefine? && ms[i].d.name in o && IsPrim(o[ms[i].d.name]) {
          prims := prims + [o[ms[i].d.name].ref];
        }
      }
    }

    method BreakPrims(prims: seq<nat>, reason: string)
      modifies this
      ensures Here() == BreakAll(prims, reason, old(Here()))
    {
      var faults: map<nat, string> := heap.faults;
      for i := 0 to |prims|
        invariant BreakFaults(prims[i..], reason, faults) == BreakFaults(prims, reason, heap.faults)
      {
        assert prims[i..][0] == prims[i] && prims[i..][1..] == prims[i + 1..];
        if prims[i] !in faults { faults := faults[prims[i] := reason]; }
      }
      heap := heap.(faults := faults);
    }

    method ExecHook(fuel: nat, b: Option<Block>) returns (flow: Flow)
      requires Ready()
      modifies this, env
      ensures Executed(flow, Evaluator.ExecHook(c, fuel, b, old(Here())), |old(env.scopes)|)
      decreases fuel, 2
    {
      flow := Fell;
      if b.Some? { flow := ExecBlock(fuel, b.value); }
    }

    method ExecInScope(fuel: nat, d: ScopeDecl, body: Block, o: map<string, Value>) returns (flow: Flow)
      requires Ready()
      modifies this, env
      ensures Executed(flow, Evaluator.ExecInScope(c, fuel, d, body, o, old(Here())), |old(env.scopes)| - 1)
      decreases fuel, 3, 1
    {
      var self := next;
      heap := heap.(objects := heap.objects[self := o]);
      next := next + 1;
      env.Define("self", ObjectV(self));
      assert Here() == BindSelf(o, old(Here()));
      flow := ExecHook(fuel, Hook(d.members, true));
      if flow.Halted? { return; }
      var prims := CollectPrims(d.members, ObjectAt(heap, self));
      if flow.Threw? {
        BreakPrims(prims, SCOPE_CRASHED);
        env.PopScope();
        return;
      }
      flow := ExecScopeBody(fuel, d, body, prims);
    }

    method ExecScopeBody(fuel: nat, d: ScopeDecl, body: Block, prims: seq<nat>) returns (flow: Flow)
      requires Ready()
      modifies this, env
      ensures Executed(flow, Evaluator.ExecScopeBody(c, fuel, d, body, prims, old(Here())), |old(env.scopes)| - 1)
      decreases fuel, 3, 0
    {
      flow := ExecBlock(fuel, body);
      if flow.Halted? { return; }
      var exit := ExecHook(fuel, Hook(d.members, false));
      if exit.Halted? { return exit; }
      BreakPrims(prims, if flow.Threw? then SCOPE_CRASHED else SCOPE_GONE);
      env.PopScope();
      if !flow.Threw? && exit.Threw? { flow := exit; }
    }
  }

  lemma Regroup(had: seq<Value>, v: Value, more: RanArgs)
    ensures more.Args? ==> had + ([v] + more.vs) == (had + [v]) + more.vs
  {
  }
}
