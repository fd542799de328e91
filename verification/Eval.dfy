/** What the evaluator does (crates/tessera-interp/src/eval.rs), as functions of the state of one
    task that runs without interleaving. Statements are bounded by fuel, which every loop turn, scope
    block and call consumes; a run that ends is the run of every large enough fuel. */
module Evaluator {
  import opened Options
  import opened Ast
  import opened Values

  /** The parts of a task that do not change while it runs. Formatting and dividing doubles and the
      wording of errors belong to the host. */
  datatype Host = Host(showDouble: real -> string, divide: (real, real) -> real, wording: string -> string)

  datatype Context = Context(
    funcs: map<string, FuncDef>,
    scopes: map<string, ScopeDecl>,
    self: Option<nat>,
    exposed: set<string>,
    exposedMutable: set<string>,
    hasThread: bool,
    host: Host)

  /** How a function is called; expressions are evaluated under any such operation. */
  type Call = (FuncDef, seq<Value>, State) -> Ran

  /** The values of a list of arguments, or why there are none. */
  datatype RanArgs = Args(vs: seq<Value>, st: State) | NoArgs(r: Result, st: State)

  function Fail(c: Context, kind: string): Result {
    Failed(RuntimeError(kind, c.host.wording(kind)))
  }

  // ── Effects on the world ───────────────────────────────────────────────────

  /** An operation that leaves the task: the next answer says what comes back. */
  function Ask(st: State): Ran {
    if st.w.answers == [] then Ran(Stopped(Waiting), st)
    else
      var a := st.w.answers[0];
      Ran(a.result, st.(w := st.w.(answers := st.w.answers[1..], heap := a.heap)))
  }

  function NewHandle(k: HandleKind, st: State): Ran {
    Ran(Done(HandleV(k, st.w.next)), st.(w := st.w.(next := st.w.next + 1)))
  }

  function NewList(vs: seq<Value>, st: State): Ran {
    var h := st.w.heap.(lists := st.w.heap.lists[st.w.next := vs]);
    Ran(Done(ListV(st.w.next)), st.(w := st.w.(heap := h, next := st.w.next + 1)))
  }

  function ObjectAt(h: Heap, ref: nat): map<string, Value> {
    if ref in h.objects then h.objects[ref] else map[]
  }

  function ListAt(h: Heap, ref: nat): seq<Value> {
    if ref in h.lists then h.lists[ref] else []
  }

  function SetObject(st: State, ref: nat, o: map<string, Value>): State {
    st.(w := st.w.(heap := st.w.heap.(objects := st.w.heap.objects[ref := o])))
  }

  function SetList(st: State, ref: nat, vs: seq<Value>): State {
    st.(w := st.w.(heap := st.w.heap.(lists := st.w.heap.lists[ref := vs])))
  }

  /** `maybe_sync_expose`: publish the value of an exposed field, and own the primitive in it if no
      thread does. */
  function SyncExpose(c: Context, name: string, v: Value, w: World): World {
    if !(name in c.exposed || name in c.exposedMutable) || !c.hasThread then w
    else
      var published := w.(exposed := w.exposed[name := v]);
      if v.HandleV? && v.handle in {Signal, Contract, Permit} && v.ref !in w.heap.claimed then
        published.(heap := w.heap.(claimed := w.heap.claimed + {v.ref}), owned := w.owned + [v.ref])
      else published
  }

  function DefineVar(c: Context, name: string, v: Value, st: State): State {
    State(DefineIn(st.scopes, name, v), SyncExpose(c, name, v, st.w))
  }

  function SetExclusive(c: Context, on: bool, st: State): State {
    if c.hasThread then st.(w := st.w.(exclusive := on)) else st
  }

  // ── Operators ──────────────────────────────────────────────────────────────

  function IntOp(c: Context, op: BinOp, a: int, b: int): Result {
    match op
    case Add => Done(IntV(Wrap(a + b)))
    case Sub => Done(IntV(Wrap(a - b)))
    case Mul => Done(IntV(Wrap(a * b)))
    case Div =>
      if b == 0 then Fail(c, "DivisionByZero")
      else if a == INT_MIN && b == -1 then Stopped(HostPanic)
      else Done(IntV(Quotient(a, b)))
    case Rem =>
      if b == 0 then Fail(c, "DivisionByZero")
      else if a == INT_MIN && b == -1 then Stopped(HostPanic)
      else Done(IntV(Remainder(a, b)))
    case OpLt => Done(BoolV(a < b))
    case Le => Done(BoolV(a <= b))
    case OpGt => Done(BoolV(a > b))
    case Ge => Done(BoolV(a >= b))
    case _ => Fail(c, "TypeMismatch")
  }

  function DoubleOp(c: Context, op: BinOp, a: real, b: real): Result {
    match op
    case Add => Done(DoubleV(a + b))
    case Sub => Done(DoubleV(a - b))
    case Mul => Done(DoubleV(a * b))
    case Div => Done(DoubleV(c.host.divide(a, b)))
    case OpLt => Done(BoolV(a < b))
    case Le => Done(BoolV(a <= b))
    case OpGt => Done(BoolV(a > b))
    case Ge => Done(BoolV(a >= b))
    case _ => Fail(c, "TypeMismatch")
  }

  /** Every operator but `&&` and `||`, on two values. */
  function BinaryOp(c: Context, op: BinOp, a: Value, b: Value, faults: map<nat, string>): Result {
    if op == OpEq then Done(BoolV(ValuesEqual(a, b, faults)))
    else if op == Ne then Done(BoolV(!ValuesEqual(a, b, faults)))
    else if a.IntV? && b.IntV? then IntOp(c, op, a.n, b.n)
    else if a.DoubleV? && b.DoubleV? then DoubleOp(c, op, a.d, b.d)
    else if op == Add && a.StrV? then Done(StrV(a.s + Show(b, c.host.showDouble)))
    else if op == Add && b.StrV? then Done(StrV(Show(a, c.host.showDouble) + b.s))
    else Fail(c, "TypeMismatch")
  }

  /** The operator's value, once its left operand has one and the right one was evaluated. */
  function Operate(c: Context, op: BinOp, left: Value, right: Ran): Ran {
    if !right.r.Done? then right
    else if op == And || op == Or then Ran(Done(BoolV(Truthy(right.r.v))), right.st)
    else Ran(BinaryOp(c, op, left, right.r.v, right.st.w.heap.faults), right.st)
  }

  function UnaryOpOf(c: Context, op: UnaryOp, v: Value): Result {
    match op
    case Neg =>
      if v.IntV? then Done(IntV(Wrap(-v.n)))
      else if v.DoubleV? then Done(DoubleV(-v.d))
      else Fail(c, "TypeMismatch")
    case Not => if v.BoolV? then Done(BoolV(!v.b)) else Fail(c, "TypeMismatch")
  }

  // ── Expressions ────────────────────────────────────────────────────────────

  function Eval(c: Context, e: Expr, st: State, call: Call): Ran
    decreases e, 0
  {
    match e
    case Lit(l) => Ran(Done(LiteralValue(l)), st)
    case Ident(name) => Ran(IdentValue(c, name, st), st)
    case Binary(op, l, r) =>
      var a := Eval(c, l, st, call);
      if !a.r.Done? then a
      else if op == And && !Truthy(a.r.v) then Ran(Done(BoolV(false)), a.st)
      else if op == Or && Truthy(a.r.v) then Ran(Done(BoolV(true)), a.st)
      else
        Operate(c, op, a.r.v, Eval(c, r, a.st, call))
    case Unary(op, x) =>
      var a := Eval(c, x, st, call);
      if a.r.Done? then Ran(UnaryOpOf(c, op, a.r.v), a.st) else a
    case Call(f, args) => if f.Ident? then EvalCall(c, f.name, args, st, call) else Ran(Done(VoidV), st)
    case MethodCall(o, _, args) =>
      var a := Eval(c, o, st, call);
      if !a.r.Done? then a
      else
        var vs := EvalArgs(c, args, a.st, call);
        if vs.Args? then Ask(vs.st) else Ran(vs.r, vs.st)
    case FieldAccess(o, name) =>
      var a := Eval(c, o, st, call);
      if a.r.Done? then FieldOf(c, a.r.v, name, a.st) else a
    case Index(o, i) =>
      var a := Eval(c, o, st, call);
      if !a.r.Done? then a
      else
        var b := Eval(c, i, a.st, call);
        if b.r.Done? then Ran(ElementOf(c, a.r.v, b.r.v, b.st.w.heap), b.st) else b
    case Await(x) =>
      var a := Eval(c, x, st, call);
      if a.r.Done? && Awaits(a.r.v) then Ask(a.st) else a
    case Try(x) =>
      var a := Eval(c, x, st, call);
      if a.r.Done? then Ran(Done(OkV(a.r.v)), a.st)
      else if a.r.Failed? then Ran(Done(ErrV(ErrorV(a.r.e.kind, a.r.e.message))), a.st)
      else a
    case Panic(m) =>
      var a := Eval(c, m, st, call);
      if a.r.Done? then Ran(Failed(RuntimeError("Panic", Show(a.r.v, c.host.showDouble))), a.st) else a
    case Assert(x, note) =>
      var a := Eval(c, x, st, call);
      if !a.r.Done? then a
      else if Truthy(a.r.v) then Ran(Done(VoidV), a.st)
      else if note.None? then Ran(Failed(RuntimeError("AssertionFailed", "assertion failed")), a.st)
      else
        var b := Eval(c, note.value, a.st, call);
        if b.r.Done? then Ran(Failed(RuntimeError("AssertionFailed", Show(b.r.v, c.host.showDouble))), b.st) else b
    case TypeCtor(name, _, args) =>
      var vs := EvalArgs(c, args, st, call);
      if vs.Args? then Construct(c, name, vs.vs, vs.st) else Ran(vs.r, vs.st)
  }

  /** Left to right; the first that gives no value ends the evaluation. */
  function EvalArgs(c: Context, es: seq<Expr>, st: State, call: Call): RanArgs
    decreases es, 0
  {
    if es == [] then Args([], st)
    else
      var a := Eval(c, es[0], st, call);
      if !a.r.Done? then NoArgs(a.r, a.st)
      else
        var more := EvalArgs(c, es[1..], a.st, call);
        if more.Args? then more.(vs := [a.r.v] + more.vs) else more
  }

  function IdentValue(c: Context, name: string, st: State): Result {
    if name == "self" && c.self.Some? then Done(ObjectV(c.self.value))
    else if Lookup(st.scopes, name).Some? then Done(Lookup(st.scopes, name).value)
    else Fail(c, if name == "self" then "Panic" else "UndefinedVariable")
  }

  predicate Awaits(v: Value) {
    v.HandleV? && v.handle in {Future, HandlerFuture, Signal, Contract, Permit}
  }

  function FieldOf(c: Context, o: Value, name: string, st: State): Ran {
    if o.HandleV? && o.handle == ThreadHandle then Ask(st)
    else if o.ObjectV? && name in ObjectAt(st.w.heap, o.ref) then Ran(Done(ObjectAt(st.w.heap, o.ref)[name]), st)
    else if o.ErrorV? && name == "kind" then Ran(Done(StrV(o.kind)), st)
    else if o.ErrorV? && name == "message" then Ran(Done(StrV(o.message)), st)
    else Ran(Fail(c, "Panic"), st)
  }

  function ElementOf(c: Context, o: Value, i: Value, h: Heap): Result {
    if o.ListV? && i.IntV? then
      var vs := ListAt(h, o.ref);
      if 0 <= i.n < |vs| then Done(vs[i.n]) else Fail(c, "IndexOutOfBounds")
    else if o.StrV? && i.IntV? then
      if 0 <= i.n < |o.s| then Done(CharV(o.s[i.n])) else Fail(c, "IndexOutOfBounds")
    else Fail(c, "Panic")
  }

  function First(vs: seq<Value>): Value {
    if vs == [] then VoidV else vs[0]
  }

  function Construct(c: Context, name: string, vs: seq<Value>, st: State): Ran {
    if name == "Ok" then Ran(Done(OkV(First(vs))), st)
    else if name == "Err" then Ran(Done(ErrV(First(vs))), st)
    else if name == "Some" then Ran(Done(SomeV(First(vs))), st)
    else if name == "None" then Ran(Done(NoneV), st)
    else if name == "List" then NewList(vs, st)
    else if name == "Map" then Ran(Done(MapV(st.w.next)), st.(w := st.w.(next := st.w.next + 1)))
    else if name == "locked" then NewHandle(Locked, st)
    else if name == "Queue" then NewHandle(Queue, st)
    else Ran(Fail(c, "Panic"), st)
  }

  const BUILTINS := {"print", "println", "asleep", "keepalive", "getchar", "signal", "contract", "permit"}

  function EvalCall(c: Context, name: string, args: seq<Expr>, st: State, call: Call): Ran
    decreases args, 2
  {
    if name in BUILTINS then EvalBuiltin(c, name, args, st, call)
    else if name !in c.funcs then Ran(Fail(c, "Panic"), st)
    else
      var vs := EvalArgs(c, args, st, call);
      if vs.NoArgs? then Ran(vs.r, vs.st)
      else if c.funcs[name].kind == Async then NewHandle(Future, vs.st)
      else call(c.funcs[name], vs.vs, vs.st)
  }

  /** `asleep` and `permit` look at their first argument only, and some builtins at none. */
  function EvalBuiltin(c: Context, name: string, args: seq<Expr>, st: State, call: Call): Ran
    decreases args, 1
  {
    if name == "print" || name == "println" then
      var vs := EvalArgs(c, args, st, call);
      if vs.Args? then Ran(Done(VoidV), vs.st) else Ran(vs.r, vs.st)
    else if name == "asleep" then
      if args == [] then Ran(Done(VoidV), st)
      else
        var a := Eval(c, args[0], st, call);
        if a.r.Done? then Ran(Done(VoidV), a.st) else a
    else if name == "keepalive" then Ran(Stopped(Waiting), st)
    else if name == "getchar" then Ask(st)
    else if name == "signal" then NewHandle(Signal, st)
    else if name == "contract" then NewHandle(Contract, st)
    else if args == [] then NewHandle(Permit, st)
    else
      var a := Eval(c, args[0], st, call);
      if !a.r.Done? then a
      else if a.r.v.IntV? && a.r.v.n >= 0 then NewHandle(Permit, a.st)
      else Ran(Fail(c, "Panic"), a.st)
  }

  // ── Assignment ─────────────────────────────────────────────────────────────

  /** The new value has the old one's type, unless that is void. */
  predicate MayAssign(old': Option<Value>, v: Value) {
    old'.Some? ==> TypeName(old'.value) == "void" || TypeName(old'.value) == TypeName(v)
  }

  /** The exposed copy is updated before an unknown name is noticed. */
  function AssignVar(c: Context, name: string, v: Value, st: State): Ran {
    if !MayAssign(Lookup(st.scopes, name), v) then Ran(Fail(c, "Panic"), st)
    else
      var st1 := State(Rebind(st.scopes, name, v), SyncExpose(c, name, v, st.w));
      Ran(if Lookup(st.scopes, name).Some? then Done(VoidV) else Fail(c, "UndefinedVariable"), st1)
  }

  /** On a thread handle nothing is written; the other side only says whether the field is mutable. */
  function AssignField(c: Context, o: Value, name: string, v: Value, st: State): Ran {
    if o.ObjectV? then
      var st1 := SetObject(st, o.ref, ObjectAt(st.w.heap, o.ref)[name := v]);
      Ran(Done(VoidV), st1.(w := SyncExpose(c, name, v, st1.w)))
    else if o.HandleV? && o.handle == ThreadHandle then Ask(st)
    else Ran(Fail(c, "Panic"), st)
  }

  /** Anything but a list indexed by an integer is ignored. */
  function AssignElement(c: Context, o: Value, i: Value, v: Value, st: State): Ran {
    if !(o.ListV? && i.IntV?) then Ran(Done(VoidV), st)
    else
      var vs := ListAt(st.w.heap, o.ref);
      if 0 <= i.n < |vs| then Ran(Done(VoidV), SetList(st, o.ref, vs[i.n := v])) else Ran(Fail(c, "IndexOutOfBounds"), st)
  }

  /** The value is evaluated before the target. */
  function AssignTo(c: Context, target: AssignTarget, value: Expr, st: State, call: Call): Ran {
    var a := Eval(c, value, st, call);
    if !a.r.Done? then a
    else
      match target
      case ToIdent(name) => AssignVar(c, name, a.r.v, a.st)
      case ToField(o, name) =>
        var b := Eval(c, o, a.st, call);
        if b.r.Done? then AssignField(c, b.r.v, name, a.r.v, b.st) else b
      case ToIndex(o, i) =>
        var b := Eval(c, o, a.st, call);
        if !b.r.Done? then b
        else
          var d := Eval(c, i, b.st, call);
          if d.r.Done? then AssignElement(c, b.r.v, d.r.v, a.r.v, d.st) else d
  }

  /** A thread is spawned elsewhere; here its arguments are evaluated, its `__on_enter__` is awaited
      and its handle is bound. */
  function SpawnThread(c: Context, args: seq<Expr>, handle: HandleBind, st: State, call: Call): Ran {
    var vs := EvalArgs(c, args, st, call);
    if vs.NoArgs? then Ran(vs.r, vs.st)
    else
      var ready := Ask(vs.st);
      if ready.r.Stopped? then ready
      else
        var st1 := ready.st;
        var st2 := st1.(w := st1.w.(next := st1.w.next + 1));
        Ran(Done(VoidV), if handle.Bind? then st2.(scopes := DefineIn(st2.scopes, handle.name, HandleV(ThreadHandle, st1.w.next))) else st2)
  }

  // ── Scope templates ────────────────────────────────────────────────────────

  function ScopeOf(c: Context, r: ScopeRef): Option<ScopeDecl> {
    match r
    case AnonymousScope(d) => Some(d)
    case NamedScope(name) => if name in c.scopes then Some(c.scopes[name]) else None
  }

  /** `find_scope_hook`: the first member of its kind. */
  function Hook(ms: seq<ScopeMember>, enter: bool): Option<Block> {
    if ms == [] then None
    else if enter && ms[0].ScopeOnEnter? then Some(ms[0].f.body)
    else if !enter && ms[0].ScopeOnExit? then Some(ms[0].f.body)
    else Hook(ms[1..], enter)
  }

  function BindParams(ps: seq<Param>, vs: seq<Value>): map<string, Value>
    decreases |ps|
  {
    if ps == [] || vs == [] then map[] else map[ps[0].name := vs[0]] + BindParams(ps[1..], vs[1..])
  }

  /** `define` fields, in order, each initializer evaluated or defaulted. */
  function InitFields(c: Context, ms: seq<ScopeMember>, o: map<string, Value>, st: State, call: Call): (Result, map<string, Value>, State)
    decreases |ms|
  {
    if ms == [] then (Done(VoidV), o, st)
    else if !ms[0].ScopeDefine? then InitFields(c, ms[1..], o, st, call)
    else
      var d := ms[0].d;
      if d.initializer.None? then InitFields(c, ms[1..], o[d.name := DefaultValue(d.ty)], st, call)
      else
        var a := Eval(c, d.initializer.value, st, call);
        if a.r.Done? then InitFields(c, ms[1..], o[d.name := a.r.v], a.st, call) else (a.r, o, a.st)
  }

  /** The primitives in the `define` fields of an object. */
  function FieldPrims(ms: seq<ScopeMember>, o: map<string, Value>): seq<nat>
    decreases |ms|
  {
    if ms == [] then []
    else if ms[0].ScopeDefine? && ms[0].d.name in o && IsPrim(o[ms[0].d.name]) then
      [o[ms[0].d.name].ref] + FieldPrims(ms[1..], o)
    else FieldPrims(ms[1..], o)
  }

  predicate IsPrim(v: Value) {
    v.HandleV? && v.handle in {Signal, Contract, Permit}
  }

  /** Breaking a broken primitive changes nothing: the first reason stays. */
  function BreakAll(prims: seq<nat>, reason: string, st: State): State {
    st.(w := st.w.(heap := st.w.heap.(faults := BreakFaults(prims, reason, st.w.heap.faults))))
  }

  function BreakFaults(prims: seq<nat>, reason: string, faults: map<nat, string>): map<nat, string> {
    if prims == [] then faults
    else BreakFaults(prims[1..], reason, if prims[0] in faults then faults else faults[prims[0] := reason])
  }

  const SCOPE_GONE := "ScopeGone"
  const SCOPE_CRASHED := "ScopeCrashed"

  // ── Calls ──────────────────────────────────────────────────────────────────

  function Required(ps: seq<Param>): nat {
    if ps == [] then 0 else (if ps[0].default.None? then 1 else 0) + Required(ps[1..])
  }

  predicate ArgsMatch(ps: seq<Param>, vs: seq<Value>)
    decreases |ps|
  {
    ps == [] || vs == [] || (TypeMatches(ps[0].ty, vs[0]) && ArgsMatch(ps[1..], vs[1..]))
  }

  predicate Accepts(f: FuncDef, vs: seq<Value>) {
    Required(f.params) <= |vs| <= |f.params| && ArgsMatch(f.params, vs)
  }

  /** The scopes and frames a body starts in. */
  function EnterFunc(f: FuncDef, vs: seq<Value>, st: State): State {
    State(DefineAll(Push(st.scopes), f.params, vs), st.w)
  }

  function PushFrame(f: FuncDef, st: State): State {
    st.(w := st.w.(frames := st.w.frames + [f.name]))
  }

  /** On an error the first snapshot of the frames is kept; the frame goes in any case. */
  function LeaveFrame(r: Result, st: State): State {
    var fs := st.w.frames;
    var w := if r.Failed? && st.w.backtrace.None? then st.w.(backtrace := Some(fs)) else st.w;
    st.(w := w.(frames := if fs == [] then [] else fs[..|fs| - 1]))
  }

  function PopScope(st: State): State {
    st.(scopes := Pop(st.scopes))
  }

  function PushScope(st: State): State {
    st.(scopes := Push(st.scopes))
  }

  // ── Statements ─────────────────────────────────────────────────────────────

  /** What a statement gives: nothing, a value (of a `return`, or `Never` for a `break`), or neither. */
  datatype Flow = Fell | Gave(v: Value) | Threw(e: RuntimeError) | Halted(why: StopReason)

  datatype Went = Went(flow: Flow, st: State)

  function AfterExpr(r: Result): Flow {
    match r
    case Done(_) => Fell
    case Failed(e) => Threw(e)
    case Stopped(why) => Halted(why)
  }

  /** The flow of an expression that gave no value. */
  function Broken(r: Result): Flow
    requires !r.Done?
  {
    AfterExpr(r)
  }

  function FuncResult(flow: Flow): Result {
    match flow
    case Fell => Done(VoidV)
    case Gave(v) => Done(v)
    case Threw(e) => Failed(e)
    case Halted(why) => Stopped(why)
  }

  function Exec(c: Context, fuel: nat, s: Stmt, st: State): Went
    decreases fuel, 1, s, 3
  {
    match s
    case Let(name, _, init) =>
      var a := Eval(c, init, st, CallAt(c, fuel));
      if a.r.Done? then Went(Fell, DefineVar(c, name, a.r.v, a.st)) else Went(Broken(a.r), a.st)
    case Assign(target, value) =>
      var a := AssignTo(c, target, value, st, CallAt(c, fuel));
      Went(AfterExpr(a.r), a.st)
    case If(i) => ExecIf(c, fuel, i, st)
    case While(_, _) => ExecWhile(c, fuel, s, st)
    case For(first, _, _, _) =>
      var init := if first.Some? then Exec(c, fuel, first.value, PushScope(st)) else Went(Fell, PushScope(st));
      if init.flow.Threw? || init.flow.Halted? then init
      else ExecFor(c, fuel, s, init.st)
    case Return(None) => Went(Gave(VoidV), st)
    case Return(Some(e)) =>
      var a := Eval(c, e, st, CallAt(c, fuel));
      if a.r.Done? then Went(Gave(a.r.v), a.st) else Went(Broken(a.r), a.st)
    case Break => Went(Gave(NeverV), st)
    case Continue => Went(Fell, st)
    case ExclusiveBlock(body) =>
      var b := ExecBlock(c, fuel, body, SetExclusive(c, true, st));
      if b.flow.Halted? then b else Went(b.flow, SetExclusive(c, false, b.st))
    case ThreadSpawn(_, args, _, handle) =>
      var a := SpawnThread(c, args, handle, st, CallAt(c, fuel));
      Went(AfterExpr(a.r), a.st)
    case ScopeBlock(scope, args, body) =>
      if fuel == 0 then Went(Halted(OutOfFuel), st) else ExecScopeBlock(c, fuel - 1, scope, args, body, st)
    case ExprStmt(e) =>
      var a := Eval(c, e, st, CallAt(c, fuel));
      Went(AfterExpr(a.r), a.st)
  }

  function ExecIf(c: Context, fuel: nat, i: IfStmt, st: State): Went
    decreases fuel, 1, i, 1
  {
    var cond := Eval(c, i.condition, st, CallAt(c, fuel));
    if !cond.r.Done? then Went(Broken(cond.r), cond.st)
    else if Truthy(cond.r.v) then ExecBlock(c, fuel, i.thenBlock, cond.st)
    else
      match i.elseBranch
      case NoElse => Went(Fell, cond.st)
      case Else(b) => ExecBlock(c, fuel, b, cond.st)
      case ElseIf(next) => ExecIf(c, fuel, next, cond.st)
  }

  function ExecWhile(c: Context, fuel: nat, s: Stmt, st: State): Went
    requires s.While?
    decreases fuel, 1, s, 1
  {
    var a := Eval(c, s.condition, st, CallAt(c, fuel));
    if !a.r.Done? then Went(Broken(a.r), a.st)
    else if !Truthy(a.r.v) then Went(Fell, a.st)
    else ExecRound(c, fuel, s, a.st)
  }

  /** The body of a `while`, and then the turns that follow. */
  function ExecRound(c: Context, fuel: nat, s: Stmt, st: State): Went
    requires s.While?
    decreases fuel, 1, s, 0
  {
    var b := ExecBlock(c, fuel, s.body, st);
    if b.flow == Gave(NeverV) then Went(Fell, b.st)
    else if !b.flow.Fell? then b
    else if fuel == 0 then Went(Halted(OutOfFuel), b.st)
    else ExecWhile(c, fuel - 1, s, b.st)
  }

  /** The loop of a `for`, whose scope is popped at every exit but an error. */
  function ExecFor(c: Context, fuel: nat, s: Stmt, st: State): Went
    requires s.For?
    decreases fuel, 1, s, 2
  {
    var a := ForTest(c, s, st, CallAt(c, fuel));
    if !a.r.Done? then Went(Broken(a.r), a.st)
    else if !Truthy(a.r.v) then Went(Fell, PopScope(a.st))
    else ExecTurn(c, fuel, s, a.st)
  }

  /** An absent condition holds. */
  function ForTest(c: Context, s: Stmt, st: State, call: Call): Ran
    requires s.For?
  {
    if s.test.Some? then Eval(c, s.test.value, st, call) else Ran(Done(BoolV(true)), st)
  }

  function ExecTurn(c: Context, fuel: nat, s: Stmt, st: State): Went
    requires s.For?
    decreases fuel, 1, s, 1
  {
    var b := ExecBlock(c, fuel, s.body, st);
    if b.flow == Gave(NeverV) then Went(Fell, PopScope(b.st))
    else if b.flow.Gave? then Went(b.flow, PopScope(b.st))
    else if !b.flow.Fell? then b
    else ExecUpdate(c, fuel, s, b.st)
  }

  /** The end of a turn: the update, whose value is dropped, and then the turns that follow. */
  function ExecUpdate(c: Context, fuel: nat, s: Stmt, st: State): Went
    requires s.For?
    decreases fuel, 1, s, 0
  {
    var u := if s.update.Some? then Exec(c, fuel, s.update.value, st) else Went(Fell, st);
    if u.flow.Threw? || u.flow.Halted? then u
    else if fuel == 0 then Went(Halted(OutOfFuel), u.st)
    else ExecFor(c, fuel - 1, s, u.st)
  }

  /** On an error the scope stays. */
  function ExecBlock(c: Context, fuel: nat, b: Block, st: State): Went
    decreases fuel, 1, b, 1
  {
    var a := ExecStmts(c, fuel, b.stmts, PushScope(st));
    if a.flow.Fell? || a.flow.Gave? then Went(a.flow, PopScope(a.st)) else a
  }

  function ExecStmts(c: Context, fuel: nat, ss: seq<Stmt>, st: State): Went
    decreases fuel, 1, ss, 1
  {
    if ss == [] then Went(Fell, st)
    else
      var a := Exec(c, fuel, ss[0], st);
      if a.flow.Fell? then ExecStmts(c, fuel, ss[1..], a.st) else a
  }

  function ExecHook(c: Context, fuel: nat, b: Option<Block>, st: State): Went
    decreases fuel, 2, 0
  {
    if b.None? then Went(Fell, st) else ExecBlock(c, fuel, b.value, st)
  }

  function ExecScopeBlock(c: Context, fuel: nat, scope: ScopeRef, args: seq<Expr>, body: Block, st: State): Went
    decreases fuel, 4
  {
    var decl := ScopeOf(c, scope);
    var st0 := PushScope(st);
    if decl.None? then
      var b := ExecBlock(c, fuel, body, st0);
      if b.flow.Halted? then b else Went(b.flow, PopScope(b.st))
    else if |decl.value.params| != |args| then Went(AfterExpr(Fail(c, "Panic")), st0)
    else
      var vs := EvalArgs(c, args, st0, CallAt(c, fuel));
      if vs.NoArgs? then Went(AfterExpr(vs.r), vs.st) else ExecWithArgs(c, fuel, decl.value, vs.vs, body, vs.st)
  }

  /** The parameters and `define` fields become the scope's object. */
  function ExecWithArgs(c: Context, fuel: nat, d: ScopeDecl, vs: seq<Value>, body: Block, st: State): Went
    decreases fuel, 3, 1
  {
    var fields := InitFields(c, d.members, BindParams(d.params, vs), st, CallAt(c, fuel));
    if !fields.0.Done? then Went(AfterExpr(fields.0), fields.2) else ExecInScope(c, fuel, d, body, fields.1, fields.2)
  }

  /** The object bound to `self`, as the scope block makes it. */
  function BindSelf(o: map<string, Value>, st: State): State {
    var st1 := SetObject(st, st.w.next, o);
    State(DefineIn(st1.scopes, "self", ObjectV(st.w.next)), st1.w.(next := st.w.next + 1))
  }

  /** `__on_enter__`, the body and `__on_exit__`; then the scope's primitives are broken. The body's
      error comes before the exit hook's, and what the hooks give is dropped. */
  function ExecInScope(c: Context, fuel: nat, d: ScopeDecl, body: Block, o: map<string, Value>, st: State): Went
    decreases fuel, 3, 0
  {
    var self := st.w.next;
    var enter := ExecHook(c, fuel, Hook(d.members, true), BindSelf(o, st));
    if enter.flow.Halted? then enter
    else
      var prims := FieldPrims(d.members, ObjectAt(enter.st.w.heap, self));
      if enter.flow.Threw? then Went(enter.flow, PopScope(BreakAll(prims, SCOPE_CRASHED, enter.st)))
      else ExecScopeBody(c, fuel, d, body, prims, enter.st)
  }

  function ExecScopeBody(c: Context, fuel: nat, d: ScopeDecl, body: Block, prims: seq<nat>, st: State): Went
    decreases fuel, 2, 2
  {
    var b := ExecBlock(c, fuel, body, st);
    if b.flow.Halted? then b else ExecExit(c, fuel, d, prims, b)
  }

  function ExecExit(c: Context, fuel: nat, d: ScopeDecl, prims: seq<nat>, b: Went): Went
    decreases fuel, 2, 1
  {
    var exit := ExecHook(c, fuel, Hook(d.members, false), b.st);
    if exit.flow.Halted? then exit
    else
      Went(if !b.flow.Threw? && exit.flow.Threw? then exit.flow else b.flow,
           PopScope(BreakAll(prims, if b.flow.Threw? then SCOPE_CRASHED else SCOPE_GONE, exit.st)))
  }

  // ── Functions ──────────────────────────────────────────────────────────────

  /** Calls that have `fuel` left. */
  function CallAt(c: Context, fuel: nat): Call
    decreases fuel, 0
  {
    (f, vs, st) => if fuel == 0 then Ran(Stopped(OutOfFuel), st) else CallFunc(c, fuel - 1, f, vs, st)
  }

  function CallFunc(c: Context, fuel: nat, f: FuncDef, vs: seq<Value>, st: State): Ran
    decreases fuel, 3
  {
    var inner := CallInner(c, fuel, f, vs, PushFrame(f, st));
    if inner.r.Stopped? then inner else Ran(inner.r, LeaveFrame(inner.r, inner.st))
  }

  function CallInner(c: Context, fuel: nat, f: FuncDef, vs: seq<Value>, st: State): Ran
    decreases fuel, 2
  {
    if !Accepts(f, vs) then Ran(Fail(c, "Panic"), st)
    else
      var b := ExecBlock(c, fuel, f.body, EnterFunc(f, vs, st));
      Ran(FuncResult(b.flow), if b.flow.Halted? then b.st else PopScope(b.st))
  }
}
