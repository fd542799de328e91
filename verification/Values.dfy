/** Run-time values, the scope chain and the state of one interpreter task
    (crates/tessera-runtime/src/value.rs, crates/tessera-interp/src/env.rs and eval/helpers.rs).
    Lists, objects and primitives are references; doubles are reals. */
module Values {
  import opened Options
  import opened Ast

  datatype HandleKind = Locked | Queue | Signal | Contract | Permit | Future | HandlerFuture | ThreadHandle

  datatype Value =
    | BoolV(b: bool) | IntV(n: int) | DoubleV(d: real) | CharV(c: char) | StrV(s: string)
    | VoidV | NeverV
    | SomeV(inner: Value) | NoneV
    | OkV(inner: Value) | ErrV(inner: Value)
    | ErrorV(kind: string, message: string)
    | ListV(ref: nat) | MapV(ref: nat) | ObjectV(ref: nat)
    | HandleV(handle: HandleKind, ref: nat)

  datatype RuntimeError = RuntimeError(kind: string, message: string)

  /** Why a task goes no further without an error the language can see: it still needs more steps, it
      waits for ever, or the interpreter itself panics. Only a guarded reference run strays. */
  datatype StopReason = OutOfFuel | Waiting | HostPanic | Strayed

  datatype Result = Done(v: Value) | Failed(e: RuntimeError) | Stopped(why: StopReason)

  // ── State ──────────────────────────────────────────────────────────────────

  type Scope = map<string, Value>

  /** What references point to. A fault is the reason a primitive is broken, or a future's error. */
  datatype Heap = Heap(
    objects: map<nat, map<string, Value>>, lists: map<nat, seq<Value>>, faults: map<nat, string>, claimed: set<nat>)

  /** What another task answers to an operation that leaves this one, and the heap it leaves behind. */
  datatype Answer = Answer(result: Result, heap: Heap)

  datatype World = World(
    heap: Heap,
    next: nat,
    answers: seq<Answer>,
    frames: seq<string>,
    backtrace: Option<seq<string>>,
    exposed: map<string, Value>,
    owned: seq<nat>,
    exclusive: bool)

  datatype State = State(scopes: seq<Scope>, w: World)

  const EMPTY_WORLD := World(Heap(map[], map[], map[], {}), 0, [], [], None, map[], [], false)
  const START := State([map[]], EMPTY_WORLD)

  datatype Ran = Ran(r: Result, st: State)

  // ── Scope chain ────────────────────────────────────────────────────────────

  function Push(scopes: seq<Scope>): seq<Scope> {
    scopes + [map[]]
  }

  function Pop(scopes: seq<Scope>): seq<Scope> {
    if scopes == [] then [] else scopes[..|scopes| - 1]
  }

  function DefineIn(scopes: seq<Scope>, name: string, v: Value): (r: seq<Scope>)
    ensures |r| == |scopes|
  {
    if scopes == [] then [] else Pop(scopes) + [scopes[|scopes| - 1][name := v]]
  }

  /** The innermost binding. */
  function Lookup(scopes: seq<Scope>, name: string): Option<Value> {
    if scopes == [] then None
    else
      var top := scopes[|scopes| - 1];
      if name in top then Some(top[name]) else Lookup(Pop(scopes), name)
  }

  /** Rebind the innermost binding, if there is one. */
  function Rebind(scopes: seq<Scope>, name: string, v: Value): (r: seq<Scope>)
    ensures |r| == |scopes|
  {
    if scopes == [] then []
    else
      var top := scopes[|scopes| - 1];
      if name in top then Pop(scopes) + [top[name := v]] else Rebind(Pop(scopes), name, v) + [top]
  }

  function DefineAll(scopes: seq<Scope>, ps: seq<Param>, vs: seq<Value>): (r: seq<Scope>)
    ensures |r| == |scopes|
    decreases |ps|
  {
    if ps == [] || vs == [] then scopes else DefineAll(DefineIn(scopes, ps[0].name, vs[0]), ps[1..], vs[1..])
  }

  // ── Integers ───────────────────────────────────────────────────────────────

  const INT_MIN: int := -0x8000_0000

  /** The value of an integer in 32-bit two's complement. */
  function Wrap(n: int): (r: int)
    ensures INT_MIN <= r < -INT_MIN
    ensures INT_MIN <= n < -INT_MIN ==> r == n
  {
    (n - INT_MIN) % 0x1_0000_0000 + INT_MIN
  }

  function Abs(n: int): nat {
    if n < 0 then -n else n
  }

  /** Division that truncates towards zero. */
  function Quotient(a: int, b: int): int
    requires b != 0
  {
    if (a < 0) == (b < 0) then Abs(a) / Abs(b) else -(Abs(a) / Abs(b))
  }

  /** The remainder has the sign of the dividend. */
  function Remainder(a: int, b: int): int
    requires b != 0
  {
    if a < 0 then -(Abs(a) % Abs(b)) else Abs(a) % Abs(b)
  }

  lemma TruncatingDivision(a: int, b: int)
    requires b != 0
    ensures a == b * Quotient(a, b) + Remainder(a, b)
    ensures Abs(Remainder(a, b)) < Abs(b) && (Remainder(a, b) != 0 ==> (Remainder(a, b) < 0 <==> a < 0))
  {
    var x: int, y: int := Abs(a), Abs(b);
    var whole: int := y * (x / y);
    assert x == whole + x % y;
    Signs(a, b, x / y);
    assert b * Quotient(a, b) == if a < 0 then -whole else whole;
  }

  lemma Signs(a: int, b: int, q: int)
    ensures b * (if (a < 0) == (b < 0) then q else -q) == if a < 0 then -(Abs(b) * q) else Abs(b) * q
  {
  }

  // ── Helpers ────────────────────────────────────────────────────────────────

  function TypeName(v: Value): string {
    match v
    case BoolV(_) => "bool"
    case IntV(_) => "int"
    case DoubleV(_) => "double"
    case CharV(_) => "char"
    case StrV(_) => "String"
    case VoidV => "void"
    case NeverV => "never"
    case SomeV(_) => "Option"
    case NoneV => "Option"
    case OkV(_) => "Result"
    case ErrV(_) => "Result"
    case ErrorV(_, _) => "error"
    case ListV(_) => "List"
    case MapV(_) => "Map"
    case ObjectV(_) => "Object"
    case HandleV(k, _) =>
      match k {
        case Locked => "locked"
        case Queue => "Queue"
        case Signal => "signal"
        case Contract => "contract"
        case Permit => "permit"
        case Future => "Future"
        case HandlerFuture => "HandlerFuture"
        case ThreadHandle => "ThreadHandle"
      }
  }

  function LiteralValue(l: Literal): Value {
    match l
    case Bool(b) => BoolV(b)
    case Int(n) => IntV(Wrap(n))
    case Double(d) => DoubleV(d)
    case Char(c) => CharV(c)
    case Str(s) => StrV(s)
    case NoneLit => NoneV
  }

  predicate Truthy(v: Value) {
    match v
    case BoolV(b) => b
    case IntV(n) => n != 0
    case NoneV => false
    case _ => true
  }

  /** A fault compares equal to an error that carries its text. */
  predicate CarriesFault(a: Value, e: Value, faults: map<nat, string>) {
    && a.HandleV? && a.handle in {Signal, Contract, Permit, HandlerFuture}
    && a.ref in faults
    && e == StrV(faults[a.ref])
  }

  predicate ValuesEqual(a: Value, b: Value, faults: map<nat, string>) {
    match (a, b)
    case (BoolV(x), BoolV(y)) => x == y
    case (IntV(x), IntV(y)) => x == y
    case (DoubleV(x), DoubleV(y)) => x == y
    case (CharV(x), CharV(y)) => x == y
    case (StrV(x), StrV(y)) => x == y
    case (VoidV, VoidV) => true
    case (NoneV, NoneV) => true
    case (HandleV(_, _), ErrV(e)) => CarriesFault(a, e, faults)
    case (ErrV(e), HandleV(_, _)) => CarriesFault(b, e, faults)
    case _ => false
  }

  function Digits(n: nat): string {
    (if n < 10 then [] else Digits(n / 10)) + [('0' as int + n % 10) as char]
  }

  function Show(v: Value, showDouble: real -> string): string {
    match v
    case BoolV(b) => if b then "true" else "false"
    case IntV(n) => if n < 0 then "-" + Digits(-n) else Digits(n)
    case DoubleV(d) => showDouble(d)
    case CharV(c) => [c]
    case StrV(s) => s
    case VoidV => "void"
    case NeverV => "never"
    case NoneV => "None"
    case SomeV(x) => "Some(" + Show(x, showDouble) + ")"
    case OkV(x) => "Ok(" + Show(x, showDouble) + ")"
    case ErrV(x) => "Err(" + Show(x, showDouble) + ")"
    case ErrorV(k, m) => "error(" + k + ": " + m + ")"
    case _ => "<complex>"
  }

  predicate TypeMatches(ty: TypeExpr, v: Value) {
    match ty
    case Void => v == VoidV
    case Never => false
    case Named(name, _) =>
      if name == "never" then false
      else if name == "thread" then TypeName(v) == "ThreadHandle"
      else if name in {"bool", "int", "double", "char", "String", "void", "List", "Map", "Option", "Result",
                       "locked", "Queue", "signal", "contract", "permit", "Future", "HandlerFuture"} then TypeName(v) == name
      else true
  }

  function DefaultValue(ty: TypeExpr): Value {
    if !ty.Named? then VoidV
    else if ty.name == "int" then IntV(0)
    else if ty.name == "double" then DoubleV(0.0)
    else if ty.name == "bool" then BoolV(false)
    else if ty.name == "String" then StrV("")
    else VoidV
  }
}
