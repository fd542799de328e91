/** What the evaluator's helpers mean (crates/tessera-interp/src/env.rs, eval.rs and eval/helpers.rs),
    without reference to how they compute it. */
module EvalFacts {
  import opened Options
  import opened Ast
  import opened Values
  import opened Evaluator

  // ── The scope chain ────────────────────────────────────────────────────────

  /** An assignment changes the name's innermost binding and what no other name is bound to. */
  lemma {:induction false} AssignThenLookup(scopes: seq<Scope>, name: string, v: Value, other: string)
    ensures Lookup(Rebind(scopes, name, v), other)
         == if other == name && Lookup(scopes, name).Some? then Some(v) else Lookup(scopes, other)
    decreases |scopes|
  {
    if scopes != [] {
      var top := scopes[|scopes| - 1];
      var after := Rebind(scopes, name, v);
      if name in top {
        assert Pop(after) == Pop(scopes);
      } else {
        AssignThenLookup(Pop(scopes), name, v, other);
        assert Pop(after) == Rebind(Pop(scopes), name, v);
      }
    }
  }

  /** A definition hides what the name meant, until its scope is popped. */
  lemma DefineThenLookup(scopes: seq<Scope>, name: string, v: Value, other: string)
    requires scopes != []
    ensures Lookup(DefineIn(scopes, name, v), other) == if other == name then Some(v) else Lookup(scopes, other)
    ensures Pop(DefineIn(Push(scopes), name, v)) == scopes
  {
    assert Pop(DefineIn(scopes, name, v)) == Pop(scopes);
  }

  /** In the body of a function every parameter that got an argument has its value, and every other
      name what it means in the caller: calls see their caller's variables. */
  lemma {:induction false} ParametersAreBound(scopes: seq<Scope>, ps: seq<Param>, vs: seq<Value>, name: string)
    requires scopes != []
    ensures Lookup(DefineAll(scopes, ps, vs), name)
         == if LastOf(ps, |vs|, name).Some? then Some(vs[LastOf(ps, |vs|, name).value]) else Lookup(scopes, name)
    decreases |ps|
  {
    if ps != [] && vs != [] {
      DefineThenLookup(scopes, ps[0].name, vs[0], name);
      ParametersAreBound(DefineIn(scopes, ps[0].name, vs[0]), ps[1..], vs[1..], name);
    }
  }

  /** The last of the first `n` parameters with this name. */
  function LastOf(ps: seq<Param>, n: nat, name: string): (i: Option<nat>)
    ensures i.Some? ==> i.value < |ps| && i.value < n && ps[i.value].name == name
    ensures forall j :: 0 <= j < |ps| && j < n && ps[j].name == name ==> i.Some? && j <= i.value
    decreases |ps|
  {
    if ps == [] || n == 0 then None
    else
      var later := LastOf(ps[1..], n - 1, name);
      assert forall j :: 0 < j < |ps| ==> ps[j] == ps[1..][j - 1];
      if later.Some? then Some(later.value + 1) else if ps[0].name == name then Some(0) else None
  }

  // ── Integers ───────────────────────────────────────────────────────────────

  predicate IsInt(n: int) {
    INT_MIN <= n < -INT_MIN
  }

  /** `n` and `m` are the same number in 32 bits. */
  predicate SameBits(n: int, m: int) {
    (n - m) % 0x1_0000_0000 == 0
  }

  /** 32-bit arithmetic: results are integers again, exact when they can be and wrapped otherwise;
      division truncates, and the interpreter stops at the one quotient that does not fit. */
  lemma IntegerArithmetic(c: Context, a: int, b: int)
    requires IsInt(a) && IsInt(b)
    ensures var r := IntOp(c, Add, a, b); r.Done? && r.v.IntV? && IsInt(r.v.n) && SameBits(r.v.n, a + b)
    ensures var r := IntOp(c, Sub, a, b); r.Done? && r.v.IntV? && IsInt(r.v.n) && SameBits(r.v.n, a - b)
    ensures var r := IntOp(c, Mul, a, b); r.Done? && r.v.IntV? && IsInt(r.v.n) && SameBits(r.v.n, a * b)
    ensures var q, m := IntOp(c, Div, a, b), IntOp(c, Rem, a, b);
      if b == 0 then q == m == Fail(c, "DivisionByZero")
      else if a == INT_MIN && b == -1 then q == m == Stopped(HostPanic)
      else
        && q.Done? && q.v.IntV? && m.Done? && m.v.IntV?
        && a == b * q.v.n + m.v.n && Abs(m.v.n) < Abs(b) && (m.v.n != 0 ==> (m.v.n < 0 <==> a < 0))
  {
    Wraps(a + b);
    Wraps(a - b);
    Wraps(a * b);
    if b != 0 { TruncatingDivision(a, b); }
  }

  lemma Wraps(n: int)
    ensures IsInt(Wrap(n)) && SameBits(Wrap(n), n)
  {
    var k := (n - INT_MIN) / 0x1_0000_0000;
    assert Wrap(n) - n == -k * 0x1_0000_0000;
  }

  // ── Calls and scope templates ──────────────────────────────────────────────

  /** `call_func` checks exactly the arguments that have a parameter, each against its own. */
  lemma {:induction false} ArgsMatchIff(ps: seq<Param>, vs: seq<Value>)
    ensures ArgsMatch(ps, vs) <==> forall i :: 0 <= i < |ps| && i < |vs| ==> TypeMatches(ps[i].ty, vs[i])
    decreases |ps|
  {
    if ps != [] && vs != [] {
      ArgsMatchIff(ps[1..], vs[1..]);
      assert forall i :: 0 < i < |ps| && i < |vs| ==> ps[i] == ps[1..][i - 1] && vs[i] == vs[1..][i - 1];
    }
  }

  predicate HoldsPrim(ms: seq<ScopeMember>, o: map<string, Value>, i: nat, p: nat) {
    && i < |ms| && ms[i].ScopeDefine? && ms[i].d.name in o
    && o[ms[i].d.name] in {HandleV(Signal, p), HandleV(Contract, p), HandleV(Permit, p)}
  }

  /** The primitives of a scope are those its `define` fields hold after `__on_enter__`. */
  lemma {:induction false} FieldPrimsAre(ms: seq<ScopeMember>, o: map<string, Value>, p: nat)
    ensures p in FieldPrims(ms, o) <==> exists i :: HoldsPrim(ms, o, i, p)
    decreases |ms|
  {
    if ms != [] {
      FieldPrimsAre(ms[1..], o, p);
      assert forall i: nat :: HoldsPrim(ms[1..], o, i, p) <==> HoldsPrim(ms, o, i + 1, p);
      if HoldsPrim(ms, o, 0, p) {
        assert p in FieldPrims(ms, o);
      } else if p in FieldPrims(ms, o) {
        var i: nat :| HoldsPrim(ms[1..], o, i, p);
        assert HoldsPrim(ms, o, i + 1, p);
      } else {
        forall i: nat ensures !HoldsPrim(ms, o, i, p) {
          if i > 0 { assert HoldsPrim(ms[1..], o, i - 1, p) <==> HoldsPrim(ms, o, i, p); }
        }
      }
    }
  }

  /** The hook that runs is the first of its kind. */
  lemma {:induction false} HookIsFirst(ms: seq<ScopeMember>, enter: bool)
    ensures match Hook(ms, enter)
      case None => forall i :: 0 <= i < |ms| ==> !IsHook(ms[i], enter)
      case Some(b) =>
        exists i :: 0 <= i < |ms| && IsHook(ms[i], enter) && ms[i].f.body == b && forall j :: 0 <= j < i ==> !IsHook(ms[j], enter)
    decreases |ms|
  {
    if ms != [] && !IsHook(ms[0], enter) {
      HookIsFirst(ms[1..], enter);
      assert forall i :: 0 < i < |ms| ==> ms[i] == ms[1..][i - 1];
      if Hook(ms, enter).Some? {
        var i :| 0 <= i < |ms[1..]| && IsHook(ms[1..][i], enter) && ms[1..][i].f.body == Hook(ms, enter).value
                 && forall j :: 0 <= j < i ==> !IsHook(ms[1..][j], enter);
        assert IsHook(ms[i + 1], enter);
      }
    }
  }

  predicate IsHook(m: ScopeMember, enter: bool) {
    if enter then m.ScopeOnEnter? else m.ScopeOnExit?
  }
}
