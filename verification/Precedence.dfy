/** Which operator binds tighter (crates/tessera-parser/src/parser.rs, `parse_pratt` and
    `infix_binding_power`), said without binding powers: a flat chain of operands is read as the tree
    that splits, again and again, at the last operator of the loosest tier. */
module Precedence {
  import opened Options
  import opened Ast
  import opened Grammar
  import R = RoundTrip

  /** From the loosest to the tightest; operators of one tier associate to the left. */
  const TIERS: seq<set<BinOp>> := [{Or}, {And}, {OpEq, Ne}, {OpLt, Le, OpGt, Ge}, {Add, Sub}, {Mul, Div, Rem}]

  function Tier(op: BinOp): (k: nat)
    ensures k < |TIERS| && op in TIERS[k]
  {
    match op
    case Or => 0
    case And => 1
    case OpEq => 2
    case Ne => 2
    case OpLt => 3
    case Le => 3
    case OpGt => 3
    case Ge => 3
    case Add => 4
    case Sub => 4
    case _ => 5
  }

  // ── Chains ─────────────────────────────────────────────────────────────────

  /** A literal or a name, or anything in parentheses. */
  datatype Operand = Bare(t: Token) | Group(e: Expr)

  predicate WellFormed(a: Operand) {
    match a
    case Bare(Value(l)) => l != NoneLit && (l.Int? ==> FitsInt(l.n))
    case Bare(Word(name)) => name != "None"
    case Bare(_) => false
    case Group(e) => R.Writable(e)
  }

  predicate IsName(a: Operand) {
    a.Bare? && a.t.Word?
  }

  function ExprOf(a: Operand): Expr
    requires WellFormed(a)
  {
    match a
    case Bare(Value(l)) => Lit(l)
    case Bare(Word(name)) => Ident(name)
    case Group(e) => e
  }

  function Spell(a: Operand, rest: Tokens): Tokens
    requires WellFormed(a)
  {
    match a
    case Bare(t) => More(t, rest)
    case Group(e) => More(PAREN_OPEN, R.Raw(e, More(PAREN_CLOSE, rest)))
  }

  ghost predicate IsChain(xs: seq<Operand>, ops: seq<BinOp>) {
    |xs| == |ops| + 1 && forall i :: 0 <= i < |xs| ==> WellFormed(xs[i])
  }

  /** The tokens of `x0 op0 x1 op1 …`, and what follows them. */
  function Chain(xs: seq<Operand>, ops: seq<BinOp>, rest: Tokens): Tokens
    requires IsChain(xs, ops)
  {
    Spell(xs[0], Behind(xs, ops, 0, rest))
  }

  /** What is left behind operand `k`. */
  function Behind(xs: seq<Operand>, ops: seq<BinOp>, k: nat, rest: Tokens): Tokens
    requires IsChain(xs, ops) && k <= |ops|
    decreases |ops| - k
  {
    if k == |ops| then rest else More(Infix(ops[k]), Spell(xs[k + 1], Behind(xs, ops, k + 1, rest)))
  }

  /** Nowhere does a name before `<` look like a constructor with type arguments: a name follows, and
      then `<`, `>` or a comma. */
  ghost predicate NoTypeArgs(xs: seq<Operand>, ops: seq<BinOp>, rest: Tokens)
    requires IsChain(xs, ops)
  {
    forall i :: 0 <= i < |ops| && ops[i] == OpLt && IsName(xs[i]) && IsName(xs[i + 1]) ==>
      if i + 1 < |ops| then ops[i + 1] != OpLt && ops[i + 1] != OpGt else rest.More? ==> rest.head != COMMA
  }

  // ── The tree ───────────────────────────────────────────────────────────────

  /** Of the operators `i` to `j`, the last one of the loosest tier. */
  predicate IsRoot(ops: seq<BinOp>, i: nat, j: nat, r: nat)
    requires j <= |ops|
  {
    && i <= r < j
    && (forall k :: i <= k < r ==> Tier(ops[r]) <= Tier(ops[k]))
    && (forall k :: r < k < j ==> Tier(ops[r]) < Tier(ops[k]))
  }

  function Root(ops: seq<BinOp>, i: nat, j: nat): (r: nat)
    requires i < j <= |ops|
    ensures IsRoot(ops, i, j, r)
    decreases j - i
  {
    if i + 1 == j then i
    else
      var before := Root(ops, i, j - 1);
      if Tier(ops[j - 1]) <= Tier(ops[before]) then j - 1 else before
  }

  lemma RootIsUnique(ops: seq<BinOp>, i: nat, j: nat, r: nat)
    requires i < j <= |ops| && IsRoot(ops, i, j, r)
    ensures Root(ops, i, j) == r
  {
    assert IsRoot(ops, i, j, Root(ops, i, j));
  }

  /** The tree of the operators `i` to `j` and the operands around them. */
  function Tree(xs: seq<Operand>, ops: seq<BinOp>, i: nat, j: nat): Expr
    requires IsChain(xs, ops) && i <= j <= |ops|
    decreases j - i
  {
    if i == j then ExprOf(xs[i])
    else
      var r := Root(ops, i, j);
      Binary(ops[r], Tree(xs, ops, i, r), Tree(xs, ops, r + 1, j))
  }

  // ── Reading a chain ────────────────────────────────────────────────────────

  lemma TiersArePowers(op: BinOp)
    ensures Power(op) == 2 * Tier(op) + 1
  {
  }

  /** Up to where the operators from `i` on bind as tightly as `min`. */
  function Reach(ops: seq<BinOp>, i: nat, min: nat): (k: nat)
    requires i <= |ops|
    ensures i <= k <= |ops|
    ensures (forall j :: i <= j < k ==> Power(ops[j]) >= min) && (k < |ops| ==> Power(ops[k]) < min)
    decreases |ops| - i
  {
    if i == |ops| || Power(ops[i]) < min then i else Reach(ops, i + 1, min)
  }

  lemma NameReads(xs: seq<Operand>, ops: seq<BinOp>, k: nat, rest: Tokens)
    requires IsChain(xs, ops) && k <= |ops| && R.Ends(rest) && NoTypeArgs(xs, ops, rest) && IsName(xs[k])
    ensures var after := Behind(xs, ops, k, rest);
      !(after.More? && after.head == LT && LooksLikeTypeArgs(after)) && (after.More? ==> after.head != PAREN_OPEN)
  {
    if k < |ops| && ops[k] == OpLt && k + 1 < |ops| {
      var next := Behind(xs, ops, k + 1, rest);
      assert next.head == Infix(ops[k + 1]);
    }
  }

  lemma OperandReads(xs: seq<Operand>, ops: seq<BinOp>, k: nat, rest: Tokens, es: seq<ParseError>)
    requires IsChain(xs, ops) && k <= |ops| && R.Ends(rest) && NoTypeArgs(xs, ops, rest)
    ensures Prefix(Input(Spell(xs[k], Behind(xs, ops, k, rest)), es)) == Parsed(ExprOf(xs[k]), Input(Behind(xs, ops, k, rest), es))
  {
    var after := Behind(xs, ops, k, rest);
    var s := Input(Spell(xs[k], after), es);
    if xs[k].Group? {
      R.ParenReads(xs[k].e, after, es);
    } else if xs[k].t.Word? {
      NameReads(xs, ops, k, rest);
      assert Primary(s) == NameOrCall(xs[k].t.name, Input(after, es));
    }
    assert Primary(s) == Parsed(ExprOf(xs[k]), Input(after, es));
    assert Postfix(s) == Parsed(ExprOf(xs[k]), Input(after, es));
  }

  /** From operand `i` on, under a power: the tree of the operators that bind as tightly. */
  lemma {:induction false} PrattReads(xs: seq<Operand>, ops: seq<BinOp>, i: nat, rest: Tokens, es: seq<ParseError>, min: nat)
    requires IsChain(xs, ops) && R.Ends(rest) && NoTypeArgs(xs, ops, rest) && i <= |ops|
    ensures var k := Reach(ops, i, min);
      Pratt(Input(Spell(xs[i], Behind(xs, ops, i, rest)), es), min)
      == Parsed(Tree(xs, ops, i, k), Input(Behind(xs, ops, k, rest), es))
    decreases |ops| - i, 1, 0
  {
    OperandReads(xs, ops, i, rest, es);
    LoopReads(xs, ops, i, i, rest, es, min);
  }

  /** The loop with the tree of operators `i` to `j` on its left, none of which is looser than the next. */
  lemma {:induction false} LoopReads(xs: seq<Operand>, ops: seq<BinOp>, i: nat, j: nat, rest: Tokens, es: seq<ParseError>, min: nat)
    requires IsChain(xs, ops) && R.Ends(rest) && NoTypeArgs(xs, ops, rest) && i <= j <= |ops| && j <= Reach(ops, i, min)
    requires NoneLooser(ops, i, j)
    ensures var k := Reach(ops, i, min);
      PrattLoop(Tree(xs, ops, i, j), Input(Behind(xs, ops, j, rest), es), min)
      == Parsed(Tree(xs, ops, i, k), Input(Behind(xs, ops, k, rest), es))
    decreases |ops| - i, 0, 1 + |ops| - j
  {
    if j < Reach(ops, i, min) {
      TurnReads(xs, ops, i, j, rest, es, min);
      LoopReads(xs, ops, i, Reach(ops, j + 1, Power(ops[j]) + 1), rest, es, min);
    } else {
      LoopEnds(xs, ops, i, j, rest, es, min);
    }
  }

  /** One turn: operator `j` takes the tighter operators behind it. */
  lemma {:induction false} TurnReads(xs: seq<Operand>, ops: seq<BinOp>, i: nat, j: nat, rest: Tokens, es: seq<ParseError>, min: nat)
    requires IsChain(xs, ops) && R.Ends(rest) && NoTypeArgs(xs, ops, rest) && i <= j < |ops| && j < Reach(ops, i, min)
    requires NoneLooser(ops, i, j)
    ensures var m := Reach(ops, j + 1, Power(ops[j]) + 1);
      && m <= Reach(ops, i, min) && NoneLooser(ops, i, m)
      && PrattLoop(Tree(xs, ops, i, j), Input(Behind(xs, ops, j, rest), es), min)
         == PrattLoop(Tree(xs, ops, i, m), Input(Behind(xs, ops, m, rest), es), min)
    decreases |ops| - i, 0, 0
  {
    PrattReads(xs, ops, j + 1, rest, es, Power(ops[j]) + 1);
    var m := Reach(ops, j + 1, Power(ops[j]) + 1);
    LoopTurn(xs, ops, j, rest, es, min, Tree(xs, ops, i, j), Tree(xs, ops, j + 1, m), Input(Behind(xs, ops, m, rest), es));
    TakesOver(xs, ops, i, j, min);
  }

  lemma LoopTurn(
      xs: seq<Operand>, ops: seq<BinOp>, j: nat, rest: Tokens, es: seq<ParseError>, min: nat, left: Expr, right: Expr, next: Input)
    requires IsChain(xs, ops) && j < |ops| && Power(ops[j]) >= min
    requires Pratt(Input(Spell(xs[j + 1], Behind(xs, ops, j + 1, rest)), es), Power(ops[j]) + 1) == Parsed(right, next)
    ensures PrattLoop(left, Input(Behind(xs, ops, j, rest), es), min) == PrattLoop(Binary(ops[j], left, right), next, min)
  {
  }

  lemma LoopEnds(xs: seq<Operand>, ops: seq<BinOp>, i: nat, j: nat, rest: Tokens, es: seq<ParseError>, min: nat)
    requires IsChain(xs, ops) && R.Ends(rest) && i <= |ops| && j == Reach(ops, i, min)
    ensures PrattLoop(Tree(xs, ops, i, j), Input(Behind(xs, ops, j, rest), es), min)
         == Parsed(Tree(xs, ops, i, j), Input(Behind(xs, ops, j, rest), es))
  {
  }

  /** The operators `i` to `j` are as tight as operator `j`. */
  predicate NoneLooser(ops: seq<BinOp>, i: nat, j: nat)
    requires j <= |ops|
  {
    j < |ops| ==> forall k :: i <= k < j ==> Power(ops[j]) <= Power(ops[k])
  }

  /** Operator `j` with what it takes on its right is the root of all so far. */
  lemma TakesOver(xs: seq<Operand>, ops: seq<BinOp>, i: nat, j: nat, min: nat)
    requires IsChain(xs, ops) && i <= j < |ops| && j < Reach(ops, i, min) && NoneLooser(ops, i, j)
    ensures var m := Reach(ops, j + 1, Power(ops[j]) + 1);
      && m <= Reach(ops, i, min) && NoneLooser(ops, i, m)
      && Tree(xs, ops, i, m) == Binary(ops[j], Tree(xs, ops, i, j), Tree(xs, ops, j + 1, m))
  {
    var m := Reach(ops, j + 1, Power(ops[j]) + 1);
    JoinsTier(ops, i, j, m);
    RootIsUnique(ops, i, m, j);
  }

  lemma JoinsTier(ops: seq<BinOp>, i: nat, j: nat, m: nat)
    requires i <= j < m <= |ops| && NoneLooser(ops, i, j) && forall k :: j < k < m ==> Power(ops[j]) < Power(ops[k])
    ensures IsRoot(ops, i, m, j)
  {
    forall k | i <= k < m ensures Power(ops[k]) == 2 * Tier(ops[k]) + 1 { TiersArePowers(ops[k]); }
  }

  /** Every chain, of whatever operators and however long, is read as its tree, up to what follows it. */
  lemma ChainReads(xs: seq<Operand>, ops: seq<BinOp>, rest: Tokens, es: seq<ParseError>)
    requires IsChain(xs, ops) && R.Ends(rest) && NoTypeArgs(xs, ops, rest)
    ensures Expression(Input(Chain(xs, ops, rest), es)) == Parsed(Tree(xs, ops, 0, |ops|), Input(rest, es))
  {
    PrattReads(xs, ops, 0, rest, es, 0);
  }

  /** Two operators: the second takes the middle operand exactly if its tier is the tighter one. */
  lemma TwoOperators(a: Operand, p: BinOp, b: Operand, q: BinOp, d: Operand, rest: Tokens, es: seq<ParseError>)
    requires WellFormed(a) && WellFormed(b) && WellFormed(d) && R.Ends(rest)
    requires NoTypeArgs([a, b, d], [p, q], rest)
    ensures Expression(Input(Spell(a, More(Infix(p), Spell(b, More(Infix(q), Spell(d, rest))))), es))
         == Parsed(if Tier(p) < Tier(q) then Binary(p, ExprOf(a), Binary(q, ExprOf(b), ExprOf(d)))
                   else Binary(q, Binary(p, ExprOf(a), ExprOf(b)), ExprOf(d)),
                   Input(rest, es))
  {
    var xs, ops := [a, b, d], [p, q];
    ChainReads(xs, ops, rest, es);
    assert Behind(xs, ops, 1, rest) == More(Infix(q), Spell(d, rest));
    assert Behind(xs, ops, 0, rest) == More(Infix(p), Spell(b, Behind(xs, ops, 1, rest)));
    RootIsUnique(ops, 0, 2, if Tier(p) < Tier(q) then 0 else 1);
    RootIsUnique(ops, 0, 1, 0);
    RootIsUnique(ops, 1, 2, 1);
  }

  /** Where a name before `<` does look like a constructor, it is read as one: `a < b > …` never compares. */
  lemma NameTakenForAConstructor(a: string, b: string, rest: Tokens, es: seq<ParseError>)
    ensures Primary(Input(More(Word(a), More(LT, More(Word(b), More(GT, rest)))), es)).v
         == TypeCtor(a, [Named(b, [])], CallArgs(Input(rest, es)).v)
  {
    var s := Input(More(LT, More(Word(b), More(GT, rest))), es);
    assert s.Peeks(LT) && LooksLikeTypeArgs(s.left);
    assert Type(s.Next()) == Parsed(Named(b, []), Input(More(GT, rest), es));
    assert TypeArgs(s) == Parsed([Named(b, [])], Input(rest, es));
    assert NameOrCall(a, s).v == TypeCtor(a, [Named(b, [])], CallArgs(Input(rest, es)).v);
  }
}
