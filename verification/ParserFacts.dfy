/** What the parser decides by the spelling of a name or by the shape of a tree
    (crates/tessera-parser/src/parser.rs), with the names written out. */
module ParserFacts {
  import opened Options
  import opened Ast
  import opened Grammar
  import opened GrammarStmts

  /** Only a name, a field or an element can be assigned; anything else before `=` is one error, which
      comes after all others of the statement. */
  lemma AssignmentTargets(s: Input, semi: bool)
    requires Expression(s).next.Peeks(EQ)
    ensures var target := Expression(s);
      var value := Expression(target.next.Next());
      var after := if semi then value.next.Expect(SEMICOLON) else value.next;
      var r := ExprOrAssign(s, semi);
      && r.v.Assign? && r.v.value == value.v && r.next.left == after.left
      && match target.v
         case Ident(name) => r.v.target == ToIdent(name) && r.next.errors == after.errors
         case FieldAccess(o, field) => r.v.target == ToField(o, field) && r.next.errors == after.errors
         case Index(o, i) => r.v.target == ToIndex(o, i) && r.next.errors == after.errors
         case _ => r.next.errors == after.errors + [ParseError(BadTarget, after.Left())]
  {
  }

  /** A name before parentheses is a constructor if it is one of these, and a function otherwise. */
  lemma ConstructorsByName(name: string, s: Input)
    requires s.Peeks(PAREN_OPEN)
    ensures match NameOrCall(name, s).v
      case TypeCtor(n, types, args) =>
        && name in {"Ok", "Err", "Some", "None", "List", "locked", "Queue"} && n == name && types == []
        && args == if name == "None" then [] else CallArgs(s).v
      case Call(f, args) =>
        && name !in {"Ok", "Err", "Some", "None", "List", "locked", "Queue"} && f == Ident(name) && args == CallArgs(s).v
      case _ => false
    ensures NameOrCall(name, s).next == CallArgs(s).next
  {
  }

  /** The hooks of a scope template are told by their names, whatever their kind. */
  lemma ScopeHooksByName(f: FuncDef)
    ensures ScopeMemberOf(f) == if f.name == "__on_enter__" then ScopeOnEnter(f)
                                else if f.name == "__on_exit__" then ScopeOnExit(f) else ScopeFunc(f)
  {
  }

  /** Those of a thread template by name and kind: only the terminate hook is asynchronous. */
  lemma ThreadHooksByName(f: FuncDef)
    ensures ThreadMemberOf(f).OnEnter? <==> f.name == "__on_enter__" && f.kind.Sync?
    ensures ThreadMemberOf(f).OnExit? <==> f.name == "__on_exit__" && f.kind.Sync?
    ensures ThreadMemberOf(f).OnTerminate? <==> f.name == "__on_terminate__" && f.kind.Async?
    ensures ThreadMemberOf(f).MemberFunc? || ThreadMemberOf(f).OnEnter? || ThreadMemberOf(f).OnExit? || ThreadMemberOf(f).OnTerminate?
    ensures ThreadMemberOf(f).f == f
  {
  }

  /** A number that does not fit 32 bits is read, and reported. */
  lemma NumbersThatDoNotFit(n: int, rest: Tokens, es: seq<ParseError>)
    ensures var r := Primary(Input(More(Value(Int(n)), rest), es));
      && r.v == Lit(Int(n)) && r.next.left == rest
      && r.next.errors == if -2147483648 <= n <= 2147483647 then es else es + [ParseError(Overflow, rest.Length())]
  {
  }

  /** A name that is missing is the error name, with one error and nothing read. */
  lemma MissingNames(s: Input)
    ensures if s.left.More? && s.left.head.Word? then Name(s) == Parsed(s.left.head.name, Input(s.left.tail, s.errors))
            else Name(s) == Parsed("<error>", Input(s.left, s.errors + [ParseError(ExpectedName, s.Left())]))
  {
  }

  /** So is a type that is missing; the keywords `void` and `never` are types of their own, and the others
      are named by their spelling. */
  lemma TypeNames(s: Input)
    ensures s.left.End? ==> Type(s) == Parsed(Named("<error>", []), Input(s.left, s.errors + [ParseError(ExpectedType, 0)]))
    ensures s.left.More? && s.left.head == TypeWord(VoidType) ==> Type(s) == Parsed(Void, Input(s.left.tail, s.errors))
    ensures s.left.More? && s.left.head == TypeWord(NeverType) ==> Type(s) == Parsed(TypeExpr.Never, Input(s.left.tail, s.errors))
    ensures s.left.More? && !(s.left.tail.More? && s.left.tail.head == LT) ==>
      && (s.left.head == TypeWord(BoolType) ==> Type(s).v == Named("bool", []))
      && (s.left.head == TypeWord(IntType) ==> Type(s).v == Named("int", []))
      && (s.left.head == TypeWord(DoubleType) ==> Type(s).v == Named("double", []))
      && (s.left.head == TypeWord(CharType) ==> Type(s).v == Named("char", []))
      && (s.left.head == TypeWord(StringType) ==> Type(s).v == Named("String", []))
  {
  }

  /** What is no member of a thread template is one error, one token is skipped if there is one, and the
      member recorded is a function without parameters, of the error name and an empty body. */
  lemma SkippedMembers(s: Input)
    requires !s.Peeks(KW_EXPOSE) && !s.Peeks(KW_EXPOSE_MUTABLE) && !s.Peeks(KW_DEFINE) && !s.Peeks(KW_ASYNC) && !s.Peeks(KW_FUNCTION)
    ensures OneThreadMember(s).v == MemberFunc(FuncDef(Sync, "<error>", [], Void, Block([])))
    ensures OneThreadMember(s).next ==
      Input(if s.left.End? then End else s.left.tail, s.errors + [ParseError(ExpectedMember, s.Left())])
  {
  }
}
