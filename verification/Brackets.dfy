/** The brackets of a rendered expression, exactly: by the operator table of the reader, and
    by nothing else. */
module Brackets {
  import opened Basics
  import opened Precedence
  import opened Tokens
  import opened Lexer
  import opened Syntax
  import opened Node
  import opened Text
  import opened Fragments
  import opened Grammar
  import opened Render
  import opened Words
  import opened LexPrint

  /** The enumerators stand for the rows of the reader's table, in its order. */
  lemma {:induction false} EnumeratorsOrdered()
    ensures kSymbol < kDot < kTypecast < kIndex < kUnaryPlus < kCollate < kAt < kExp < kMul < kPlus < kAnyOther
    ensures kAnyOther < kBetween < kCompare < kIs < kNot < kAnd < kOr < kExtract
    ensures kSymbol == Primary && kTypecast == TypecastLevel && kExtract == Anything
  {
  }

  /** CAST carries the row of the operator it stands for. */
  const TypecastLevel: Prec := 2

  /** The row of the outermost operator. */
  function OperatorLevel(e: Expr): Prec {
    match e
    case Infix(op, _, _) => InfixLevel(op)
    case Prefix(op, _) => PrefixLevel(op)
    case Postfix(op, _) => PostfixLevel(op)
    case Between(_, _, _, _) => BetweenLevel
    case Suffix(op, _, _) => SuffixLevel(op)
    case Cast(_, _) => TypecastLevel
    case _ => Primary
  }

  /** The text of `e` next to an operator of the row `level`. */
  function Wrapped(e: Expr, level: Prec): string {
    if OperatorLevel(e) >= level then "(" + (ToString(e) + ")") else ToString(e)
  }

  function WrappedTexts(es: List<Expr>): seq<string> {
    match es
    case Nil => []
    case Cons(e, rest) => [Wrapped(e, Anything)] + WrappedTexts(rest)
  }

  function BodyText(op: SuffixOp, body: Body): string {
    match body
    case Exprs(es) => OpenText(op) + (Intercalate(", ", WrappedTexts(es)) + CloseText(op))
    case Sub(q) => Bracketed(q)
  }

  /** An expression put together from the texts of its operands. */
  function Assembled(e: Expr): string {
    match e
    case Infix(op, a, b) => Wrapped(a, InfixLevel(op)) + (InfixText(op) + Wrapped(b, InfixLevel(op)))
    case Prefix(op, a) => PrefixText(op) + Wrapped(a, PrefixLevel(op))
    case Postfix(op, a) => Wrapped(a, PostfixLevel(op)) + PostfixText(op)
    case Between(neg, a, lo, hi) =>
      Wrapped(a, BetweenLevel) + (BetweenText(neg) +
        (Wrapped(lo, BetweenLevel) + (" AND " + Wrapped(hi, BetweenLevel))))
    case Suffix(op, a, body) => Wrapped(a, SuffixLevel(op)) + (SuffixText(op) + BodyText(op, body))
    case Call(quals, name, distinct, args) =>
      QualText(quals) + (name + ("(" + ((if distinct then "DISTINCT " else "") +
        (Intercalate(", ", WrappedTexts(args)) + ")"))))
    case Cast(a, typ) => "CAST (" + (Wrapped(a, TypecastLevel) + (" AS " + (Spell(typ) + ")")))
    case Case(whens, els) => Spaced(["CASE"] + (WhenWords(whens) + ElseWords(els)))
    case Leaf(tok) => Spell(tok)
    case NegNum(digits) => "-" + digits
    case Exists(q) => "EXISTS " + Inside(q)
    case NotExists(q) => "NOT EXISTS " + Inside(q)
    case Scalar(q) => Inside(q)
  }

  lemma {:induction false} RankIsLevel(e: Expr)
    ensures Rank(e) == OperatorLevel(e)
  {
  }

  /** A child in a slot is bracketed exactly when its operator is in the row of the slot or
      one further down. */
  lemma {:induction false} SlotExact(e: Expr, level: Prec)
    ensures TextIn(Build(e), level) == Wrapped(e, level)
    ensures TextIn(Build(e), level) == "(" + (ToString(e) + ")") <==> OperatorLevel(e) >= level
    ensures TextIn(Build(e), level) == ToString(e) <==> OperatorLevel(e) < level
  {
    RankIsLevel(e);
    SlotBare(e, level, "");
    PartsAppend(Build(e).parts, ")" + "");
    assert ")" + "" == ")";
    assert |"(" + (ToString(e) + ")")| != |ToString(e)|;
  }

  lemma {:induction false} SlotWrapped(e: Expr, level: Prec, k: string)
    ensures Slot(e, level, k) == Wrapped(e, level) + k
  {
    SlotExact(e, level);
    PartAppends(Child(Build(e), level), k);
  }

  lemma {:induction false} ListWrapped(es: List<Expr>, k: string)
    ensures PartsText(ListParts(es), k) == Intercalate(", ", WrappedTexts(es)) + k
    decreases es
  {
    match es
    case Nil => assert "" + k == k;
    case Cons(e, Nil) =>
      SlotWrapped(e, Anything, k);
      Parts1(Child(Build(e), kExtract), k);
      assert WrappedTexts(Nil) == [];
      assert Intercalate(", ", [Wrapped(e, Anything)]) == Wrapped(e, Anything);
    case Cons(e, rest) =>
      var t := Intercalate(", ", WrappedTexts(rest));
      ListWrapped(rest, k);
      SlotWrapped(e, Anything, ", " + (t + k));
      PartsConcat([Child(Build(e), kExtract), Part.Text(", ")], ListParts(rest), k);
      Parts2(Child(Build(e), kExtract), Part.Text(", "), t + k);
      IntercalateCons(Wrapped(e, Anything), WrappedTexts(rest));
      Assoc3(Wrapped(e, Anything), ", ", t, k);
  }

  /** Every rendered expression is put together from the texts of its operands with brackets
      around exactly those whose operator does not bind tighter. */
  lemma {:induction false} BracketsExact(e: Expr)
    ensures ToString(e) == Assembled(e)
  {
    match e
    case Infix(op, a, b) => InfixExact(op, a, b);
    case Prefix(op, a) =>
      BarePrefix(op, a, "");
      SlotExact(a, PrefixLevel(op));
    case Postfix(op, a) =>
      BarePostfix(op, a, "");
      SlotWrapped(a, PostfixLevel(op), PostfixText(op) + "");
      assert PostfixText(op) + "" == PostfixText(op);
    case Between(_, _, _, _) => BetweenExact(e);
    case Suffix(op, a, body) => SuffixExact(op, a, body);
    case Call(_, _, _, _) => CallExact(e);
    case Cast(a, typ) =>
      var t := " AS " + (Spell(typ) + ")");
      BareCast(a, typ, "");
      SlotWrapped(a, TypecastLevel, t + "");
      assert t + "" == t;
    case Case(_, _) => CaseByWord(e);
    case Leaf(_) => AtomExact(e);
    case NegNum(_) => AtomExact(e);
    case Exists(_) => AtomExact(e);
    case NotExists(_) => AtomExact(e);
    case Scalar(_) => AtomExact(e);
  }

  lemma {:induction false} AtomExact(e: Expr)
    requires e.Leaf? || e.NegNum? || e.Exists? || e.NotExists? || e.Scalar?
    ensures ToString(e) == Assembled(e)
  {
    var t := Assembled(e);
    assert Build(e).parts == [Part.Text(t)];
    BareLeaf(e, t, "");
    assert t + "" == t;
  }

  lemma {:induction false} InfixExact(op: InfixOp, a: Expr, b: Expr)
    ensures ToString(Infix(op, a, b)) == Wrapped(a, InfixLevel(op)) + (InfixText(op) + Wrapped(b, InfixLevel(op)))
  {
    BareInfix(op, a, b, "");
    SlotExact(b, InfixLevel(op));
    SlotWrapped(a, InfixLevel(op), InfixText(op) + Wrapped(b, InfixLevel(op)));
  }

  lemma {:induction false} BetweenExact(e: Expr)
    requires e.Between?
    ensures ToString(e) == Assembled(e)
  {
    var Between(neg, a, lo, hi) := e;
    var t := " AND " + Wrapped(hi, BetweenLevel);
    BareBetween(neg, a, lo, hi, "");
    SlotExact(hi, BetweenLevel);
    SlotWrapped(lo, BetweenLevel, t);
    SlotWrapped(a, BetweenLevel, BetweenText(neg) + (Wrapped(lo, BetweenLevel) + t));
  }

  lemma {:induction false} SuffixExact(op: SuffixOp, a: Expr, body: Body)
    ensures ToString(Suffix(op, a, body)) == Assembled(Suffix(op, a, body))
  {
    match body
    case Exprs(es) =>
      BareExprs(op, a, es, "");
      ListWrapped(es, CloseText(op));
      assert CloseText(op) + "" == CloseText(op);
      SlotWrapped(a, SuffixLevel(op), SuffixText(op) + BodyText(op, body));
    case Sub(q) =>
      var t := SuffixText(op) + Bracketed(q);
      BareSub(op, a, q, "");
      assert t + "" == t;
      SlotWrapped(a, SuffixLevel(op), t);
  }

  lemma {:induction false} CallExact(e: Expr)
    requires e.Call?
    ensures ToString(e) == Assembled(e)
  {
    var Call(quals, name, distinct, args) := e;
    var list := Intercalate(", ", WrappedTexts(args)) + ")";
    BareCall(quals, name, distinct, args, "");
    assert ")" + "" == ")";
    ListWrapped(args, ")");
    Assoc4(QualText(quals), name, "(", if distinct then "DISTINCT " else "", list);
  }

  /** `(x || y) && z` and `x || (y && z)`: the brackets of the first cannot be left out, the
      second needs none. */
  lemma {:induction false} LogicBrackets(x: Expr, y: Expr, z: Expr)
    requires OperatorLevel(x) < 15 && OperatorLevel(y) < 15 && OperatorLevel(z) < 15
    ensures ToString(Infix(AndOp, Infix(OrOp, x, y), z)) ==
      "(" + ((ToString(x) + (" OR " + ToString(y))) + ")") + (" AND " + ToString(z))
    ensures ToString(Infix(OrOp, x, Infix(AndOp, y, z))) ==
      ToString(x) + (" OR " + (ToString(y) + (" AND " + ToString(z))))
  {
    InfixExact(OrOp, x, y);
    InfixExact(AndOp, Infix(OrOp, x, y), z);
    InfixExact(AndOp, y, z);
    InfixExact(OrOp, x, Infix(AndOp, y, z));
  }
}
