/** The token sequence each tree prints, in front of a given continuation. Brackets are
    placed by the rule of impl::node.cpp: a child is bracketed iff its precedence is not
    below the context of its slot. */
module Printer {
  import opened Basics
  import opened Precedence
  import opened Tokens
  import opened Syntax
  import opened Numerals

  function NotToken(neg: bool, k: Tokens): Tokens {
    if neg then Cons(Kw(NOT), k) else k
  }

  function LikeTokens(kind: LikeKind, k: Tokens): Tokens {
    match kind
    case Like => Cons(Kw(LIKE), k)
    case ILike => Cons(Kw(ILIKE), k)
    case SimilarTo => Cons(Kw(SIMILAR), Cons(Kw(TO), k))
  }

  function InfixTokens(op: InfixOp, k: Tokens): Tokens {
    match op
    case Sym(name, _) => Cons(Op(name), k)
    case Member => Cons(Period, k)
    case AndOp => Cons(Kw(AND), k)
    case OrOp => Cons(Kw(OR), k)
    case LikeOp(neg, kind) => NotToken(neg, LikeTokens(kind, k))
    case DistinctFrom(neg) => Cons(Kw(IS), NotToken(neg, Cons(Kw(DISTINCT), Cons(Kw(FROM), k))))
  }

  function PrefixTokens(op: PrefixOp, k: Tokens): Tokens {
    match op
    case Minus => Cons(Op("-"), k)
    case NotOp => Cons(Kw(NOT), k)
    case Custom(name, _) => Cons(Op(name), k)
  }

  function PostfixTokens(op: PostfixOp, k: Tokens): Tokens {
    match op
    case IsTrue => Cons(Kw(IS), Cons(Kw(TRUE), k))
    case IsFalse => Cons(Kw(IS), Cons(Kw(FALSE), k))
    case IsNull => Cons(Kw(IS), Cons(Kw(NULL), k))
    case IsNotNull => Cons(Kw(IS), Cons(Kw(NOT), Cons(Kw(NULL), k)))
    case CollateOp(c) => Cons(Kw(COLLATE), Cons(c, k))
  }

  function SuffixTokens(op: SuffixOp, k: Tokens): Tokens {
    match op
    case Subscript => Cons(LBracket, k)
    case InOp(neg) => NotToken(neg, Cons(Kw(IN), Cons(LParen, k)))
    case EqAny => Cons(Op("="), Cons(Kw(ANY), Cons(LParen, k)))
    case NeAll => Cons(Op("<>"), Cons(Kw(ALL), Cons(LParen, k)))
  }

  function SuffixClose(op: SuffixOp): Token {
    if op.Subscript? then RBracket else RParen
  }

  function PathTokens(path: List<Token>, k: Tokens): Tokens {
    match path
    case Nil => k
    case Cons(n, Nil) => Cons(n, k)
    case Cons(n, rest) => Cons(n, Cons(Period, PathTokens(rest, k)))
  }

  function QualTokens(quals: List<Token>, k: Tokens): Tokens {
    match quals
    case Nil => k
    case Cons(n, rest) => Cons(n, Cons(Period, QualTokens(rest, k)))
  }

  // ---- expressions

  function PrintIn(e: Expr, c: Prec, k: Tokens): Tokens
    decreases e, 1
  {
    if Rank(e) >= c then Cons(LParen, Print(e, Cons(RParen, k))) else Print(e, k)
  }

  function Print(e: Expr, k: Tokens): Tokens
    decreases e, 0
  {
    match e
    case Leaf(tok) => Cons(tok, k)
    case NegNum(d) => Cons(Op("-"), Cons(Num(d), k))
    case Infix(op, a, b) =>
      PrintIn(a, InfixRank(op), InfixTokens(op, PrintIn(b, InfixRank(op), k)))
    case Prefix(op, a) => PrefixTokens(op, PrintIn(a, PrefixRank(op), k))
    case Postfix(op, a) => PrintIn(a, PostfixRank(op), PostfixTokens(op, k))
    case Between(neg, a, lo, hi) =>
      PrintIn(a, kBetween, NotToken(neg, Cons(Kw(BETWEEN),
        PrintIn(lo, kBetween, Cons(Kw(AND), PrintIn(hi, kBetween, k))))))
    case Suffix(op, a, body) =>
      PrintIn(a, SuffixRank(op), SuffixTokens(op, PrintBody(body, Cons(SuffixClose(op), k))))
    case Call(quals, name, distinct, args) =>
      QualTokens(quals, Cons(Word(name), Cons(LParen,
        PrintArgs(distinct, args, Cons(RParen, k)))))
    case Cast(a, typ) =>
      Cons(Kw(CAST), Cons(LParen, PrintIn(a, kTypecast, Cons(Kw(AS), Cons(typ, Cons(RParen, k))))))
    case Case(whens, els) => Cons(Kw(CASE), PrintWhens(whens, PrintClause(ELSE, els, Cons(Kw(END), k))))
    case Exists(q) => Cons(Kw(EXISTS), Cons(LParen, PrintRel(q, Cons(RParen, k))))
    case NotExists(q) =>
      Cons(Kw(NOT), Cons(Kw(EXISTS), Cons(LParen, PrintRel(q, Cons(RParen, k)))))
    case Scalar(q) => Cons(LParen, PrintRel(q, Cons(RParen, k)))
  }

  function PrintArgs(distinct: bool, args: List<Expr>, k: Tokens): Tokens
    decreases args, 1
  {
    if distinct then Cons(Kw(DISTINCT), PrintList(args, k)) else PrintList(args, k)
  }

  function PrintBody(body: Body, k: Tokens): Tokens
    decreases body
  {
    match body
    case Exprs(es) => PrintList(es, k)
    case Sub(q) => PrintRel(q, k)
  }

  function PrintList(es: List<Expr>, k: Tokens): Tokens
    decreases es, 0
  {
    match es
    case Nil => k
    case Cons(e, Nil) => PrintIn(e, kExtract, k)
    case Cons(e, rest) => PrintIn(e, kExtract, Cons(Comma, PrintList(rest, k)))
  }

  function PrintWhens(ws: List<When>, k: Tokens): Tokens
    decreases ws
  {
    match ws
    case Nil => k
    case Cons(w, rest) =>
      Cons(Kw(WHEN), PrintIn(w.cond, kExtract,
        Cons(Kw(THEN), PrintIn(w.result, kExtract, PrintWhens(rest, k)))))
  }

  // ---- table values and statements

  function PrintBracketed(r: Rel, k: Tokens): Tokens
    decreases r, 2
  {
    if r.Table? || r.Alias? then PrintRel(r, k) else Cons(LParen, PrintRel(r, Cons(RParen, k)))
  }

  function PrintRel(r: Rel, k: Tokens): Tokens
    decreases r, 1
  {
    match r
    case Table(path) => PathTokens(path, k)
    case Alias(x, name) => PrintBracketed(x, Cons(Kw(AS), PathTokens(name, k)))
    case Join(kind, a, b, qual) =>
      PrintBracketed(a, JoinTokens(kind, PrintBracketed(b, PrintQual(qual, k))))
    case Select(distinct, items, from, _, _, _, _, _, _) =>
      var k1 := Cons(Kw(FROM), PrintRel(from, PrintClauses(r, k)));
      Cons(Kw(SELECT), PrintDistinct(distinct, PrintItems(items, k1)))
    case SetOp(kind, a, b) => PrintBracketed(a, SetTokens(kind, PrintBracketed(b, k)))
    case With(ctes, main) => Cons(Kw(WITH), PrintCtes(ctes, PrintRel(main, k)))
  }

  /** The optional clauses after FROM. */
  function PrintClauses(r: Rel, k: Tokens): Tokens
    requires r.Select?
    decreases r, 0
  {
    var k1 := PrintInt(LIMIT, r.limit, PrintInt(OFFSET, r.offset, k));
    var k2 := PrintClause(HAVING, r.having, PrintOrder(r.order, k1));
    PrintClause(WHERE, r.where, PrintGroup(r.group, k2))
  }

  function JoinTokens(kind: JoinKind, k: Tokens): Tokens {
    match kind
    case Inner => Cons(Kw(INNER), Cons(Kw(JOIN), k))
    case Cross => Cons(Kw(CROSS), Cons(Kw(JOIN), k))
    case LeftOuter => Cons(Kw(LEFT), Cons(Kw(OUTER), Cons(Kw(JOIN), k)))
    case RightOuter => Cons(Kw(RIGHT), Cons(Kw(OUTER), Cons(Kw(JOIN), k)))
    case FullOuter => Cons(Kw(FULL), Cons(Kw(OUTER), Cons(Kw(JOIN), k)))
    case NaturalInner => Cons(Kw(NATURAL), Cons(Kw(INNER), Cons(Kw(JOIN), k)))
    case NaturalLeftOuter => Cons(Kw(NATURAL), Cons(Kw(LEFT), Cons(Kw(OUTER), Cons(Kw(JOIN), k))))
    case NaturalRightOuter => Cons(Kw(NATURAL), Cons(Kw(RIGHT), Cons(Kw(OUTER), Cons(Kw(JOIN), k))))
    case NaturalFullOuter => Cons(Kw(NATURAL), Cons(Kw(FULL), Cons(Kw(OUTER), Cons(Kw(JOIN), k))))
  }

  function SetTokens(kind: SetKind, k: Tokens): Tokens {
    match kind
    case Union => Cons(Kw(UNION), k)
    case UnionAll => Cons(Kw(UNION), Cons(Kw(ALL), k))
    case Intersect => Cons(Kw(INTERSECT), k)
    case Except => Cons(Kw(EXCEPT), k)
  }

  function PrintQual(qual: Qualifier, k: Tokens): Tokens
    decreases qual
  {
    match qual
    case NoQualifier => k
    case OnCond(c) => Cons(Kw(ON), PrintIn(c, kExtract, k))
    case UsingCols(cs) => Cons(Kw(USING), Cons(LParen, PrintList(cs, Cons(RParen, k))))
  }

  function PrintDistinct(d: Distinctness, k: Tokens): Tokens
    decreases d
  {
    match d
    case Plain => k
    case Distinct => Cons(Kw(DISTINCT), k)
    case DistinctOn(es) =>
      Cons(Kw(DISTINCT), Cons(Kw(ON), Cons(LParen, PrintList(es, Cons(RParen, k)))))
  }

  function AliasTokens(alias: Option<string>, k: Tokens): Tokens {
    match alias
    case None => k
    case Some(n) => Cons(Kw(AS), Cons(Word(n), k))
  }

  function PrintItems(items: List<Item>, k: Tokens): Tokens
    decreases items
  {
    match items
    case Nil => k
    case Cons(i, Nil) => PrintIn(i.e, kExtract, AliasTokens(i.alias, k))
    case Cons(i, rest) =>
      PrintIn(i.e, kExtract, AliasTokens(i.alias, Cons(Comma, PrintItems(rest, k))))
  }

  /** An optional clause: a keyword and one expression. */
  function PrintClause(kw: Keyword, o: Option<Expr>, k: Tokens): Tokens
    decreases o
  {
    match o
    case None => k
    case Some(e) => Cons(Kw(kw), PrintIn(e, kExtract, k))
  }

  function PrintGroup(o: Option<List<Expr>>, k: Tokens): Tokens
    decreases o
  {
    match o
    case None => k
    case Some(es) => Cons(Kw(GROUP), Cons(Kw(BY), PrintList(es, k)))
  }

  function NullsTokens(n: Nulls, k: Tokens): Tokens {
    match n
    case NullsDefault => k
    case NullsFirst => Cons(Kw(NULLS), Cons(Kw(FIRST), k))
    case NullsLast => Cons(Kw(NULLS), Cons(Kw(LAST), k))
  }

  function DirectionTokens(desc: bool, k: Tokens): Tokens {
    if desc then Cons(Kw(DESC), k) else k
  }

  function PrintTerms(terms: List<OrderTerm>, k: Tokens): Tokens
    decreases terms
  {
    match terms
    case Nil => k
    case Cons(t, Nil) => PrintIn(t.e, kExtract, DirectionTokens(t.desc, NullsTokens(t.nulls, k)))
    case Cons(t, rest) =>
      PrintIn(t.e, kExtract,
        DirectionTokens(t.desc, NullsTokens(t.nulls, Cons(Comma, PrintTerms(rest, k)))))
  }

  function PrintOrder(o: Option<List<OrderTerm>>, k: Tokens): Tokens
    decreases o
  {
    match o
    case None => k
    case Some(ts) => Cons(Kw(ORDER), Cons(Kw(BY), PrintTerms(ts, k)))
  }

  function IntTokens(n: int, k: Tokens): Tokens {
    if n < 0 then Cons(Op("-"), Cons(Num(DigitsOf(-n)), k)) else Cons(Num(DigitsOf(n)), k)
  }

  function PrintInt(kw: Keyword, o: Option<int>, k: Tokens): Tokens {
    match o
    case None => k
    case Some(n) => Cons(Kw(kw), IntTokens(n, k))
  }

  function PrintCtes(ctes: List<Cte>, k: Tokens): Tokens
    decreases ctes
  {
    match ctes
    case Nil => k
    case Cons(c, Nil) =>
      PathTokens(c.name, Cons(Kw(AS), Cons(LParen, PrintRel(c.query, Cons(RParen, k)))))
    case Cons(c, rest) =>
      PathTokens(c.name, Cons(Kw(AS), Cons(LParen, PrintRel(c.query,
        Cons(RParen, Cons(Comma, PrintCtes(rest, k)))))))
  }
}
