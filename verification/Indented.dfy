/** Trees whose quoted tokens are indented as the lines of a text are: they print the indented
    tokens, and stay well-formed. */
module Indented {
  import opened Basics
  import opened Precedence
  import opened Tokens
  import opened Numerals
  import opened Syntax
  import opened Printer
  import opened WellFormed
  import opened Layout

  // ---- trees with their quoted tokens indented

  function ShiftInfix(e: Expr, n: nat): Expr
    requires e.Infix? || e.Prefix? || e.Postfix? || e.Between?
    decreases e, 0
  {
    match e
    case Infix(op, a, b) => Infix(op, ShiftExpr(a, n), ShiftExpr(b, n))
    case Prefix(op, a) => Prefix(op, ShiftExpr(a, n))
    case Postfix(op, a) =>
      Postfix(if op.CollateOp? then CollateOp(IndentToken(op.collation, n)) else op, ShiftExpr(a, n))
    case Between(neg, a, lo, hi) => Between(neg, ShiftExpr(a, n), ShiftExpr(lo, n), ShiftExpr(hi, n))
  }

  function ShiftExpr(e: Expr, n: nat): Expr
    decreases e, 1
  {
    match e
    case Leaf(tok) => Leaf(IndentToken(tok, n))
    case NegNum(_) => e
    case Suffix(op, a, body) => Suffix(op, ShiftExpr(a, n), ShiftBody(body, n))
    case Call(quals, name, distinct, args) => Call(IndentTokens(quals, n), name, distinct, ShiftList(args, n))
    case Cast(a, typ) => Cast(ShiftExpr(a, n), IndentToken(typ, n))
    case Case(whens, els) => Case(ShiftWhens(whens, n), ShiftOption(els, n))
    case Exists(q) => Exists(ShiftRel(q, n))
    case NotExists(q) => NotExists(ShiftRel(q, n))
    case Scalar(q) => Scalar(ShiftRel(q, n))
    case _ => ShiftInfix(e, n)
  }

  function ShiftBody(body: Body, n: nat): Body
    decreases body
  {
    match body
    case Exprs(es) => Exprs(ShiftList(es, n))
    case Sub(q) => Sub(ShiftRel(q, n))
  }

  function ShiftList(es: List<Expr>, n: nat): List<Expr>
    decreases es
  {
    match es
    case Nil => Nil
    case Cons(e, rest) => Cons(ShiftExpr(e, n), ShiftList(rest, n))
  }

  function ShiftWhens(ws: List<When>, n: nat): List<When>
    decreases ws
  {
    match ws
    case Nil => Nil
    case Cons(w, rest) => Cons(When(ShiftExpr(w.cond, n), ShiftExpr(w.result, n)), ShiftWhens(rest, n))
  }

  function ShiftOption(o: Option<Expr>, n: nat): Option<Expr>
    decreases o
  {
    match o
    case None => None
    case Some(e) => Some(ShiftExpr(e, n))
  }

  function ShiftRel(r: Rel, n: nat): Rel
    decreases r
  {
    match r
    case Table(path) => Table(IndentTokens(path, n))
    case Alias(x, name) => Alias(ShiftRel(x, n), IndentTokens(name, n))
    case Join(kind, a, b, qual) => Join(kind, ShiftRel(a, n), ShiftRel(b, n), ShiftQual(qual, n))
    case Select(distinct, items, from, where, group, having, order, limit, offset) =>
      Select(ShiftDistinct(distinct, n), ShiftItems(items, n), ShiftRel(from, n), ShiftOption(where, n),
             ShiftGroup(group, n), ShiftOption(having, n), ShiftOrder(order, n), limit, offset)
    case SetOp(kind, a, b) => SetOp(kind, ShiftRel(a, n), ShiftRel(b, n))
    case With(ctes, main) => With(ShiftCtes(ctes, n), ShiftRel(main, n))
  }

  function ShiftQual(q: Qualifier, n: nat): Qualifier
    decreases q
  {
    match q
    case NoQualifier => q
    case OnCond(e) => OnCond(ShiftExpr(e, n))
    case UsingCols(es) => UsingCols(ShiftList(es, n))
  }

  function ShiftDistinct(dis: Distinctness, n: nat): Distinctness
    decreases dis
  {
    match dis
    case DistinctOn(es) => DistinctOn(ShiftList(es, n))
    case _ => dis
  }

  function ShiftItems(items: List<Item>, n: nat): List<Item>
    decreases items
  {
    match items
    case Nil => Nil
    case Cons(i, rest) => Cons(Item(ShiftExpr(i.e, n), i.alias), ShiftItems(rest, n))
  }

  function ShiftGroup(o: Option<List<Expr>>, n: nat): Option<List<Expr>>
    decreases o
  {
    match o
    case None => None
    case Some(es) => Some(ShiftList(es, n))
  }

  function ShiftOrder(o: Option<List<OrderTerm>>, n: nat): Option<List<OrderTerm>>
    decreases o
  {
    match o
    case None => None
    case Some(ts) => Some(ShiftTerms(ts, n))
  }

  function ShiftTerms(ts: List<OrderTerm>, n: nat): List<OrderTerm>
    decreases ts
  {
    match ts
    case Nil => Nil
    case Cons(t, rest) => Cons(OrderTerm(ShiftExpr(t.e, n), t.desc, t.nulls), ShiftTerms(rest, n))
  }

  function ShiftCtes(ctes: List<Cte>, n: nat): List<Cte>
    decreases ctes
  {
    match ctes
    case Nil => Nil
    case Cons(c, rest) => Cons(Cte(IndentTokens(c.name, n), ShiftRel(c.query, n)), ShiftCtes(rest, n))
  }

  // ---- the printed tokens are indented with the tree

  lemma {:induction false} ShiftRank(e: Expr, n: nat)
    ensures Rank(ShiftExpr(e, n)) == Rank(e) && HiddenRank(ShiftExpr(e, n)) == HiddenRank(e)
    ensures IsNumeric(ShiftExpr(e, n)) == IsNumeric(e)
  {
  }

  lemma {:induction false} ShiftPath(p: List<Token>, n: nat, k: Tokens)
    ensures IndentTokens(PathTokens(p, k), n) == PathTokens(IndentTokens(p, n), IndentTokens(k, n))
    ensures IndentTokens(QualTokens(p, k), n) == QualTokens(IndentTokens(p, n), IndentTokens(k, n))
    decreases p
  {
    if p.Cons? { ShiftPath(p.tail, n, k); }
  }

  /** Tokens that carry no text of the caller are left alone. */
  lemma {:induction false} ShiftWords(a: Token, b: Token, c: Token, d: Token, n: nat, k: Tokens)
    requires forall t :: t in {a, b, c, d} ==> IndentToken(t, n) == t
    ensures IndentTokens(Cons(d, k), n) == Cons(d, IndentTokens(k, n))
    ensures IndentTokens(Cons(c, Cons(d, k)), n) == Cons(c, Cons(d, IndentTokens(k, n)))
    ensures IndentTokens(Cons(b, Cons(c, Cons(d, k))), n) == Cons(b, Cons(c, Cons(d, IndentTokens(k, n))))
    ensures IndentTokens(Cons(a, Cons(b, Cons(c, Cons(d, k)))), n)
         == Cons(a, Cons(b, Cons(c, Cons(d, IndentTokens(k, n)))))
  {
    assert a in {a, b, c, d} && b in {a, b, c, d} && c in {a, b, c, d} && d in {a, b, c, d};
    assert IndentTokens(Cons(d, k), n) == Cons(d, IndentTokens(k, n));
    assert IndentTokens(Cons(c, Cons(d, k)), n) == Cons(c, IndentTokens(Cons(d, k), n));
    assert IndentTokens(Cons(b, Cons(c, Cons(d, k))), n) == Cons(b, IndentTokens(Cons(c, Cons(d, k)), n));
  }

  lemma {:induction false} ShiftWord(t: Token, n: nat, k: Tokens)
    ensures IndentTokens(Cons(t, k), n) == Cons(IndentToken(t, n), IndentTokens(k, n))
  {
  }

  lemma {:induction false} InfixShifts(op: InfixOp, n: nat, k: Tokens)
    ensures IndentTokens(InfixTokens(op, k), n) == InfixTokens(op, IndentTokens(k, n))
  {
    match op
    case Sym(name, _) => ShiftWord(Op(name), n, k);
    case Member => ShiftWord(Period, n, k);
    case AndOp => ShiftWord(Kw(AND), n, k);
    case OrOp => ShiftWord(Kw(OR), n, k);
    case LikeOp(_, Like) => ShiftWords(Kw(NOT), Kw(NOT), Kw(NOT), Kw(LIKE), n, k);
    case LikeOp(_, ILike) => ShiftWords(Kw(NOT), Kw(NOT), Kw(NOT), Kw(ILIKE), n, k);
    case LikeOp(_, SimilarTo) => ShiftWords(Kw(NOT), Kw(NOT), Kw(SIMILAR), Kw(TO), n, k);
    case DistinctFrom(false) => ShiftWords(Kw(IS), Kw(IS), Kw(DISTINCT), Kw(FROM), n, k);
    case DistinctFrom(true) => ShiftWords(Kw(IS), Kw(NOT), Kw(DISTINCT), Kw(FROM), n, k);
  }

  lemma {:induction false} PostfixShifts(op: PostfixOp, n: nat, k: Tokens)
    ensures IndentTokens(PostfixTokens(op, k), n) ==
      PostfixTokens(if op.CollateOp? then CollateOp(IndentToken(op.collation, n)) else op, IndentTokens(k, n))
  {
    match op
    case IsTrue => ShiftWords(Kw(IS), Kw(IS), Kw(IS), Kw(TRUE), n, k);
    case IsFalse => ShiftWords(Kw(IS), Kw(IS), Kw(IS), Kw(FALSE), n, k);
    case IsNull => ShiftWords(Kw(IS), Kw(IS), Kw(IS), Kw(NULL), n, k);
    case IsNotNull => ShiftWords(Kw(IS), Kw(IS), Kw(NOT), Kw(NULL), n, k);
    case CollateOp(c) =>
      ShiftWord(c, n, k);
      ShiftWord(Kw(COLLATE), n, Cons(c, k));
  }

  lemma {:induction false} SuffixShifts(op: SuffixOp, n: nat, k: Tokens)
    ensures IndentTokens(SuffixTokens(op, k), n) == SuffixTokens(op, IndentTokens(k, n))
  {
    match op
    case Subscript => ShiftWord(LBracket, n, k);
    case InOp(_) => ShiftWords(Kw(NOT), Kw(NOT), Kw(IN), LParen, n, k);
    case EqAny => ShiftWords(Op("="), Op("="), Kw(ANY), LParen, n, k);
    case NeAll => ShiftWords(Op("<>"), Op("<>"), Kw(ALL), LParen, n, k);
      ShiftWords(LParen, Op("<>"), Kw(ALL), LParen, n, k);
  }

  lemma {:induction false} JoinShifts(kind: JoinKind, n: nat, k: Tokens)
    ensures IndentTokens(JoinTokens(kind, k), n) == JoinTokens(kind, IndentTokens(k, n))
  {
    ShiftWords(Kw(JOIN), Kw(NATURAL), Kw(INNER), Kw(JOIN), n, k);
    ShiftWords(Kw(JOIN), Kw(JOIN), Kw(CROSS), Kw(JOIN), n, k);
    ShiftWords(Kw(NATURAL), Kw(LEFT), Kw(OUTER), Kw(JOIN), n, k);
    ShiftWords(Kw(NATURAL), Kw(RIGHT), Kw(OUTER), Kw(JOIN), n, k);
    ShiftWords(Kw(NATURAL), Kw(FULL), Kw(OUTER), Kw(JOIN), n, k);
  }

  lemma {:induction false} DirectionShifts(desc: bool, nulls: Nulls, n: nat, k: Tokens)
    ensures IndentTokens(DirectionTokens(desc, NullsTokens(nulls, k)), n)
         == DirectionTokens(desc, NullsTokens(nulls, IndentTokens(k, n)))
  {
    ShiftWord(Kw(DESC), n, k);
    ShiftWords(Kw(DESC), Kw(DESC), Kw(NULLS), Kw(FIRST), n, k);
    ShiftWords(Kw(DESC), Kw(DESC), Kw(NULLS), Kw(LAST), n, k);
  }

  lemma {:induction false} IntShifts(kw: Keyword, o: Option<int>, n: nat, k: Tokens)
    ensures IndentTokens(PrintInt(kw, o, k), n) == PrintInt(kw, o, IndentTokens(k, n))
  {
    if o.Some? {
      var digits := Num(DigitsOf(if o.value < 0 then -o.value else o.value));
      ShiftWords(digits, Kw(kw), Op("-"), digits, n, k);
      ShiftWords(digits, digits, Kw(kw), digits, n, k);
    }
  }

  lemma {:induction false} SlotShifts(e: Expr, c: Prec, n: nat, k: Tokens)
    ensures IndentTokens(PrintIn(e, c, k), n) == PrintIn(ShiftExpr(e, n), c, IndentTokens(k, n))
    decreases e, 1
  {
    ShiftRank(e, n);
    if Rank(e) >= c {
      ShiftWord(RParen, n, k);
      PrintShifts(e, n, Cons(RParen, k));
      ShiftWord(LParen, n, Print(e, Cons(RParen, k)));
    } else {
      PrintShifts(e, n, k);
    }
  }

  lemma {:induction false} PrintShifts(e: Expr, n: nat, k: Tokens)
    ensures IndentTokens(Print(e, k), n) == Print(ShiftExpr(e, n), IndentTokens(k, n))
    decreases e, 0
  {
    match e
    case Leaf(tok) => ShiftWord(tok, n, k);
    case NegNum(digits) => ShiftWords(Op("-"), Op("-"), Op("-"), Num(digits), n, k);
    case Infix(op, a, b) =>
      var k1 := PrintIn(b, InfixRank(op), k);
      SlotShifts(b, InfixRank(op), n, k);
      InfixShifts(op, n, k1);
      SlotShifts(a, InfixRank(op), n, InfixTokens(op, k1));
    case Prefix(op, a) =>
      SlotShifts(a, PrefixRank(op), n, k);
      ShiftWord(PrefixTokens(op, Nil).head, n, PrintIn(a, PrefixRank(op), k));
    case Postfix(op, a) =>
      PostfixShifts(op, n, k);
      SlotShifts(a, PostfixRank(op), n, PostfixTokens(op, k));
    case Between(_, _, _, _) => BetweenShifts(e, n, k);
    case Suffix(op, a, body) =>
      var k1 := PrintBody(body, Cons(SuffixClose(op), k));
      ShiftWord(SuffixClose(op), n, k);
      BodyShifts(body, n, Cons(SuffixClose(op), k));
      SuffixShifts(op, n, k1);
      SlotShifts(a, SuffixRank(op), n, SuffixTokens(op, k1));
    case Call(_, _, _, _) => CallShifts(e, n, k);
    case Cast(a, typ) =>
      var k1 := Cons(Kw(AS), Cons(typ, Cons(RParen, k)));
      ShiftWord(RParen, n, k);
      ShiftWord(typ, n, Cons(RParen, k));
      ShiftWord(Kw(AS), n, Cons(typ, Cons(RParen, k)));
      SlotShifts(a, kTypecast, n, k1);
      ShiftWords(LParen, LParen, Kw(CAST), LParen, n, PrintIn(a, kTypecast, k1));
    case Case(_, _) => CaseShifts(e, n, k);
    case Exists(q) => QueryShifts(q, n, k);
    case NotExists(q) => QueryShifts(q, n, k);
    case Scalar(q) => QueryShifts(q, n, k);
  }

  lemma {:induction false} BetweenShifts(e: Expr, n: nat, k: Tokens)
    requires e.Between?
    ensures IndentTokens(Print(e, k), n) == Print(ShiftExpr(e, n), IndentTokens(k, n))
    decreases e, 0, 0
  {
    var k3 := PrintIn(e.hi, kBetween, k);
    var k2 := Cons(Kw(AND), k3);
    var k1 := PrintIn(e.lo, kBetween, k2);
    SlotShifts(e.hi, kBetween, n, k);
    ShiftWord(Kw(AND), n, k3);
    SlotShifts(e.lo, kBetween, n, k2);
    ShiftWords(Kw(NOT), Kw(NOT), Kw(NOT), Kw(BETWEEN), n, k1);
    SlotShifts(e.a, kBetween, n, NotToken(e.neg, Cons(Kw(BETWEEN), k1)));
  }

  lemma {:induction false} CallShifts(e: Expr, n: nat, k: Tokens)
    requires e.Call?
    ensures IndentTokens(Print(e, k), n) == Print(ShiftExpr(e, n), IndentTokens(k, n))
    decreases e, 0, 0
  {
    var list := PrintList(e.args, Cons(RParen, k));
    var args := PrintArgs(e.distinct, e.args, Cons(RParen, k));
    ShiftWord(RParen, n, k);
    ListShifts(e.args, n, Cons(RParen, k));
    ShiftWord(Kw(DISTINCT), n, list);
    ShiftWords(LParen, LParen, Word(e.name), LParen, n, args);
    ShiftPath(e.quals, n, Cons(Word(e.name), Cons(LParen, args)));
  }

  lemma {:induction false} CaseShifts(e: Expr, n: nat, k: Tokens)
    requires e.Case?
    ensures IndentTokens(Print(e, k), n) == Print(ShiftExpr(e, n), IndentTokens(k, n))
    decreases e, 0, 0
  {
    var k2 := Cons(Kw(END), k);
    var k1 := PrintClause(ELSE, e.els, k2);
    ShiftWord(Kw(END), n, k);
    ClauseShifts(ELSE, e.els, n, k2);
    WhensShift(e.whens, n, k1);
    ShiftWord(Kw(CASE), n, PrintWhens(e.whens, k1));
  }

  lemma {:induction false} QueryShifts(q: Rel, n: nat, k: Tokens)
    ensures var ts := Cons(LParen, PrintRel(q, Cons(RParen, k)));
            var shifted := Cons(LParen, PrintRel(ShiftRel(q, n), Cons(RParen, IndentTokens(k, n))));
            IndentTokens(ts, n) == shifted &&
            IndentTokens(Cons(Kw(EXISTS), ts), n) == Cons(Kw(EXISTS), shifted) &&
            IndentTokens(Cons(Kw(NOT), Cons(Kw(EXISTS), ts)), n) == Cons(Kw(NOT), Cons(Kw(EXISTS), shifted))
    decreases q, 4
  {
    ShiftWord(RParen, n, k);
    RelShifts(q, n, Cons(RParen, k));
    ShiftWords(Kw(NOT), Kw(NOT), Kw(EXISTS), LParen, n, PrintRel(q, Cons(RParen, k)));
  }

  lemma {:induction false} BodyShifts(body: Body, n: nat, k: Tokens)
    ensures IndentTokens(PrintBody(body, k), n) == PrintBody(ShiftBody(body, n), IndentTokens(k, n))
    decreases body
  {
    match body
    case Exprs(es) => ListShifts(es, n, k);
    case Sub(q) => RelShifts(q, n, k);
  }

  lemma {:induction false} ListShifts(es: List<Expr>, n: nat, k: Tokens)
    ensures IndentTokens(PrintList(es, k), n) == PrintList(ShiftList(es, n), IndentTokens(k, n))
    decreases es
  {
    match es
    case Nil =>
    case Cons(e, rest) =>
      ListShifts(rest, n, k);
      ShiftWord(Comma, n, PrintList(rest, k));
      SlotShifts(e, kExtract, n, if rest.Nil? then k else Cons(Comma, PrintList(rest, k)));
  }

  lemma {:induction false} WhensShift(ws: List<When>, n: nat, k: Tokens)
    ensures IndentTokens(PrintWhens(ws, k), n) == PrintWhens(ShiftWhens(ws, n), IndentTokens(k, n))
    decreases ws
  {
    match ws
    case Nil =>
    case Cons(w, rest) =>
      var k2 := PrintIn(w.result, kExtract, PrintWhens(rest, k));
      var k1 := PrintIn(w.cond, kExtract, Cons(Kw(THEN), k2));
      WhensShift(rest, n, k);
      SlotShifts(w.result, kExtract, n, PrintWhens(rest, k));
      ShiftWord(Kw(THEN), n, k2);
      SlotShifts(w.cond, kExtract, n, Cons(Kw(THEN), k2));
      ShiftWord(Kw(WHEN), n, k1);
  }

  lemma {:induction false} ClauseShifts(kw: Keyword, o: Option<Expr>, n: nat, k: Tokens)
    ensures IndentTokens(PrintClause(kw, o, k), n) == PrintClause(kw, ShiftOption(o, n), IndentTokens(k, n))
    decreases o
  {
    if o.Some? {
      SlotShifts(o.value, kExtract, n, k);
      ShiftWord(Kw(kw), n, PrintIn(o.value, kExtract, k));
    }
  }

  lemma {:induction false} BracketedShifts(r: Rel, n: nat, k: Tokens)
    ensures IndentTokens(PrintBracketed(r, k), n) == PrintBracketed(ShiftRel(r, n), IndentTokens(k, n))
    decreases r, 2
  {
    if r.Table? || r.Alias? {
      RelShifts(r, n, k);
    } else {
      ShiftWord(RParen, n, k);
      RelShifts(r, n, Cons(RParen, k));
      ShiftWord(LParen, n, PrintRel(r, Cons(RParen, k)));
    }
  }

  lemma {:induction false} RelShifts(r: Rel, n: nat, k: Tokens)
    ensures IndentTokens(PrintRel(r, k), n) == PrintRel(ShiftRel(r, n), IndentTokens(k, n))
    decreases r, 1
  {
    match r
    case Table(path) => ShiftPath(path, n, k);
    case Alias(x, name) =>
      ShiftPath(name, n, k);
      ShiftWord(Kw(AS), n, PathTokens(name, k));
      BracketedShifts(x, n, Cons(Kw(AS), PathTokens(name, k)));
    case Join(kind, a, b, qual) =>
      var k1 := PrintQual(qual, k);
      QualShifts(qual, n, k);
      BracketedShifts(b, n, k1);
      JoinShifts(kind, n, PrintBracketed(b, k1));
      BracketedShifts(a, n, JoinTokens(kind, PrintBracketed(b, k1)));
    case Select(_, _, _, _, _, _, _, _, _) => SelectShifts(r, n, k);
    case SetOp(kind, a, b) =>
      BracketedShifts(b, n, k);
      SetShifts(kind, n, PrintBracketed(b, k));
      BracketedShifts(a, n, SetTokens(kind, PrintBracketed(b, k)));
    case With(ctes, main) =>
      RelShifts(main, n, k);
      CtesShift(ctes, n, PrintRel(main, k));
      ShiftWord(Kw(WITH), n, PrintCtes(ctes, PrintRel(main, k)));
  }

  lemma {:induction false} SetShifts(kind: SetKind, n: nat, k: Tokens)
    ensures IndentTokens(SetTokens(kind, k), n) == SetTokens(kind, IndentTokens(k, n))
  {
    ShiftWords(Kw(ALL), Kw(ALL), Kw(UNION), Kw(ALL), n, k);
  }

  lemma {:induction false} QualShifts(q: Qualifier, n: nat, k: Tokens)
    ensures IndentTokens(PrintQual(q, k), n) == PrintQual(ShiftQual(q, n), IndentTokens(k, n))
    decreases q
  {
    match q
    case NoQualifier =>
    case OnCond(e) =>
      SlotShifts(e, kExtract, n, k);
      ShiftWord(Kw(ON), n, PrintIn(e, kExtract, k));
    case UsingCols(es) =>
      ShiftWord(RParen, n, k);
      ListShifts(es, n, Cons(RParen, k));
      ShiftWords(LParen, LParen, Kw(USING), LParen, n, PrintList(es, Cons(RParen, k)));
  }

  lemma {:induction false} SelectShifts(r: Rel, n: nat, k: Tokens)
    requires r.Select?
    ensures IndentTokens(PrintRel(r, k), n) == PrintRel(ShiftRel(r, n), IndentTokens(k, n))
    decreases r, 0
  {
    var k3 := PrintClauses(r, k);
    var k2 := Cons(Kw(FROM), PrintRel(r.from, k3));
    var k1 := PrintItems(r.items, k2);
    ClausesShift(r, n, k);
    RelShifts(r.from, n, k3);
    ShiftWord(Kw(FROM), n, PrintRel(r.from, k3));
    ItemsShift(r.items, n, k2);
    DistinctShifts(r.distinct, n, k1);
    ShiftWord(Kw(SELECT), n, PrintDistinct(r.distinct, k1));
  }

  lemma {:induction false} DistinctShifts(dis: Distinctness, n: nat, k: Tokens)
    ensures IndentTokens(PrintDistinct(dis, k), n) == PrintDistinct(ShiftDistinct(dis, n), IndentTokens(k, n))
    decreases dis
  {
    ShiftWord(Kw(DISTINCT), n, k);
    if dis.DistinctOn? {
      ShiftWord(RParen, n, k);
      ListShifts(dis.on, n, Cons(RParen, k));
      ShiftWords(LParen, Kw(DISTINCT), Kw(ON), LParen, n, PrintList(dis.on, Cons(RParen, k)));
    }
  }

  lemma {:induction false} ClausesShift(r: Rel, n: nat, k: Tokens)
    requires r.Select?
    ensures IndentTokens(PrintClauses(r, k), n) == PrintClauses(ShiftRel(r, n), IndentTokens(k, n))
    decreases r, 0, 0
  {
    var k4 := PrintInt(OFFSET, r.offset, k);
    var k3 := PrintInt(LIMIT, r.limit, k4);
    var k2 := PrintOrder(r.order, k3);
    var k1 := PrintClause(HAVING, r.having, k2);
    IntShifts(OFFSET, r.offset, n, k);
    IntShifts(LIMIT, r.limit, n, k4);
    OrderShifts(r.order, n, k3);
    ClauseShifts(HAVING, r.having, n, k2);
    GroupShifts(r.group, n, k1);
    ClauseShifts(WHERE, r.where, n, PrintGroup(r.group, k1));
  }

  lemma {:induction false} GroupShifts(o: Option<List<Expr>>, n: nat, k: Tokens)
    ensures IndentTokens(PrintGroup(o, k), n) == PrintGroup(ShiftGroup(o, n), IndentTokens(k, n))
    decreases o
  {
    if o.Some? {
      ListShifts(o.value, n, k);
      ShiftWords(Kw(BY), Kw(BY), Kw(GROUP), Kw(BY), n, PrintList(o.value, k));
    }
  }

  lemma {:induction false} OrderShifts(o: Option<List<OrderTerm>>, n: nat, k: Tokens)
    ensures IndentTokens(PrintOrder(o, k), n) == PrintOrder(ShiftOrder(o, n), IndentTokens(k, n))
    decreases o
  {
    if o.Some? {
      TermsShift(o.value, n, k);
      ShiftWords(Kw(BY), Kw(BY), Kw(ORDER), Kw(BY), n, PrintTerms(o.value, k));
    }
  }

  lemma {:induction false} ItemsShift(items: List<Item>, n: nat, k: Tokens)
    ensures IndentTokens(PrintItems(items, k), n) == PrintItems(ShiftItems(items, n), IndentTokens(k, n))
    decreases items
  {
    match items
    case Nil =>
    case Cons(i, rest) =>
      var k1 := if rest.Nil? then k else Cons(Comma, PrintItems(rest, k));
      ItemsShift(rest, n, k);
      ShiftWord(Comma, n, PrintItems(rest, k));
      AliasShifts(i.alias, n, k1);
      SlotShifts(i.e, kExtract, n, AliasTokens(i.alias, k1));
  }

  lemma {:induction false} AliasShifts(alias: Option<string>, n: nat, k: Tokens)
    ensures IndentTokens(AliasTokens(alias, k), n) == AliasTokens(alias, IndentTokens(k, n))
  {
    if alias.Some? {
      ShiftWords(Word(alias.value), Word(alias.value), Kw(AS), Word(alias.value), n, k);
    }
  }

  lemma {:induction false} TermsShift(terms: List<OrderTerm>, n: nat, k: Tokens)
    ensures IndentTokens(PrintTerms(terms, k), n) == PrintTerms(ShiftTerms(terms, n), IndentTokens(k, n))
    decreases terms
  {
    match terms
    case Nil =>
    case Cons(t, rest) =>
      var k1 := if rest.Nil? then k else Cons(Comma, PrintTerms(rest, k));
      TermsShift(rest, n, k);
      ShiftWord(Comma, n, PrintTerms(rest, k));
      DirectionShifts(t.desc, t.nulls, n, k1);
      SlotShifts(t.e, kExtract, n, DirectionTokens(t.desc, NullsTokens(t.nulls, k1)));
  }

  lemma {:induction false} CtesShift(ctes: List<Cte>, n: nat, k: Tokens)
    ensures IndentTokens(PrintCtes(ctes, k), n) == PrintCtes(ShiftCtes(ctes, n), IndentTokens(k, n))
    decreases ctes
  {
    match ctes
    case Nil =>
    case Cons(c, rest) =>
      var k1 := if rest.Nil? then k else Cons(Comma, PrintCtes(rest, k));
      var body := Cons(LParen, PrintRel(c.query, Cons(RParen, k1)));
      CtesShift(rest, n, k);
      ShiftWord(Comma, n, PrintCtes(rest, k));
      QueryShifts(c.query, n, k1);
      ShiftWord(Kw(AS), n, body);
      ShiftPath(c.name, n, Cons(Kw(AS), body));
  }

  // ---- a tree stays well-formed

  lemma {:induction false} ShiftEdge(e: Expr, c: Prec, n: nat)
    ensures EdgeRank(ShiftExpr(e, n), c) == EdgeRank(e, c)
    decreases e
  {
    ShiftRank(e, n);
    match e
    case Infix(op, _, b) => ShiftEdge(b, InfixRank(op), n);
    case Between(_, _, _, hi) => ShiftEdge(hi, kBetween, n);
    case Prefix(op, a) => ShiftEdge(a, PrefixRank(op), n);
    case _ =>
  }

  lemma {:induction false} ShiftStarts(e: Expr, c: Prec, n: nat)
    ensures StartsWithOperator(ShiftExpr(e, n), c) == StartsWithOperator(e, c)
    decreases e
  {
    ShiftRank(e, n);
    match e
    case Infix(op, a, _) => ShiftStarts(a, InfixRank(op), n);
    case Postfix(op, a) => ShiftStarts(a, PostfixRank(op), n);
    case Between(_, a, _, _) => ShiftStarts(a, kBetween, n);
    case Suffix(op, a, _) => ShiftStarts(a, SuffixRank(op), n);
    case _ =>
  }

  lemma {:induction false} ShiftPathOk(p: List<Token>, n: nat)
    requires PathOk(p)
    ensures PathOk(IndentTokens(p, n)) && (AllWords(p) ==> IndentTokens(p, n) == p)
    decreases p
  {
    if p.tail.Cons? { ShiftPathOk(p.tail, n); }
  }

  lemma {:induction false} ShiftSlots(op: InfixOp, a: Expr, b: Expr, n: nat)
    ensures LeftOk(ShiftExpr(a, n), InfixRank(op)) == LeftOk(a, InfixRank(op))
    ensures RightOk(ShiftExpr(b, n), InfixRank(op)) == RightOk(b, InfixRank(op))
  {
    ShiftEdge(a, InfixRank(op), n);
    ShiftRank(b, n);
  }

  lemma {:induction false} ShiftOk(m: Strict, e: Expr, n: nat)
    requires ExprOk(m, e)
    ensures ExprOk(m, ShiftExpr(e, n))
    decreases e, 1
  {
    match e
    case Leaf(_) =>
    case NegNum(_) =>
    case Suffix(op, a, body) =>
      ShiftOk(m, a, n);
      ShiftEdge(a, SuffixRank(op), n);
      ShiftBodyOk(m, op, body, n);
    case Call(quals, _, _, args) =>
      if quals.Cons? { ShiftPathOk(quals, n); }
      ShiftListOk(m, args, n);
    case Cast(a, _) => ShiftOk(m, a, n);
    case Case(whens, els) =>
      ShiftWhensOk(m, whens, n);
      ShiftOptionOk(m, els, n);
    case Exists(q) => ShiftRelOk(m, q, n);
    case NotExists(q) => ShiftRelOk(m, q, n);
    case Scalar(q) => ShiftRelOk(m, q, n);
    case _ => ShiftInfixOk(m, e, n);
  }

  lemma {:induction false} ShiftInfixOk(m: Strict, e: Expr, n: nat)
    requires ExprOk(m, e) && (e.Infix? || e.Prefix? || e.Postfix? || e.Between?)
    ensures ExprOk(m, ShiftExpr(e, n))
    decreases e, 0
  {
    ShiftOk(m, e.a, n);
    ShiftRank(e.a, n);
    match e
    case Infix(op, a, b) =>
      ShiftOk(m, b, n);
      ShiftRank(b, n);
      ShiftSlots(op, a, b, n);
    case Prefix(op, a) => ShiftStarts(a, kUnaryPlus, n);
    case Postfix(op, a) => ShiftEdge(a, PostfixRank(op), n);
    case Between(_, a, lo, hi) =>
      ShiftEdge(a, kBetween, n);
      ShiftOk(m, lo, n);
      ShiftOk(m, hi, n);
  }

  lemma {:induction false} ShiftBodyOk(m: Strict, op: SuffixOp, body: Body, n: nat)
    requires BodyOk(m, op, body)
    ensures BodyOk(m, op, ShiftBody(body, n))
    decreases body
  {
    match body
    case Exprs(es) => ShiftListOk(m, es, n);
    case Sub(q) => ShiftRelOk(m, q, n);
  }

  lemma {:induction false} ShiftListOk(m: Strict, es: List<Expr>, n: nat)
    requires ListOk(m, es)
    ensures ListOk(m, ShiftList(es, n)) && (es.Cons? ==> (ShiftList(es, n).tail.Nil? <==> es.tail.Nil?))
    decreases es
  {
    if es.Cons? {
      ShiftOk(m, es.head, n);
      ShiftListOk(m, es.tail, n);
    }
  }

  lemma {:induction false} ShiftWhensOk(m: Strict, ws: List<When>, n: nat)
    requires WhensOk(m, ws)
    ensures WhensOk(m, ShiftWhens(ws, n))
    decreases ws
  {
    if ws.Cons? {
      ShiftOk(m, ws.head.cond, n);
      ShiftOk(m, ws.head.result, n);
      ShiftWhensOk(m, ws.tail, n);
    }
  }

  lemma {:induction false} ShiftOptionOk(m: Strict, o: Option<Expr>, n: nat)
    requires OptionOk(m, o)
    ensures OptionOk(m, ShiftOption(o, n))
    decreases o
  {
    if o.Some? { ShiftOk(m, o.value, n); }
  }

  lemma {:induction false} ShiftRelOk(m: Strict, r: Rel, n: nat)
    requires RelOk(m, r)
    ensures RelOk(m, ShiftRel(r, n)) && IsQuery(ShiftRel(r, n)) == IsQuery(r)
    ensures IsFromItem(ShiftRel(r, n)) == IsFromItem(r)
    decreases r, 1
  {
    match r
    case Table(path) => ShiftPathOk(path, n);
    case Alias(x, name) =>
      ShiftRelOk(m, x, n);
      ShiftPathOk(name, n);
    case Join(_, a, b, qual) =>
      ShiftRelOk(m, a, n);
      ShiftRelOk(m, b, n);
      match qual {
        case NoQualifier =>
        case OnCond(e) => ShiftOk(m, e, n);
        case UsingCols(es) => ShiftListOk(m, es, n);
      }
    case Select(_, _, _, _, _, _, _, _, _) => ShiftSelectOk(m, r, n);
    case SetOp(_, a, b) =>
      ShiftRelOk(m, a, n);
      ShiftRelOk(m, b, n);
    case With(ctes, main) =>
      ShiftCtesOk(m, ctes, n);
      ShiftRelOk(m, main, n);
  }

  lemma {:induction false} ShiftSelectOk(m: Strict, r: Rel, n: nat)
    requires r.Select? && RelOk(m, r)
    ensures RelOk(m, ShiftRel(r, n))
    decreases r, 0
  {
    ShiftDistinctOk(m, r.distinct, n);
    ShiftItemsOk(m, r.items, n);
    ShiftRelOk(m, r.from, n);
    ShiftClausesOk(m, r, n);
  }

  lemma {:induction false} ShiftDistinctOk(m: Strict, dis: Distinctness, n: nat)
    requires DistinctOk(m, dis)
    ensures DistinctOk(m, ShiftDistinct(dis, n))
    decreases dis
  {
    if dis.DistinctOn? { ShiftListOk(m, dis.on, n); }
  }

  lemma {:induction false} ShiftClausesOk(m: Strict, r: Rel, n: nat)
    requires r.Select? && ClausesOk(m, r)
    ensures ClausesOk(m, ShiftRel(r, n))
    decreases r, 0, 0
  {
    ShiftOptionOk(m, r.where, n);
    ShiftGroupOk(m, r.group, n);
    ShiftOptionOk(m, r.having, n);
    ShiftOrderOk(m, r.order, n);
  }

  lemma {:induction false} ShiftGroupOk(m: Strict, o: Option<List<Expr>>, n: nat)
    requires GroupOk(m, o)
    ensures GroupOk(m, ShiftGroup(o, n))
    decreases o
  {
    if o.Some? { ShiftListOk(m, o.value, n); }
  }

  lemma {:induction false} ShiftOrderOk(m: Strict, o: Option<List<OrderTerm>>, n: nat)
    requires OrderOk(m, o)
    ensures OrderOk(m, ShiftOrder(o, n))
    decreases o
  {
    if o.Some? { ShiftTermsOk(m, o.value, n); }
  }

  lemma {:induction false} ShiftItemsOk(m: Strict, items: List<Item>, n: nat)
    requires ItemsOk(m, items)
    ensures ItemsOk(m, ShiftItems(items, n))
    decreases items
  {
    if items.Cons? {
      ShiftOk(m, items.head.e, n);
      ShiftItemsOk(m, items.tail, n);
    }
  }

  lemma {:induction false} ShiftTermsOk(m: Strict, terms: List<OrderTerm>, n: nat)
    requires TermsOk(m, terms)
    ensures TermsOk(m, ShiftTerms(terms, n))
    decreases terms
  {
    if terms.Cons? {
      ShiftOk(m, terms.head.e, n);
      ShiftTermsOk(m, terms.tail, n);
    }
  }

  lemma {:induction false} ShiftCtesOk(m: Strict, ctes: List<Cte>, n: nat)
    requires CtesOk(m, ctes)
    ensures CtesOk(m, ShiftCtes(ctes, n))
    decreases ctes
  {
    if ctes.Cons? {
      ShiftPathOk(ctes.head.name, n);
      ShiftRelOk(m, ctes.head.query, n);
      ShiftCtesOk(m, ctes.tail, n);
    }
  }
}
