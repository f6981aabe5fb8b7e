/** Brackets and commas: what a tree prints is nested properly, and outside all brackets an
    expression has no comma, so rendered lists split back into their elements. */
module Balance {
  import opened Basics
  import opened Precedence
  import opened Tokens
  import opened Numerals
  import opened Syntax
  import opened Printer
  import opened WellFormed

  /** The brackets open behind one more token, the innermost first, each as the token that
      closes it. None for a closing token that does not fit, a comma outside all brackets,
      and text with no reading. */
  function Step(t: Token, open: List<Token>): Option<List<Token>> {
    if t == LParen then Some(Cons(RParen, open))
    else if t == LBracket then Some(Cons(RBracket, open))
    else if t == RParen || t == RBracket then
      if open.Cons? && open.head == t then Some(open.tail) else None
    else if t.Bad? || (t == Comma && open.Nil?) then None
    else Some(open)
  }

  function Scan(ts: Tokens, open: List<Token>): Option<List<Token>>
    decreases ts
  {
    match ts
    case Nil => Some(open)
    case Cons(t, rest) =>
      var next := Step(t, open);
      if next.None? then None else Scan(rest, next.value)
  }

  /** Every bracket is closed by its own kind, no earlier one is left open, and no comma
      stands outside all brackets. */
  predicate Balanced(ts: Tokens) {
    Scan(ts, Nil) == Some(Nil)
  }

  // ---- the tokens of a tree leave the open brackets as they were

  lemma {:induction false} WordsScan(a: Token, b: Token, c: Token, d: Token, open: List<Token>, k: Tokens)
    requires Atomic(a) && Atomic(b) && Atomic(c) && Atomic(d)
    ensures Scan(Cons(d, k), open) == Scan(k, open)
    ensures Scan(Cons(c, Cons(d, k)), open) == Scan(k, open)
    ensures Scan(Cons(b, Cons(c, Cons(d, k))), open) == Scan(k, open)
    ensures Scan(Cons(a, Cons(b, Cons(c, Cons(d, k)))), open) == Scan(k, open)
  {
    assert Scan(Cons(d, k), open) == Scan(k, open);
    assert Scan(Cons(c, Cons(d, k)), open) == Scan(Cons(d, k), open);
    assert Scan(Cons(b, Cons(c, Cons(d, k))), open) == Scan(Cons(c, Cons(d, k)), open);
  }

  lemma {:induction false} OpenScans(open: List<Token>, k: Tokens)
    ensures Scan(Cons(LParen, k), open) == Scan(k, Cons(RParen, open))
    ensures Scan(Cons(LBracket, k), open) == Scan(k, Cons(RBracket, open))
    ensures Scan(Cons(RParen, k), Cons(RParen, open)) == Scan(k, open)
    ensures Scan(Cons(RBracket, k), Cons(RBracket, open)) == Scan(k, open)
    ensures open.Cons? ==> Scan(Cons(Comma, k), open) == Scan(k, open)
  {
  }

  lemma {:induction false} WordScans(t: Token, open: List<Token>, k: Tokens)
    requires Atomic(t)
    ensures Scan(Cons(t, k), open) == Scan(k, open)
  {
  }

  lemma {:induction false} PathScans(p: List<Token>, open: List<Token>, k: Tokens)
    requires AllAtomic(p)
    ensures Scan(PathTokens(p, k), open) == Scan(k, open) == Scan(QualTokens(p, k), open)
    decreases p
  {
    if p.Cons? { PathScans(p.tail, open, k); }
  }

  lemma {:induction false} NamesAtomic(p: List<Token>)
    requires p.Nil? || PathOk(p)
    ensures AllAtomic(p)
    decreases p
  {
    if p.Cons? { NamesAtomic(p.tail); }
  }

  lemma {:induction false} InfixScans(op: InfixOp, open: List<Token>, k: Tokens)
    ensures Scan(InfixTokens(op, k), open) == Scan(k, open)
  {
    match op
    case Sym(name, _) => WordScans(Op(name), open, k);
    case Member => WordScans(Period, open, k);
    case AndOp => WordScans(Kw(AND), open, k);
    case OrOp => WordScans(Kw(OR), open, k);
    case LikeOp(_, Like) => WordsScan(Kw(NOT), Kw(NOT), Kw(NOT), Kw(LIKE), open, k);
    case LikeOp(_, ILike) => WordsScan(Kw(NOT), Kw(NOT), Kw(NOT), Kw(ILIKE), open, k);
    case LikeOp(_, SimilarTo) => WordsScan(Kw(NOT), Kw(NOT), Kw(SIMILAR), Kw(TO), open, k);
    case DistinctFrom(false) => WordsScan(Kw(IS), Kw(IS), Kw(DISTINCT), Kw(FROM), open, k);
    case DistinctFrom(true) => WordsScan(Kw(IS), Kw(NOT), Kw(DISTINCT), Kw(FROM), open, k);
  }

  lemma {:induction false} PostfixScans(m: Rules, op: PostfixOp, open: List<Token>, k: Tokens)
    requires PostfixOk(m, op)
    ensures Scan(PostfixTokens(op, k), open) == Scan(k, open)
  {
    match op
    case IsTrue => WordsScan(Kw(IS), Kw(IS), Kw(IS), Kw(TRUE), open, k);
    case IsFalse => WordsScan(Kw(IS), Kw(IS), Kw(IS), Kw(FALSE), open, k);
    case IsNull => WordsScan(Kw(IS), Kw(IS), Kw(IS), Kw(NULL), open, k);
    case IsNotNull => WordsScan(Kw(IS), Kw(IS), Kw(NOT), Kw(NULL), open, k);
    case CollateOp(c) => WordsScan(c, c, Kw(COLLATE), c, open, k);
  }

  lemma {:induction false} SuffixScans(op: SuffixOp, open: List<Token>, k: Tokens)
    ensures Scan(SuffixTokens(op, k), open) == Scan(k, Cons(SuffixClose(op), open))
  {
    var k1 := Cons(LParen, k);
    OpenScans(open, k);
    match op
    case Subscript =>
    case InOp(_) => WordsScan(Kw(NOT), Kw(NOT), Kw(NOT), Kw(IN), open, k1);
    case EqAny => WordsScan(Kw(ANY), Kw(ANY), Op("="), Kw(ANY), open, k1);
    case NeAll => WordsScan(Kw(ALL), Kw(ALL), Op("<>"), Kw(ALL), open, k1);
  }

  lemma {:induction false} JoinScans(kind: JoinKind, open: List<Token>, k: Tokens)
    ensures Scan(JoinTokens(kind, k), open) == Scan(k, open)
  {
    match kind
    case Inner => WordsScan(Kw(JOIN), Kw(JOIN), Kw(INNER), Kw(JOIN), open, k);
    case NaturalInner => WordsScan(Kw(JOIN), Kw(NATURAL), Kw(INNER), Kw(JOIN), open, k);
    case Cross => WordsScan(Kw(JOIN), Kw(JOIN), Kw(CROSS), Kw(JOIN), open, k);
    case LeftOuter | NaturalLeftOuter => WordsScan(Kw(NATURAL), Kw(LEFT), Kw(OUTER), Kw(JOIN), open, k);
    case RightOuter | NaturalRightOuter => WordsScan(Kw(NATURAL), Kw(RIGHT), Kw(OUTER), Kw(JOIN), open, k);
    case FullOuter | NaturalFullOuter => WordsScan(Kw(NATURAL), Kw(FULL), Kw(OUTER), Kw(JOIN), open, k);
  }

  lemma {:induction false} DirectionScans(desc: bool, nulls: Nulls, open: List<Token>, k: Tokens)
    ensures Scan(DirectionTokens(desc, NullsTokens(nulls, k)), open) == Scan(k, open)
  {
    WordScans(Kw(DESC), open, k);
    WordsScan(Kw(DESC), Kw(DESC), Kw(NULLS), Kw(FIRST), open, k);
    WordsScan(Kw(DESC), Kw(DESC), Kw(NULLS), Kw(LAST), open, k);
  }

  lemma {:induction false} SlotScans(m: Rules, e: Expr, c: Prec, open: List<Token>, k: Tokens)
    requires ExprOk(m, e)
    ensures Scan(PrintIn(e, c, k), open) == Scan(k, open)
    decreases e, 1
  {
    if Rank(e) >= c {
      PrintScans(m, e, Cons(RParen, open), Cons(RParen, k));
    } else {
      PrintScans(m, e, open, k);
    }
  }

  /** The brackets an expression opens it closes again, and its commas are inside them. */
  lemma {:induction false} PrintScans(m: Rules, e: Expr, open: List<Token>, k: Tokens)
    requires ExprOk(m, e)
    ensures Scan(Print(e, k), open) == Scan(k, open)
    decreases e, 0
  {
    match e
    case Leaf(tok) => WordScans(tok, open, k);
    case NegNum(digits) => WordsScan(Op("-"), Op("-"), Op("-"), Num(digits), open, k);
    case Infix(op, a, b) =>
      var k1 := PrintIn(b, InfixRank(op), k);
      SlotScans(m, b, InfixRank(op), open, k);
      InfixScans(op, open, k1);
      SlotScans(m, a, InfixRank(op), open, InfixTokens(op, k1));
    case Prefix(op, a) =>
      SlotScans(m, a, PrefixRank(op), open, k);
      WordScans(PrefixTokens(op, Nil).head, open, PrintIn(a, PrefixRank(op), k));
    case Postfix(op, a) =>
      PostfixScans(m, op, open, k);
      SlotScans(m, a, PostfixRank(op), open, PostfixTokens(op, k));
    case Between(_, _, _, _) => BetweenScans(m, e, open, k);
    case Suffix(op, a, body) =>
      var k1 := PrintBody(body, Cons(SuffixClose(op), k));
      BodyScans(m, op, body, open, k);
      SuffixScans(op, open, k1);
      SlotScans(m, a, SuffixRank(op), open, SuffixTokens(op, k1));
    case Call(_, _, _, _) => CallScans(m, e, open, k);
    case Cast(_, _) => CastScans(m, e, open, k);
    case Case(_, _) => CaseScans(m, e, open, k);
    case Exists(q) => QueryScans(m, q, open, k);
    case NotExists(q) => QueryScans(m, q, open, k);
    case Scalar(q) => QueryScans(m, q, open, k);
  }

  lemma {:induction false} BetweenScans(m: Rules, e: Expr, open: List<Token>, k: Tokens)
    requires ExprOk(m, e) && e.Between?
    ensures Scan(Print(e, k), open) == Scan(k, open)
    decreases e, 0, 0
  {
    var k3 := PrintIn(e.hi, kBetween, k);
    var k2 := Cons(Kw(AND), k3);
    var k1 := PrintIn(e.lo, kBetween, k2);
    SlotScans(m, e.hi, kBetween, open, k);
    WordScans(Kw(AND), open, k3);
    SlotScans(m, e.lo, kBetween, open, k2);
    WordsScan(Kw(NOT), Kw(NOT), Kw(NOT), Kw(BETWEEN), open, k1);
    SlotScans(m, e.a, kBetween, open, NotToken(e.neg, Cons(Kw(BETWEEN), k1)));
  }

  lemma {:induction false} QueryScans(m: Rules, q: Rel, open: List<Token>, k: Tokens)
    requires RelOk(m, q)
    ensures var ts := Cons(LParen, PrintRel(q, Cons(RParen, k)));
            Scan(ts, open) == Scan(k, open) == Scan(Cons(Kw(EXISTS), ts), open) &&
            Scan(Cons(Kw(NOT), Cons(Kw(EXISTS), ts)), open) == Scan(k, open)
    decreases q, 4
  {
    var ts := Cons(LParen, PrintRel(q, Cons(RParen, k)));
    RelScans(m, q, Cons(RParen, open), Cons(RParen, k));
    OpenScans(open, k);
    OpenScans(open, PrintRel(q, Cons(RParen, k)));
    WordsScan(Kw(NOT), Kw(NOT), Kw(NOT), Kw(EXISTS), open, ts);
  }

  lemma {:induction false} CastScans(m: Rules, e: Expr, open: List<Token>, k: Tokens)
    requires ExprOk(m, e) && e.Cast?
    ensures Scan(Print(e, k), open) == Scan(k, open)
    decreases e, 0, 0
  {
    var inner := Cons(RParen, open);
    var k1 := Cons(Kw(AS), Cons(e.typ, Cons(RParen, k)));
    WordsScan(e.typ, e.typ, Kw(AS), e.typ, inner, Cons(RParen, k));
    OpenScans(open, k);
    SlotScans(m, e.a, kTypecast, inner, k1);
    OpenScans(open, PrintIn(e.a, kTypecast, k1));
    WordScans(Kw(CAST), open, Cons(LParen, PrintIn(e.a, kTypecast, k1)));
  }

  lemma {:induction false} CaseScans(m: Rules, e: Expr, open: List<Token>, k: Tokens)
    requires ExprOk(m, e) && e.Case?
    ensures Scan(Print(e, k), open) == Scan(k, open)
    decreases e, 0, 0
  {
    var k2 := Cons(Kw(END), k);
    var k1 := PrintClause(ELSE, e.els, k2);
    WordScans(Kw(END), open, k);
    ClauseScans(m, ELSE, e.els, open, k2);
    WhensScan(m, e.whens, open, k1);
    WordScans(Kw(CASE), open, PrintWhens(e.whens, k1));
  }

  lemma {:induction false} CallScans(m: Rules, e: Expr, open: List<Token>, k: Tokens)
    requires ExprOk(m, e) && e.Call?
    ensures Scan(Print(e, k), open) == Scan(k, open)
    decreases e, 0, 0
  {
    var args := PrintArgs(e.distinct, e.args, Cons(RParen, k));
    ListScans(m, e.args, Cons(RParen, open), Cons(RParen, k));
    if !m.Atoms? { NamesAtomic(e.quals); }
    OpenScans(open, k);
    OpenScans(open, args);
    WordScans(Kw(DISTINCT), Cons(RParen, open), PrintList(e.args, Cons(RParen, k)));
    WordScans(Word(e.name), open, Cons(LParen, args));
    PathScans(e.quals, open, Cons(Word(e.name), Cons(LParen, args)));
  }

  lemma {:induction false} BodyScans(m: Rules, op: SuffixOp, body: Body, open: List<Token>, k: Tokens)
    requires BodyOk(m, op, body)
    ensures Scan(PrintBody(body, Cons(SuffixClose(op), k)), Cons(SuffixClose(op), open)) == Scan(k, open)
    decreases body
  {
    match body
    case Exprs(es) => ListScans(m, es, Cons(SuffixClose(op), open), Cons(SuffixClose(op), k));
    case Sub(q) => RelScans(m, q, Cons(SuffixClose(op), open), Cons(SuffixClose(op), k));
  }

  lemma {:induction false} ListScans(m: Rules, es: List<Expr>, open: List<Token>, k: Tokens)
    requires ListOk(m, es) && open.Cons?
    ensures Scan(PrintList(es, k), open) == Scan(k, open)
    decreases es
  {
    match es
    case Nil =>
    case Cons(e, rest) =>
      ListScans(m, rest, open, k);
      SlotScans(m, e, kExtract, open, k);
      SlotScans(m, e, kExtract, open, Cons(Comma, PrintList(rest, k)));
  }

  lemma {:induction false} ClauseScans(m: Rules, kw: Keyword, o: Option<Expr>, open: List<Token>, k: Tokens)
    requires OptionOk(m, o)
    ensures Scan(PrintClause(kw, o, k), open) == Scan(k, open)
    decreases o
  {
    if o.Some? { SlotScans(m, o.value, kExtract, open, k); }
  }

  lemma {:induction false} WhensScan(m: Rules, ws: List<When>, open: List<Token>, k: Tokens)
    requires WhensOk(m, ws)
    ensures Scan(PrintWhens(ws, k), open) == Scan(k, open)
    decreases ws
  {
    match ws
    case Nil =>
    case Cons(w, rest) =>
      var k1 := PrintWhens(rest, k);
      WhensScan(m, rest, open, k);
      SlotScans(m, w.result, kExtract, open, k1);
      SlotScans(m, w.cond, kExtract, open, Cons(Kw(THEN), PrintIn(w.result, kExtract, k1)));
  }

  lemma {:induction false} BracketedScans(m: Rules, r: Rel, open: List<Token>, k: Tokens)
    requires RelOk(m, r) && open.Cons?
    ensures Scan(PrintBracketed(r, k), open) == Scan(k, open)
    decreases r, 2
  {
    if r.Table? || r.Alias? {
      RelScans(m, r, open, k);
    } else {
      RelScans(m, r, Cons(RParen, open), Cons(RParen, k));
    }
  }

  /** The same for a statement or table value inside brackets, where its commas may stand. */
  lemma {:induction false} RelScans(m: Rules, r: Rel, open: List<Token>, k: Tokens)
    requires RelOk(m, r) && open.Cons?
    ensures Scan(PrintRel(r, k), open) == Scan(k, open)
    decreases r, 1
  {
    match r
    case Table(path) =>
      if !m.Atoms? { NamesAtomic(path); }
      PathScans(path, open, k);
    case Alias(x, name) =>
      if !m.Atoms? { NamesAtomic(name); }
      PathScans(name, open, k);
      BracketedScans(m, x, open, Cons(Kw(AS), PathTokens(name, k)));
    case Join(_, _, _, _) => JoinRelScans(m, r, open, k);
    case Select(_, _, _, _, _, _, _, _, _) => SelectScans(m, r, open, k);
    case SetOp(_, _, _) => SetOpScans(m, r, open, k);
    case With(ctes, main) =>
      RelScans(m, main, open, k);
      CtesScan(m, ctes, open, PrintRel(main, k));
      WordScans(Kw(WITH), open, PrintCtes(ctes, PrintRel(main, k)));
  }

  lemma {:induction false} SetOpScans(m: Rules, r: Rel, open: List<Token>, k: Tokens)
    requires RelOk(m, r) && r.SetOp? && open.Cons?
    ensures Scan(PrintRel(r, k), open) == Scan(k, open)
    decreases r, 0
  {
    BracketedScans(m, r.second, open, k);
    BracketedScans(m, r.first, open, SetTokens(r.setKind, PrintBracketed(r.second, k)));
  }

  lemma {:induction false} JoinRelScans(m: Rules, r: Rel, open: List<Token>, k: Tokens)
    requires RelOk(m, r) && r.Join? && open.Cons?
    ensures Scan(PrintRel(r, k), open) == Scan(k, open)
    decreases r, 0
  {
    var Join(kind, a, b, qual) := r;
    var k1 := PrintQual(qual, k);
    QualScans(m, qual, open, k);
    BracketedScans(m, b, open, k1);
    JoinScans(kind, open, PrintBracketed(b, k1));
    BracketedScans(m, a, open, JoinTokens(kind, PrintBracketed(b, k1)));
  }

  lemma {:induction false} QualScans(m: Rules, qual: Qualifier, open: List<Token>, k: Tokens)
    requires QualOk(m, qual)
    ensures Scan(PrintQual(qual, k), open) == Scan(k, open)
    decreases qual
  {
    match qual
    case NoQualifier =>
    case OnCond(e) => SlotScans(m, e, kExtract, open, k);
    case UsingCols(es) => ListScans(m, es, Cons(RParen, open), Cons(RParen, k));
  }

  lemma {:induction false} SelectScans(m: Rules, r: Rel, open: List<Token>, k: Tokens)
    requires RelOk(m, r) && r.Select? && open.Cons?
    ensures Scan(PrintRel(r, k), open) == Scan(k, open)
    decreases r, 0
  {
    var k2 := PrintClauses(r, k);
    var k1 := Cons(Kw(FROM), PrintRel(r.from, k2));
    ClausesScan(m, r, open, k);
    RelScans(m, r.from, open, k2);
    ItemsScan(m, r.items, open, k1);
    DistinctScans(m, r.distinct, open, PrintItems(r.items, k1));
  }

  lemma {:induction false} DistinctScans(m: Rules, dis: Distinctness, open: List<Token>, k: Tokens)
    requires DistinctOk(m, dis)
    ensures Scan(PrintDistinct(dis, k), open) == Scan(k, open)
    decreases dis
  {
    WordScans(Kw(DISTINCT), open, k);
    if dis.DistinctOn? {
      var k1 := PrintList(dis.on, Cons(RParen, k));
      ListScans(m, dis.on, Cons(RParen, open), Cons(RParen, k));
      OpenScans(open, k);
      OpenScans(open, k1);
      WordsScan(Kw(ON), Kw(ON), Kw(DISTINCT), Kw(ON), open, Cons(LParen, k1));
    }
  }

  lemma {:induction false} ClausesScan(m: Rules, r: Rel, open: List<Token>, k: Tokens)
    requires r.Select? && ClausesOk(m, r) && open.Cons?
    ensures Scan(PrintClauses(r, k), open) == Scan(k, open)
    decreases r, 0, 0
  {
    var k1 := PrintInt(LIMIT, r.limit, PrintInt(OFFSET, r.offset, k));
    var k2 := PrintOrder(r.order, k1);
    var k3 := PrintClause(HAVING, r.having, k2);
    IntScans(OFFSET, r.offset, open, k);
    IntScans(LIMIT, r.limit, open, PrintInt(OFFSET, r.offset, k));
    OrderScans(m, r.order, open, k1);
    ClauseScans(m, HAVING, r.having, open, k2);
    GroupScans(m, r.group, open, k3);
    ClauseScans(m, WHERE, r.where, open, PrintGroup(r.group, k3));
  }

  lemma {:induction false} OrderScans(m: Rules, o: Option<List<OrderTerm>>, open: List<Token>, k: Tokens)
    requires OrderOk(m, o) && open.Cons?
    ensures Scan(PrintOrder(o, k), open) == Scan(k, open)
    decreases o
  {
    if o.Some? {
      TermsScan(m, o.value, open, k);
      WordsScan(Kw(BY), Kw(BY), Kw(ORDER), Kw(BY), open, PrintTerms(o.value, k));
    }
  }

  lemma {:induction false} GroupScans(m: Rules, o: Option<List<Expr>>, open: List<Token>, k: Tokens)
    requires GroupOk(m, o) && open.Cons?
    ensures Scan(PrintGroup(o, k), open) == Scan(k, open)
    decreases o
  {
    if o.Some? {
      ListScans(m, o.value, open, k);
      WordsScan(Kw(BY), Kw(BY), Kw(GROUP), Kw(BY), open, PrintList(o.value, k));
    }
  }

  lemma {:induction false} IntScans(kw: Keyword, o: Option<int>, open: List<Token>, k: Tokens)
    ensures Scan(PrintInt(kw, o, k), open) == Scan(k, open)
  {
    if o.Some? {
      var digits := Num(DigitsOf(if o.value < 0 then -o.value else o.value));
      WordsScan(digits, Kw(kw), Op("-"), digits, open, k);
      WordsScan(digits, digits, Kw(kw), digits, open, k);
    }
  }

  lemma {:induction false} ItemsScan(m: Rules, items: List<Item>, open: List<Token>, k: Tokens)
    requires ItemsOk(m, items) && open.Cons?
    ensures Scan(PrintItems(items, k), open) == Scan(k, open)
    decreases items
  {
    match items
    case Nil =>
    case Cons(i, rest) =>
      var k1 := if rest.Nil? then k else Cons(Comma, PrintItems(rest, k));
      ItemsScan(m, rest, open, k);
      OpenScans(open, PrintItems(rest, k));
      if i.alias.Some? { WordsScan(Kw(AS), Kw(AS), Kw(AS), Word(i.alias.value), open, k1); }
      SlotScans(m, i.e, kExtract, open, AliasTokens(i.alias, k1));
  }

  lemma {:induction false} TermsScan(m: Rules, terms: List<OrderTerm>, open: List<Token>, k: Tokens)
    requires TermsOk(m, terms) && open.Cons?
    ensures Scan(PrintTerms(terms, k), open) == Scan(k, open)
    decreases terms
  {
    match terms
    case Nil =>
    case Cons(t, rest) =>
      var k1 := if rest.Nil? then k else Cons(Comma, PrintTerms(rest, k));
      TermsScan(m, rest, open, k);
      OpenScans(open, PrintTerms(rest, k));
      DirectionScans(t.desc, t.nulls, open, k1);
      SlotScans(m, t.e, kExtract, open, DirectionTokens(t.desc, NullsTokens(t.nulls, k1)));
  }

  lemma {:induction false} CtesScan(m: Rules, ctes: List<Cte>, open: List<Token>, k: Tokens)
    requires CtesOk(m, ctes) && open.Cons?
    ensures Scan(PrintCtes(ctes, k), open) == Scan(k, open)
    decreases ctes
  {
    match ctes
    case Nil =>
    case Cons(c, rest) =>
      var k1 := if rest.Nil? then k else Cons(Comma, PrintCtes(rest, k));
      CtesScan(m, rest, open, k);
      OpenScans(open, PrintCtes(rest, k));
      QueryScans(m, c.query, open, k1);
      CteScans(m, c, open, Cons(LParen, PrintRel(c.query, Cons(RParen, k1))));
  }

  lemma {:induction false} CteScans(m: Rules, c: Cte, open: List<Token>, k: Tokens)
    requires PlainFits(m, c.name)
    ensures Scan(PathTokens(c.name, Cons(Kw(AS), k)), open) == Scan(k, open)
  {
    if !m.Atoms? { NamesAtomic(c.name); }
    PathScans(c.name, open, Cons(Kw(AS), k));
  }
}
