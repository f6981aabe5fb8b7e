/** A tree and its meaning print quoted tokens of the same length. */
module Lengths {
  import opened Basics
  import opened Precedence
  import opened Tokens
  import opened Numerals
  import opened Syntax
  import opened Printer
  import opened WellFormed
  import opened Layout

  /** Two token lists with the same length inside their quoted tokens. */
  predicate Even(a: Tokens, b: Tokens) {
    InnerLength(a) == InnerLength(b)
  }

  lemma {:induction false} EvenWords(a: Token, b: Token, c: Token, d: Token, k: Tokens)
    requires TokenLength(a) == TokenLength(b) == TokenLength(c) == TokenLength(d) == 0
    ensures Even(Cons(d, k), k) && Even(Cons(c, Cons(d, k)), k)
    ensures Even(Cons(b, Cons(c, Cons(d, k))), k) && Even(Cons(a, Cons(b, Cons(c, Cons(d, k)))), k)
  {
    assert InnerLength(Cons(d, k)) == InnerLength(k);
    assert InnerLength(Cons(c, Cons(d, k))) == InnerLength(Cons(d, k));
    assert InnerLength(Cons(b, Cons(c, Cons(d, k)))) == InnerLength(Cons(c, Cons(d, k)));
  }

  lemma {:induction false} EvenInfix(op: InfixOp, k: Tokens)
    ensures Even(InfixTokens(op, k), k)
  {
    match op
    case LikeOp(_, Like) => EvenWords(Kw(NOT), Kw(NOT), Kw(NOT), Kw(LIKE), k);
    case LikeOp(_, ILike) => EvenWords(Kw(NOT), Kw(NOT), Kw(NOT), Kw(ILIKE), k);
    case LikeOp(_, SimilarTo) => EvenWords(Kw(NOT), Kw(NOT), Kw(SIMILAR), Kw(TO), k);
    case DistinctFrom(_) =>
      EvenWords(Kw(IS), Kw(IS), Kw(DISTINCT), Kw(FROM), k);
      EvenWords(Kw(IS), Kw(NOT), Kw(DISTINCT), Kw(FROM), k);
    case _ =>
  }

  lemma {:induction false} EvenPostfix(op: PostfixOp, a: Tokens, b: Tokens)
    requires Even(a, b)
    ensures Even(PostfixTokens(op, a), PostfixTokens(op, b))
  {
    EvenWords(Kw(IS), Kw(IS), Kw(IS), Kw(TRUE), a);
    EvenWords(Kw(IS), Kw(IS), Kw(IS), Kw(TRUE), b);
    EvenWords(Kw(IS), Kw(IS), Kw(NOT), Kw(NULL), a);
    EvenWords(Kw(IS), Kw(IS), Kw(NOT), Kw(NULL), b);
  }

  lemma {:induction false} EvenSuffix(op: SuffixOp, k: Tokens)
    ensures Even(SuffixTokens(op, k), k)
  {
    EvenWords(Kw(NOT), Kw(NOT), Kw(IN), LParen, k);
    EvenWords(Op("="), Op("="), Kw(ANY), LParen, k);
    EvenWords(Op("<>"), Op("<>"), Kw(ALL), LParen, k);
  }

  lemma {:induction false} EvenBrackets(e: Expr, f: Expr, c: Prec, d: Prec, a: Tokens, b: Tokens)
    requires Even(Print(e, a), Print(f, b)) && Even(Print(e, Cons(RParen, a)), Print(f, b))
    requires Even(Print(e, a), Print(f, Cons(RParen, b)))
    ensures Even(PrintIn(e, c, a), PrintIn(f, d, b))
  {
  }

  lemma {:induction false} SlotEven(m: Strict, e: Expr, c: Prec, d: Prec, a: Tokens, b: Tokens)
    requires ExprOk(m, e) && Even(a, b)
    ensures Even(PrintIn(e, c, a), PrintIn(Meaning(e), d, b))
    decreases e, 2
  {
    PrintEven(m, e, a, b);
    PrintEven(m, e, Cons(RParen, a), b);
    PrintEven(m, e, a, Cons(RParen, b));
    EvenBrackets(e, Meaning(e), c, d, a, b);
  }

  lemma {:induction false} PrintEven(m: Strict, e: Expr, a: Tokens, b: Tokens)
    requires ExprOk(m, e) && Even(a, b)
    ensures Even(Print(e, a), Print(Meaning(e), b))
    decreases e, 1
  {
    match e
    case Leaf(_) =>
    case NegNum(_) => EvenNumber(e, a, b);
    case Call(_, _, _, _) => CallEven(m, e, a, b);
    case Cast(x, typ) =>
      var as1, as2 := Cons(Kw(AS), Cons(typ, Cons(RParen, a))), Cons(Kw(AS), Cons(typ, Cons(RParen, b)));
      assert Even(Cons(typ, Cons(RParen, a)), Cons(typ, Cons(RParen, b)));
      SlotEven(m, x, kTypecast, kTypecast, as1, as2);
    case Case(whens, els) =>
      ClauseEven(m, ELSE, els, Cons(Kw(END), a), Cons(Kw(END), b));
      WhensEven(m, whens, PrintClause(ELSE, els, Cons(Kw(END), a)),
                PrintClause(ELSE, OptionMeaning(els), Cons(Kw(END), b)));
    case Exists(q) => RelEven(m, q, Cons(RParen, a), Cons(RParen, b));
    case NotExists(q) => NotExistsEven(m, q, a, b);
    case Scalar(q) => RelEven(m, q, Cons(RParen, a), Cons(RParen, b));
    case _ => OperatorEven(m, e, a, b);
  }

  lemma {:induction false} EvenNumber(e: Expr, a: Tokens, b: Tokens)
    requires e.NegNum? && Even(a, b)
    ensures Even(Print(e, a), Print(Meaning(e), b))
  {
    var num := Leaf(Num(e.digits));
    assert PrintIn(num, kUnaryPlus, b) == Cons(Num(e.digits), b);
    assert Print(Meaning(e), b) == Cons(Op("-"), Cons(Num(e.digits), b));
    EvenWords(Op("-"), Op("-"), Op("-"), Num(e.digits), a);
    EvenWords(Op("-"), Op("-"), Op("-"), Num(e.digits), b);
  }

  lemma {:induction false} NotExistsEven(m: Strict, q: Rel, a: Tokens, b: Tokens)
    requires RelOk(m, q) && Even(a, b)
    ensures Even(Print(NotExists(q), a), Print(Meaning(NotExists(q)), b))
    decreases q, 4
  {
    var ts := PrintRel(q, Cons(RParen, a));
    var us := PrintRel(RelMeaning(q), Cons(RParen, b));
    RelEven(m, q, Cons(RParen, a), Cons(RParen, b));
    assert PrintIn(Exists(RelMeaning(q)), kNot, b) == Cons(Kw(EXISTS), Cons(LParen, us));
    assert Print(Meaning(NotExists(q)), b) == Cons(Kw(NOT), Cons(Kw(EXISTS), Cons(LParen, us)));
    EvenWords(LParen, Kw(NOT), Kw(EXISTS), LParen, ts);
    EvenWords(LParen, Kw(NOT), Kw(EXISTS), LParen, us);
  }

  lemma {:induction false} OperatorEven(m: Strict, e: Expr, a: Tokens, b: Tokens)
    requires ExprOk(m, e) && (e.Infix? || e.Prefix? || e.Postfix? || e.Between? || e.Suffix?) && Even(a, b)
    ensures Even(Print(e, a), Print(Meaning(e), b))
    decreases e, 0
  {
    match e
    case Infix(op, x, y) =>
      var r := InfixRank(op);
      var a1, b1 := PrintIn(y, r, a), PrintIn(Meaning(y), r, b);
      SlotEven(m, y, r, r, a, b);
      EvenInfix(op, a1);
      EvenInfix(op, b1);
      SlotEven(m, x, r, r, InfixTokens(op, a1), InfixTokens(op, b1));
    case Prefix(op, x) => SlotEven(m, x, PrefixRank(op), Rank(Meaning(e)), a, b);
    case Postfix(op, x) =>
      EvenPostfix(op, a, b);
      SlotEven(m, x, PostfixRank(op), PostfixRank(op), PostfixTokens(op, a), PostfixTokens(op, b));
    case Between(_, _, _, _) => BetweenEven(m, e, a, b);
    case Suffix(op, x, body) =>
      var a1, b1 := Cons(SuffixClose(op), a), Cons(SuffixClose(op), b);
      var a2, b2 := PrintBody(body, a1), PrintBody(BodyMeaning(body), b1);
      BodyEven(m, op, body, a1, b1);
      EvenSuffix(op, a2);
      EvenSuffix(op, b2);
      SlotEven(m, x, SuffixRank(op), SuffixRank(op), SuffixTokens(op, a2), SuffixTokens(op, b2));
  }

  lemma {:induction false} BetweenEven(m: Strict, e: Expr, a: Tokens, b: Tokens)
    requires ExprOk(m, e) && e.Between? && Even(a, b)
    ensures Even(Print(e, a), Print(Meaning(e), b))
    decreases e, 0, 0
  {
    var a1, b1 := Cons(Kw(AND), PrintIn(e.hi, kBetween, a)), Cons(Kw(AND), PrintIn(Meaning(e.hi), kBetween, b));
    var a2, b2 := PrintIn(e.lo, kBetween, a1), PrintIn(Meaning(e.lo), kBetween, b1);
    SlotEven(m, e.hi, kBetween, kBetween, a, b);
    SlotEven(m, e.lo, kBetween, kBetween, a1, b1);
    EvenWords(Kw(NOT), Kw(NOT), Kw(NOT), Kw(BETWEEN), a2);
    EvenWords(Kw(NOT), Kw(NOT), Kw(NOT), Kw(BETWEEN), b2);
    SlotEven(m, e.a, kBetween, kBetween, NotToken(e.neg, Cons(Kw(BETWEEN), a2)),
             NotToken(e.neg, Cons(Kw(BETWEEN), b2)));
  }

  // ---- dotted calls

  predicate WordChain(e: Expr) {
    match e
    case Leaf(tok) => tok.Word?
    case Infix(op, x, y) => op.Member? && WordChain(x) && y.Leaf? && y.tok.Word?
    case _ => false
  }

  lemma {:induction false} ChainEven(e: Expr, c: Prec, k: Tokens)
    requires WordChain(e)
    ensures Even(PrintIn(e, c, k), k)
    decreases e
  {
    if e.Infix? {
      var word := e.b.tok;
      ChainEven(e.a, kDot, Cons(Period, Cons(word, k)));
      ChainEven(e.a, kDot, Cons(Period, Cons(word, Cons(RParen, k))));
      ChainPrints(e, k);
      ChainPrints(e, Cons(RParen, k));
      EvenWords(LParen, Period, word, RParen, k);
      EvenWords(LParen, LParen, Period, word, k);
      assert Even(Print(e, k), k) && Even(Print(e, Cons(RParen, k)), k);
    } else {
      EvenWords(LParen, LParen, e.tok, RParen, k);
      EvenWords(LParen, LParen, LParen, e.tok, k);
    }
  }

  lemma {:induction false} PlainCallPrints(name: string, distinct: bool, args: List<Expr>, k: Tokens)
    ensures var list := PrintList(args, Cons(RParen, k));
            var inner := if distinct then Cons(Kw(DISTINCT), list) else list;
            Print(Call(Nil, name, distinct, args), k) == Cons(Word(name), Cons(LParen, inner))
  {
    var call := Call(Nil, name, distinct, args);
    assert call.quals == Nil;
  }

  lemma {:induction false} ChainPrints(e: Expr, k: Tokens)
    requires WordChain(e) && e.Infix?
    ensures Print(e, k) == PrintIn(e.a, kDot, Cons(Period, Cons(e.b.tok, k)))
  {
    assert PrintIn(e.b, kDot, k) == Cons(e.b.tok, k);
  }

  lemma {:induction false} ChainWords(left: Expr, quals: List<Token>)
    requires WordChain(left) && AllWords(quals)
    ensures WordChain(Chain(left, quals))
    decreases quals
  {
    if quals.Cons? { ChainWords(Infix(Member, left, Leaf(quals.head)), quals.tail); }
  }

  lemma {:induction false} QualsEven(quals: List<Token>, k: Tokens)
    requires AllWords(quals)
    ensures Even(QualTokens(quals, k), k)
    decreases quals
  {
    if quals.Cons? {
      QualsEven(quals.tail, k);
      EvenWords(Period, Period, quals.head, Period, QualTokens(quals.tail, k));
    }
  }

  lemma {:induction false} CallEven(m: Strict, e: Expr, a: Tokens, b: Tokens)
    requires ExprOk(m, e) && e.Call? && Even(a, b)
    ensures Even(Print(e, a), Print(Meaning(e), b))
    decreases e, 0, 0
  {
    var Call(quals, name, distinct, args) := e;
    var call := Call(Nil, name, distinct, ListMeaning(args));
    var ts, us := PrintList(args, Cons(RParen, a)), PrintList(ListMeaning(args), Cons(RParen, b));
    ListEven(m, args, Cons(RParen, a), Cons(RParen, b));
    EvenWords(Word(name), LParen, Word(name), LParen, ts);
    EvenWords(Word(name), LParen, Word(name), LParen, us);
    EvenWords(Word(name), Word(name), LParen, Kw(DISTINCT), ts);
    EvenWords(Word(name), Word(name), LParen, Kw(DISTINCT), us);
    var head := Print(Call(Nil, name, distinct, args), a);
    PlainCallPrints(name, distinct, args, a);
    PlainCallPrints(name, distinct, ListMeaning(args), b);
    assert Even(head, Print(call, b));
    if quals.Cons? {
      var left := Chain(Leaf(quals.head), quals.tail);
      QualsEven(quals, head);
      assert Print(e, a) == QualTokens(quals, head);
      assert PrintIn(call, kDot, b) == Print(call, b);
      ChainWords(Leaf(quals.head), quals.tail);
      ChainEven(left, kDot, Cons(Period, Print(call, b)));
      assert Print(Meaning(e), b) == PrintIn(left, kDot, Cons(Period, Print(call, b)));
    }
  }

  // ---- lists and clauses

  lemma {:induction false} BodyEven(m: Strict, op: SuffixOp, body: Body, a: Tokens, b: Tokens)
    requires BodyOk(m, op, body) && Even(a, b)
    ensures Even(PrintBody(body, a), PrintBody(BodyMeaning(body), b))
    decreases body
  {
    match body
    case Exprs(es) => ListEven(m, es, a, b);
    case Sub(q) => RelEven(m, q, a, b);
  }

  lemma {:induction false} ListEven(m: Strict, es: List<Expr>, a: Tokens, b: Tokens)
    requires ListOk(m, es) && Even(a, b)
    ensures Even(PrintList(es, a), PrintList(ListMeaning(es), b))
    decreases es
  {
    if es.Cons? {
      var rest := es.tail;
      ListEven(m, rest, a, b);
      if rest.Nil? {
        SlotEven(m, es.head, kExtract, kExtract, a, b);
      } else {
        SlotEven(m, es.head, kExtract, kExtract, Cons(Comma, PrintList(rest, a)),
                 Cons(Comma, PrintList(ListMeaning(rest), b)));
      }
    }
  }

  lemma {:induction false} WhensEven(m: Strict, ws: List<When>, a: Tokens, b: Tokens)
    requires WhensOk(m, ws) && Even(a, b)
    ensures Even(PrintWhens(ws, a), PrintWhens(WhensMeaning(ws), b))
    decreases ws
  {
    if ws.Cons? {
      var w := ws.head;
      var a1, b1 := PrintWhens(ws.tail, a), PrintWhens(WhensMeaning(ws.tail), b);
      WhensEven(m, ws.tail, a, b);
      SlotEven(m, w.result, kExtract, kExtract, a1, b1);
      SlotEven(m, w.cond, kExtract, kExtract, Cons(Kw(THEN), PrintIn(w.result, kExtract, a1)),
               Cons(Kw(THEN), PrintIn(Meaning(w.result), kExtract, b1)));
    }
  }

  lemma {:induction false} ClauseEven(m: Strict, kw: Keyword, o: Option<Expr>, a: Tokens, b: Tokens)
    requires OptionOk(m, o) && Even(a, b)
    ensures Even(PrintClause(kw, o, a), PrintClause(kw, OptionMeaning(o), b))
    decreases o
  {
    if o.Some? { SlotEven(m, o.value, kExtract, kExtract, a, b); }
  }

  lemma {:induction false} PathEven(p: List<Token>, a: Tokens, b: Tokens)
    requires Even(a, b)
    ensures Even(PathTokens(p, a), PathTokens(p, b))
    decreases p
  {
    if p.Cons? { PathEven(p.tail, a, b); }
  }

  lemma {:induction false} BracketedEven(m: Strict, r: Rel, a: Tokens, b: Tokens)
    requires RelOk(m, r) && Even(a, b)
    ensures Even(PrintBracketed(r, a), PrintBracketed(RelMeaning(r), b))
    decreases r, 2
  {
    RelEven(m, r, a, b);
    RelEven(m, r, Cons(RParen, a), Cons(RParen, b));
  }

  lemma {:induction false} RelEven(m: Strict, r: Rel, a: Tokens, b: Tokens)
    requires RelOk(m, r) && Even(a, b)
    ensures Even(PrintRel(r, a), PrintRel(RelMeaning(r), b))
    decreases r, 1
  {
    match r
    case Table(path) => PathEven(path, a, b);
    case Alias(x, name) =>
      PathEven(name, a, b);
      BracketedEven(m, x, Cons(Kw(AS), PathTokens(name, a)), Cons(Kw(AS), PathTokens(name, b)));
    case Join(kind, x, y, qual) =>
      var a1, b1 := PrintQual(qual, a), PrintQual(QualMeaning(qual), b);
      var a2, b2 := PrintBracketed(y, a1), PrintBracketed(RelMeaning(y), b1);
      QualEven(m, qual, a, b);
      BracketedEven(m, y, a1, b1);
      EvenJoin(kind, a2);
      EvenJoin(kind, b2);
      BracketedEven(m, x, JoinTokens(kind, a2), JoinTokens(kind, b2));
    case Select(_, _, _, _, _, _, _, _, _) => SelectEven(m, r, a, b);
    case SetOp(kind, x, y) =>
      var a1, b1 := PrintBracketed(y, a), PrintBracketed(RelMeaning(y), b);
      BracketedEven(m, y, a, b);
      EvenSet(kind, a1);
      EvenSet(kind, b1);
      BracketedEven(m, x, SetTokens(kind, a1), SetTokens(kind, b1));
    case With(ctes, main) =>
      RelEven(m, main, a, b);
      CtesEven(m, ctes, PrintRel(main, a), PrintRel(RelMeaning(main), b));
  }

  lemma {:induction false} EvenJoin(kind: JoinKind, k: Tokens)
    ensures Even(JoinTokens(kind, k), k)
  {
    EvenWords(Kw(JOIN), Kw(NATURAL), Kw(INNER), Kw(JOIN), k);
    EvenWords(Kw(JOIN), Kw(JOIN), Kw(CROSS), Kw(JOIN), k);
    EvenWords(Kw(NATURAL), Kw(LEFT), Kw(OUTER), Kw(JOIN), k);
    EvenWords(Kw(NATURAL), Kw(RIGHT), Kw(OUTER), Kw(JOIN), k);
    EvenWords(Kw(NATURAL), Kw(FULL), Kw(OUTER), Kw(JOIN), k);
  }

  lemma {:induction false} EvenSet(kind: SetKind, k: Tokens)
    ensures Even(SetTokens(kind, k), k)
  {
    EvenWords(Kw(ALL), Kw(ALL), Kw(UNION), Kw(ALL), k);
  }

  lemma {:induction false} QualEven(m: Strict, q: Qualifier, a: Tokens, b: Tokens)
    requires QualOk(m, q) && Even(a, b)
    ensures Even(PrintQual(q, a), PrintQual(QualMeaning(q), b))
    decreases q
  {
    match q
    case NoQualifier =>
    case OnCond(e) => SlotEven(m, e, kExtract, kExtract, a, b);
    case UsingCols(es) => ListEven(m, es, Cons(RParen, a), Cons(RParen, b));
  }

  lemma {:induction false} SelectEven(m: Strict, r: Rel, a: Tokens, b: Tokens)
    requires r.Select? && RelOk(m, r) && Even(a, b)
    ensures Even(PrintRel(r, a), PrintRel(RelMeaning(r), b))
    decreases r, 0
  {
    var q := RelMeaning(r);
    var a3, b3 := PrintClauses(r, a), PrintClauses(q, b);
    var a2, b2 := Cons(Kw(FROM), PrintRel(r.from, a3)), Cons(Kw(FROM), PrintRel(q.from, b3));
    ClausesEven(m, r, a, b);
    RelEven(m, r.from, a3, b3);
    ItemsEven(m, r.items, a2, b2);
    DistinctEven(m, r.distinct, PrintItems(r.items, a2), PrintItems(q.items, b2));
  }

  lemma {:induction false} DistinctEven(m: Strict, dis: Distinctness, a: Tokens, b: Tokens)
    requires DistinctOk(m, dis) && Even(a, b)
    ensures Even(PrintDistinct(dis, a), PrintDistinct(DistinctMeaning(dis), b))
    decreases dis
  {
    if dis.DistinctOn? {
      var ts, us := PrintList(dis.on, Cons(RParen, a)), PrintList(ListMeaning(dis.on), Cons(RParen, b));
      ListEven(m, dis.on, Cons(RParen, a), Cons(RParen, b));
      EvenWords(LParen, Kw(DISTINCT), Kw(ON), LParen, ts);
      EvenWords(LParen, Kw(DISTINCT), Kw(ON), LParen, us);
    }
  }

  lemma {:induction false} ClausesEven(m: Strict, r: Rel, a: Tokens, b: Tokens)
    requires r.Select? && ClausesOk(m, r) && Even(a, b)
    ensures Even(PrintClauses(r, a), PrintClauses(RelMeaning(r), b))
    decreases r, 0, 0
  {
    var q := RelMeaning(r);
    var a4, b4 := PrintInt(OFFSET, r.offset, a), PrintInt(OFFSET, r.offset, b);
    var a3, b3 := PrintInt(LIMIT, r.limit, a4), PrintInt(LIMIT, r.limit, b4);
    var a2, b2 := PrintOrder(r.order, a3), PrintOrder(q.order, b3);
    var a1, b1 := PrintClause(HAVING, r.having, a2), PrintClause(HAVING, q.having, b2);
    EvenInt(OFFSET, r.offset, a, b);
    EvenInt(LIMIT, r.limit, a4, b4);
    OrderEven(m, r.order, a3, b3);
    ClauseEven(m, HAVING, r.having, a2, b2);
    GroupEven(m, r.group, a1, b1);
    ClauseEven(m, WHERE, r.where, PrintGroup(r.group, a1), PrintGroup(q.group, b1));
  }

  lemma {:induction false} EvenInt(kw: Keyword, o: Option<int>, a: Tokens, b: Tokens)
    requires Even(a, b)
    ensures Even(PrintInt(kw, o, a), PrintInt(kw, o, b))
  {
    if o.Some? {
      var digits := Num(DigitsOf(if o.value < 0 then -o.value else o.value));
      EvenWords(digits, Kw(kw), Op("-"), digits, a);
      EvenWords(digits, Kw(kw), Op("-"), digits, b);
      EvenWords(digits, digits, Kw(kw), digits, a);
      EvenWords(digits, digits, Kw(kw), digits, b);
    }
  }

  lemma {:induction false} GroupEven(m: Strict, o: Option<List<Expr>>, a: Tokens, b: Tokens)
    requires GroupOk(m, o) && Even(a, b)
    ensures Even(PrintGroup(o, a), PrintGroup(GroupMeaning(o), b))
    decreases o
  {
    if o.Some? {
      ListEven(m, o.value, a, b);
      EvenWords(Kw(BY), Kw(BY), Kw(GROUP), Kw(BY), PrintList(o.value, a));
      EvenWords(Kw(BY), Kw(BY), Kw(GROUP), Kw(BY), PrintList(ListMeaning(o.value), b));
    }
  }

  lemma {:induction false} OrderEven(m: Strict, o: Option<List<OrderTerm>>, a: Tokens, b: Tokens)
    requires OrderOk(m, o) && Even(a, b)
    ensures Even(PrintOrder(o, a), PrintOrder(OrderMeaning(o), b))
    decreases o
  {
    if o.Some? {
      TermsEven(m, o.value, a, b);
      EvenWords(Kw(BY), Kw(BY), Kw(ORDER), Kw(BY), PrintTerms(o.value, a));
      EvenWords(Kw(BY), Kw(BY), Kw(ORDER), Kw(BY), PrintTerms(TermsMeaning(o.value), b));
    }
  }

  lemma {:induction false} ItemsEven(m: Strict, items: List<Item>, a: Tokens, b: Tokens)
    requires ItemsOk(m, items) && Even(a, b)
    ensures Even(PrintItems(items, a), PrintItems(ItemsMeaning(items), b))
    decreases items
  {
    if items.Cons? {
      var i, rest := items.head, items.tail;
      var a1 := if rest.Nil? then a else Cons(Comma, PrintItems(rest, a));
      var b1 := if rest.Nil? then b else Cons(Comma, PrintItems(ItemsMeaning(rest), b));
      ItemsEven(m, rest, a, b);
      EvenAlias(i.alias, a1);
      EvenAlias(i.alias, b1);
      SlotEven(m, i.e, kExtract, kExtract, AliasTokens(i.alias, a1), AliasTokens(i.alias, b1));
    }
  }

  lemma {:induction false} EvenAlias(alias: Option<string>, k: Tokens)
    ensures Even(AliasTokens(alias, k), k)
  {
    if alias.Some? { EvenWords(Kw(AS), Kw(AS), Kw(AS), Word(alias.value), k); }
  }

  lemma {:induction false} TermsEven(m: Strict, terms: List<OrderTerm>, a: Tokens, b: Tokens)
    requires TermsOk(m, terms) && Even(a, b)
    ensures Even(PrintTerms(terms, a), PrintTerms(TermsMeaning(terms), b))
    decreases terms
  {
    if terms.Cons? {
      var t, rest := terms.head, terms.tail;
      var a1 := if rest.Nil? then a else Cons(Comma, PrintTerms(rest, a));
      var b1 := if rest.Nil? then b else Cons(Comma, PrintTerms(TermsMeaning(rest), b));
      TermsEven(m, rest, a, b);
      EvenDirection(t.desc, t.nulls, a1);
      EvenDirection(t.desc, t.nulls, b1);
      SlotEven(m, t.e, kExtract, kExtract, DirectionTokens(t.desc, NullsTokens(t.nulls, a1)),
               DirectionTokens(t.desc, NullsTokens(t.nulls, b1)));
    }
  }

  lemma {:induction false} EvenDirection(desc: bool, nulls: Nulls, k: Tokens)
    ensures Even(DirectionTokens(desc, NullsTokens(nulls, k)), k)
  {
    EvenWords(Kw(DESC), Kw(DESC), Kw(DESC), Kw(DESC), k);
    EvenWords(Kw(DESC), Kw(DESC), Kw(NULLS), Kw(FIRST), k);
    EvenWords(Kw(DESC), Kw(DESC), Kw(NULLS), Kw(LAST), k);
  }

  lemma {:induction false} CtesEven(m: Strict, ctes: List<Cte>, a: Tokens, b: Tokens)
    requires CtesOk(m, ctes) && Even(a, b)
    ensures Even(PrintCtes(ctes, a), PrintCtes(CtesMeaning(ctes), b))
    decreases ctes
  {
    if ctes.Cons? {
      var c, rest := ctes.head, ctes.tail;
      var a1 := if rest.Nil? then a else Cons(Comma, PrintCtes(rest, a));
      var b1 := if rest.Nil? then b else Cons(Comma, PrintCtes(CtesMeaning(rest), b));
      var ts, us := PrintRel(c.query, Cons(RParen, a1)), PrintRel(RelMeaning(c.query), Cons(RParen, b1));
      CtesEven(m, rest, a, b);
      RelEven(m, c.query, Cons(RParen, a1), Cons(RParen, b1));
      PathEven(c.name, Cons(Kw(AS), Cons(LParen, ts)), Cons(Kw(AS), Cons(LParen, us)));
    }
  }
}
