/** Reading back, token by token, what expressions and statements print: the induction
    over trees behind the round trip. */
module ReadBack {
  import opened Basics
  import opened Precedence
  import opened Tokens
  import opened Syntax
  import opened Printer
  import opened Grammar
  import opened Numerals
  import opened WellFormed

  /** Nothing at the front of `ts` continues an operand of context `c`. */
  predicate StopsAt(d: Dialect, ts: Tokens, c: Prec) {
    var k := ContAt(d, ts);
    k == NoCont || ContRank(k) >= c
  }

  predicate Follows(d: Dialect, ts: Tokens, c: Prec) {
    StopsAt(d, ts, c) && !At(ts, LParen)
  }

  /** Tokens that continue no operand at all. */
  predicate Closes(tok: Token) {
    match tok
    case RParen | RBracket | Comma => true
    case Kw(kw) => kw !in {AND, OR, NOT, LIKE, ILIKE, SIMILAR, BETWEEN, IN, IS, COLLATE}
    case _ => false
  }

  predicate Closed(ts: Tokens) {
    ts.Nil? || Closes(ts.head)
  }

  /** Tokens an operand can begin with. */
  predicate Opens(tok: Token) {
    match tok
    case Kw(kw) => kw in {NOT, CASE, CAST, EXISTS, NULL, TRUE, FALSE}
    case Word(_) | Num(_) | Str(_) | Quoted(_) | Param(_) | Op(_) | LParen => true
    case _ => false
  }

  lemma {:induction false} ClosedFollows(d: Dialect, ts: Tokens, c: Prec)
    requires Closed(ts)
    ensures Follows(d, ts, c)
  {
  }

  /** The rank the grammar reads `e` at in a slot of context `c`. */
  function ReadRank(e: Expr, c: Prec): Prec {
    if Rank(e) >= c || e.Cast? then kSymbol
    else if HiddenRank(e) != kSymbol then HiddenRank(e)
    else Rank(e)
  }

  /** What follows is not taken in at the open right edge of `e`, and a dotted call is
      not cut open. */
  predicate Fits(d: Dialect, e: Expr, c: Prec, ctx: Prec, k: Tokens) {
    StopsAt(d, k, EdgeRank(e, c)) && (HiddenRank(e) == kDot ==> kDot < ctx)
  }

  lemma {:induction false} EdgeBound(e: Expr, c: Prec)
    ensures EdgeRank(e, c) <= kNot
    decreases e
  {
    match e
    case Infix(op, _, b) => EdgeBound(b, InfixRank(op));
    case Between(_, _, _, hi) => EdgeBound(hi, kBetween);
    case Prefix(op, a) => EdgeBound(a, PrefixRank(op));
    case _ =>
  }

  /** An operand begins with an opening token, and only SELECT and WITH begin a query. */
  lemma {:induction false} PrintOpens(d: Dialect, e: Expr, c: Prec, k: Tokens)
    requires ExprOk(Reading(d), e)
    ensures PrintIn(e, c, k).Cons? && Opens(PrintIn(e, c, k).head)
    decreases e, if Rank(e) >= c then 1 else 0
  {
    if Rank(e) < c {
      match e
      case Infix(op, a, b) =>
        PrintOpens(d, a, InfixRank(op), InfixTokens(op, PrintIn(b, InfixRank(op), k)));
      case Postfix(op, a) => PrintOpens(d, a, PostfixRank(op), PostfixTokens(op, k));
      case Between(neg, a, lo, hi) =>
        var k1 := PrintIn(lo, kBetween, Cons(Kw(AND), PrintIn(hi, kBetween, k)));
        PrintOpens(d, a, kBetween, NotToken(neg, Cons(Kw(BETWEEN), k1)));
      case Suffix(op, a, body) =>
        PrintOpens(d, a, SuffixRank(op), SuffixTokens(op, PrintBody(body, Cons(SuffixClose(op), k))));
      case _ =>
    }
  }

  // ---- the continuations are recognised

  lemma {:induction false} InfixAt(d: Dialect, op: InfixOp, k: Tokens)
    requires InfixOk(Reading(d), op) && k.Cons? && Opens(k.head)
    ensures ContAt(d, InfixTokens(op, k)) == InfixCont(op, k)
    ensures !At(InfixTokens(op, k), LParen)
  {
    if op.Sym? { SymAt(d, op.name, k); }
  }

  /** ANY and ALL behind an operator do not begin an operand. */
  lemma {:induction false} SymAt(d: Dialect, name: string, k: Tokens)
    requires k.Cons? && Opens(k.head)
    ensures ContAt(d, Cons(Op(name), k)) == InfixCont(Sym(name, d.InfixPrec(name)), k)
  {
  }

  lemma {:induction false} PostfixAt(d: Dialect, op: PostfixOp, k: Tokens)
    requires PostfixOk(Reading(d), op)
    ensures ContAt(d, PostfixTokens(op, k)) == PostfixCont(op, k)
    ensures !At(PostfixTokens(op, k), LParen)
  {
  }

  lemma {:induction false} SuffixAt(d: Dialect, op: SuffixOp, k: Tokens)
    ensures ContAt(d, SuffixTokens(op, k)) == SuffixCont(op, k)
    ensures !At(SuffixTokens(op, k), LParen)
  {
  }

  lemma {:induction false} BetweenAt(d: Dialect, neg: bool, k: Tokens)
    ensures ContAt(d, NotToken(neg, Cons(Kw(BETWEEN), k))) == BetweenCont(neg, k)
    ensures !At(NotToken(neg, Cons(Kw(BETWEEN), k)), LParen)
  {
  }

  /** One round of `Tail`: the operator of rank below `ctx` is taken in. */
  lemma {:induction false} TailTakes(d: Dialect, ctx: Prec, left: Expr, last: Prec, ts: Tokens, e: Expr, rest: Tokens)
    requires ContAt(d, ts) != NoCont && ContRank(ContAt(d, ts)) < ctx
    requires NonAssoc(ContRank(ContAt(d, ts))) ==> last != ContRank(ContAt(d, ts))
    requires Extend(d, left, ContAt(d, ts)) == Ok(e, rest)
    ensures Tail(d, ctx, left, last, ts) == Tail(d, ctx, e, ContRank(ContAt(d, ts)), rest)
  {
  }

  // ---- operands

  /** The operand form of the round trip: what `e` prints in a slot of context `c`, in
      front of anything that cannot continue it, is read as `e` and nothing more. */
  lemma {:induction false} OperandReads(d: Dialect, e: Expr, c: Prec, ctx: Prec, k: Tokens)
    requires d.Valid() && ExprOk(Reading(d), e) && kSymbol < c <= ctx
    requires Follows(d, k, c) && Fits(d, e, c, ctx, k)
    ensures Operand(d, ctx, PrintIn(e, c, k)) == Tail(d, ctx, Meaning(e), ReadRank(e, c), k)
    decreases e, if Rank(e) >= c then 10 else 8
  {
    if Rank(e) >= c {
      BracketedReads(d, e, k);
      HeadTail(d, ctx, PrintIn(e, c, k), Meaning(e), kSymbol, k);
    } else if e.Infix? || e.Postfix? || e.Between? || e.Suffix? || e.Call? {
      FollowsLess(d, k, c, Rank(e));
      CompoundReads(d, e, c, ctx, k);
    } else {
      FollowsLess(d, k, c, Rank(e));
      HeadReads(d, e, c, k);
      HeadTail(d, ctx, Print(e, k), Meaning(e), ReadRank(e, c), k);
    }
  }

  lemma {:induction false} HeadTail(d: Dialect, ctx: Prec, ts: Tokens, e: Expr, rank: Prec, k: Tokens)
    requires Head(d, ts) == Ok(Ranked(e, rank), k)
    ensures Operand(d, ctx, ts) == Tail(d, ctx, e, rank, k)
  {
  }

  lemma {:induction false} FollowsLess(d: Dialect, ts: Tokens, c: Prec, r: Prec)
    requires Follows(d, ts, c) && r <= c
    ensures Follows(d, ts, r)
  {
  }

  lemma {:induction false} BracketedReads(d: Dialect, e: Expr, k: Tokens)
    requires d.Valid() && ExprOk(Reading(d), e)
    ensures Head(d, Cons(LParen, Print(e, Cons(RParen, k)))) == Ok(Ranked(Meaning(e), kSymbol), k)
    decreases e, 9, 1
  {
    RankBound(d, e);
    EnclosedReads(d, e, Cons(RParen, k));
    ParenReads(d, PrintIn(e, kExtract, Cons(RParen, k)), Meaning(e), k);
  }

  /** The trees that are read by extending their first operand. */
  lemma {:induction false} CompoundReads(d: Dialect, e: Expr, c: Prec, ctx: Prec, k: Tokens)
    requires d.Valid() && ExprOk(Reading(d), e) && Rank(e) < c <= ctx
    requires e.Infix? || e.Postfix? || e.Between? || e.Suffix? || e.Call?
    requires Follows(d, k, Rank(e)) && Fits(d, e, c, ctx, k)
    ensures Operand(d, ctx, Print(e, k)) == Tail(d, ctx, Meaning(e), if e.Call? then HiddenRank(e) else Rank(e), k)
    decreases e, 7, 1
  {
    match e
    case Infix(_, _, _) => InfixReads(d, e, c, ctx, k);
    case Postfix(_, _) => PostfixReads(d, e, ctx, k);
    case Between(_, _, _, _) => BetweenReads(d, e, c, ctx, k);
    case Suffix(_, _, _) => SuffixReads(d, e, ctx, k);
    case Call(_, _, _, _) => CallReads(d, e, ctx, k);
  }

  /** The trees whose first tokens decide how they are read. */
  lemma {:induction false} HeadReads(d: Dialect, e: Expr, c: Prec, k: Tokens)
    requires d.Valid() && ExprOk(Reading(d), e) && !At(k, LParen) && Rank(e) < c
    requires StopsAt(d, k, EdgeRank(e, c)) && (e.Prefix? ==> StopsAt(d, k, PrefixRank(e.pop)))
    requires !(e.Infix? || e.Postfix? || e.Between? || e.Suffix? || e.Call?)
    ensures var rank := if e.Cast? then kSymbol else if e.Prefix? then PrefixRank(e.pop) else HiddenRank(e);
            Head(d, Print(e, k)) == Ok(Ranked(Meaning(e), rank), k)
    decreases e, 7, 1
  {
    match e
    case Leaf(tok) => LeafReads(d, tok, k);
    case NegNum(_) => NegNumReads(d, e, k);
    case Prefix(_, _) => PrefixReads(d, e, c, k);
    case Cast(_, _) => CastReads(d, e, k);
    case Case(_, _) => CaseReads(d, e, k);
    case Exists(q) => QueryReads(d, q, k);
    case NotExists(_) => NotExistsReads(d, e, k);
    case Scalar(q) => QueryReads(d, q, k);
  }

  lemma {:induction false} RankBound(d: Dialect, e: Expr)
    requires ExprOk(Reading(d), e)
    ensures Rank(e) < kExtract
  {
  }

  /** An operand that nothing continues is read completely. */
  lemma {:induction false} OperandEnds(d: Dialect, e: Expr, c: Prec, k: Tokens)
    requires d.Valid() && ExprOk(Reading(d), e) && kSymbol < c && Follows(d, k, c) && Fits(d, e, c, c, k)
    ensures Operand(d, c, PrintIn(e, c, k)) == Ok(Meaning(e), k)
    decreases e, 11
  {
    OperandReads(d, e, c, c, k);
  }

  /** An expression between delimiters is read completely, whatever it is. */
  lemma {:induction false} DelimitedReads(d: Dialect, e: Expr, k: Tokens)
    requires d.Valid() && ExprOk(Reading(d), e) && Closed(k)
    ensures Operand(d, kExtract, PrintIn(e, kExtract, k)) == Ok(Meaning(e), k)
    decreases e, 11
  {
    ClosedFollows(d, k, kExtract);
    ClosedFollows(d, k, EdgeRank(e, kExtract));
    RankBound(d, e);
    OperandReads(d, e, kExtract, kExtract, k);
  }

  /** The same in front of any token that continues no operand. */
  lemma {:induction false} StoppedReads(d: Dialect, e: Expr, k: Tokens)
    requires d.Valid() && ExprOk(Reading(d), e) && ContAt(d, k) == NoCont && !At(k, LParen)
    ensures Operand(d, kExtract, PrintIn(e, kExtract, k)) == Ok(Meaning(e), k)
    decreases e, 11
  {
    RankBound(d, e);
    OperandReads(d, e, kExtract, kExtract, k);
  }

  lemma {:induction false} EnclosedReads(d: Dialect, e: Expr, k: Tokens)
    requires d.Valid() && ExprOk(Reading(d), e) && Closed(k) && SetAt(k).Fail?
    ensures Enclosed(d, PrintIn(e, kExtract, k)) == Ok(Exprs(Cons(Meaning(e), Nil)), k)
    decreases e, 9, 0
  {
    PrintOpens(d, e, kExtract, k);
    RankBound(d, e);
    ClosedFollows(d, k, kExtract);
    ClosedFollows(d, k, EdgeRank(e, kExtract));
    OperandReads(d, e, kExtract, kExtract, k);
  }

  lemma {:induction false} ParenReads(d: Dialect, ts: Tokens, e: Expr, k: Tokens)
    requires Enclosed(d, ts) == Ok(Exprs(Cons(e, Nil)), Cons(RParen, k))
    ensures Head(d, Cons(LParen, ts)) == Ok(Ranked(e, kSymbol), k)
  {
    assert Head(d, Cons(LParen, ts)) == ParenHead(d, ts);
  }

  lemma {:induction false} LeafReads(d: Dialect, tok: Token, k: Tokens)
    requires LeafOk(tok) && !At(k, LParen)
    ensures Head(d, Cons(tok, k)) == Ok(Ranked(Leaf(tok), kSymbol), k)
  {
  }

  lemma {:induction false} LeafOperand(d: Dialect, tok: Token, c: Prec, k: Tokens)
    requires LeafOk(tok) && Follows(d, k, c)
    ensures Operand(d, c, Cons(tok, k)) == Ok(Leaf(tok), k)
  {
    LeafReads(d, tok, k);
  }

  lemma {:induction false} NegNumReads(d: Dialect, e: Expr, k: Tokens)
    requires d.Valid() && ExprOk(Reading(d), e) && e.NegNum? && Follows(d, k, kUnaryPlus)
    ensures Head(d, Print(e, k)) == Ok(Ranked(Meaning(e), kUnaryPlus), k)
  {
    LeafOperand(d, Num(e.digits), kUnaryPlus, k);
  }

  lemma {:induction false} InfixReads(d: Dialect, e: Expr, c: Prec, ctx: Prec, k: Tokens)
    requires d.Valid() && ExprOk(Reading(d), e) && e.Infix? && InfixRank(e.iop) < c <= ctx
    requires Follows(d, k, InfixRank(e.iop)) && StopsAt(d, k, EdgeRank(e, c))
    ensures Operand(d, ctx, Print(e, k)) == Tail(d, ctx, Meaning(e), InfixRank(e.iop), k)
    decreases e, 7, 0
  {
    var Infix(op, a, b) := e;
    var r := InfixRank(op);
    var k1 := PrintIn(b, r, k);
    var ts := InfixTokens(op, k1);
    PrintOpens(d, b, r, k);
    InfixAt(d, op, k1);
    OperandReads(d, a, r, ctx, ts);
    OperandReads(d, b, r, r, k);
    InfixStep(d, op, Meaning(a), k1, Meaning(b), k);
    TailTakes(d, ctx, Meaning(a), ReadRank(a, r), ts, Meaning(e), k);
  }

  lemma {:induction false} InfixStep(d: Dialect, op: InfixOp, left: Expr, ts: Tokens, b: Expr, k: Tokens)
    requires Operand(d, InfixRank(op), ts) == Ok(b, k)
    ensures Extend(d, left, InfixCont(op, ts)) == Ok(Infix(op, left, b), k)
  {
  }

  lemma {:induction false} PrefixHeadReads(d: Dialect, op: PrefixOp, k: Tokens)
    requires d.Valid() && PrefixOk(Reading(d), op)
    ensures Head(d, PrefixTokens(op, k)) == PrefixHead(d, if op.Custom? && op.name == "-" then Minus else op, k)
  {
    match op
    case NotOp => HeadNot(d, k);
    case Minus => HeadSign(d, "-", k);
    case Custom(name, _) => HeadSign(d, name, k);
  }

  lemma {:induction false} HeadNot(d: Dialect, k: Tokens)
    ensures Head(d, Cons(Kw(NOT), k)) == PrefixHead(d, NotOp, k)
  {
  }

  lemma {:induction false} HeadSign(d: Dialect, name: string, k: Tokens)
    requires name != "*"
    ensures Head(d, Cons(Op(name), k)) ==
      PrefixHead(d, if name == "-" then Minus else Custom(name, d.PrefixPrec(name)), k)
  {
  }

  lemma {:induction false} PrefixReads(d: Dialect, e: Expr, c: Prec, k: Tokens)
    requires d.Valid() && ExprOk(Reading(d), e) && e.Prefix? && Rank(e) < c
    requires Follows(d, k, PrefixRank(e.pop)) && StopsAt(d, k, EdgeRank(e, c))
    ensures Head(d, Print(e, k)) == Ok(Ranked(Meaning(e), PrefixRank(e.pop)), k)
    decreases e, 7, 0
  {
    var Prefix(op, a) := e;
    var r := PrefixRank(op);
    PrefixHeadReads(d, op, PrintIn(a, r, k));
    OperandEnds(d, a, r, k);
  }

  lemma {:induction false} PostfixReads(d: Dialect, e: Expr, ctx: Prec, k: Tokens)
    requires d.Valid() && ExprOk(Reading(d), e) && e.Postfix? && PostfixRank(e.qop) < ctx
    ensures Operand(d, ctx, Print(e, k)) == Tail(d, ctx, Meaning(e), PostfixRank(e.qop), k)
    decreases e, 7, 0
  {
    var Postfix(op, a) := e;
    PostfixAt(d, op, k);
    OperandReads(d, a, PostfixRank(op), ctx, PostfixTokens(op, k));
    TailTakes(d, ctx, Meaning(a), ReadRank(a, PostfixRank(op)), PostfixTokens(op, k), Meaning(e), k);
  }

  /** The two bounds: the AND between them is not taken for a conjunction. */
  lemma {:induction false} BoundsRead(d: Dialect, e: Expr, left: Expr, k: Tokens)
    requires d.Valid() && e.Between? && ExprOk(Reading(d), e.lo) && ExprOk(Reading(d), e.hi) && Follows(d, k, kBetween)
    requires StopsAt(d, k, EdgeRank(e.hi, kBetween))
    ensures Extend(d, left, BetweenCont(e.neg, PrintIn(e.lo, kBetween, Cons(Kw(AND), PrintIn(e.hi, kBetween, k)))))
         == Ok(Between(e.neg, left, Meaning(e.lo), Meaning(e.hi)), k)
    decreases e, 6
  {
    var k1 := Cons(Kw(AND), PrintIn(e.hi, kBetween, k));
    AndEnds(d, PrintIn(e.hi, kBetween, k));
    EdgeBound(e.lo, kBetween);
    OperandEnds(d, e.lo, kBetween, k1);
    OperandEnds(d, e.hi, kBetween, k);
    BoundsStep(d, e.neg, left, PrintIn(e.lo, kBetween, k1), Meaning(e.lo),
               PrintIn(e.hi, kBetween, k), Meaning(e.hi), k);
  }

  /** AND binds looser than BETWEEN: it ends the lower bound. */
  lemma {:induction false} AndEnds(d: Dialect, k: Tokens)
    ensures forall c: Prec :: c <= kAnd ==> Follows(d, Cons(Kw(AND), k), c)
  {
  }

  lemma {:induction false} BoundsStep(d: Dialect, neg: bool, left: Expr, ts: Tokens, lo: Expr, ts1: Tokens, hi: Expr,
                                      k: Tokens)
    requires Operand(d, kBetween, ts) == Ok(lo, Cons(Kw(AND), ts1)) && Operand(d, kBetween, ts1) == Ok(hi, k)
    ensures Extend(d, left, BetweenCont(neg, ts)) == Ok(Between(neg, left, lo, hi), k)
  {
  }

  lemma {:induction false} BetweenReads(d: Dialect, e: Expr, c: Prec, ctx: Prec, k: Tokens)
    requires d.Valid() && ExprOk(Reading(d), e) && e.Between? && kBetween < c <= ctx
    requires Follows(d, k, kBetween) && StopsAt(d, k, EdgeRank(e, c))
    ensures Operand(d, ctx, Print(e, k)) == Tail(d, ctx, Meaning(e), kBetween, k)
    decreases e, 7, 0
  {
    var Between(neg, a, lo, hi) := e;
    var k1 := PrintIn(lo, kBetween, Cons(Kw(AND), PrintIn(hi, kBetween, k)));
    var ts := NotToken(neg, Cons(Kw(BETWEEN), k1));
    BetweenAt(d, neg, k1);
    OperandReads(d, a, kBetween, ctx, ts);
    BoundsRead(d, e, Meaning(a), k);
    TailTakes(d, ctx, Meaning(a), ReadRank(a, kBetween), ts, Meaning(e), k);
  }

  lemma {:induction false} SuffixReads(d: Dialect, e: Expr, ctx: Prec, k: Tokens)
    requires d.Valid() && ExprOk(Reading(d), e) && e.Suffix? && SuffixRank(e.sop) < ctx
    ensures Operand(d, ctx, Print(e, k)) == Tail(d, ctx, Meaning(e), SuffixRank(e.sop), k)
    decreases e, 7, 0
  {
    var Suffix(op, a, body) := e;
    var r := SuffixRank(op);
    var k2 := Cons(SuffixClose(op), k);
    var k1 := PrintBody(body, k2);
    var ts := SuffixTokens(op, k1);
    SuffixAt(d, op, k1);
    OperandReads(d, a, r, ctx, ts);
    BodyReads(d, op, body, k2);
    TailTakes(d, ctx, Meaning(a), ReadRank(a, r), ts, Meaning(e), k);
  }

  lemma {:induction false} BodyReads(d: Dialect, op: SuffixOp, body: Body, k: Tokens)
    requires d.Valid() && BodyOk(Reading(d), op, body) && k.Cons? && k.head == SuffixClose(op)
    ensures SuffixBody(d, op, PrintBody(body, k)) == Ok(BodyMeaning(body), k)
    decreases body, 5
  {
    match body
    case Sub(q) =>
      SubqueryReads(d, q, k);
      SubStep(d, op, PrintRel(q, k), RelMeaning(q), k);
    case Exprs(es) =>
      if op.Subscript? {
        SubscriptReads(d, es, op, k);
      } else {
        ValuesRead(d, es, op, k);
      }
  }

  lemma {:induction false} SubscriptReads(d: Dialect, es: List<Expr>, op: SuffixOp, k: Tokens)
    requires d.Valid() && ListOk(Reading(d), es) && es.Cons? && es.tail.Nil? && op.Subscript? && At(k, RBracket)
    ensures SuffixBody(d, op, PrintList(es, k)) == Ok(Exprs(ListMeaning(es)), k)
    decreases es, 6
  {
    DelimitedReads(d, es.head, k);
  }

  lemma {:induction false} SubStep(d: Dialect, op: SuffixOp, ts: Tokens, q: Rel, k: Tokens)
    requires !op.Subscript? && Enclosed(d, ts) == Ok(Sub(q), k)
    ensures SuffixBody(d, op, ts) == Ok(Sub(q), k)
  {
  }

  lemma {:induction false} ValuesRead(d: Dialect, es: List<Expr>, op: SuffixOp, k: Tokens)
    requires d.Valid() && ListOk(Reading(d), es) && es.Cons? && At(k, RParen)
    requires !op.Subscript? && (op.InOp? || es.tail.Nil?)
    ensures SuffixBody(d, op, PrintList(es, k)) == Ok(Exprs(ListMeaning(es)), k)
    decreases es, 6
  {
    if es.tail.Nil? {
      EnclosedReads(d, es.head, k);
      BodyStep(d, op, PrintList(es, k), Exprs(Cons(Meaning(es.head), Nil)), k);
    } else {
      var ts := PrintList(es.tail, k);
      EnclosedReads(d, es.head, Cons(Comma, ts));
      ListReads(d, es.tail, k);
      ValuesStep(d, op, PrintList(es, k), Meaning(es.head), ts, ListMeaning(es.tail), k);
    }
  }

  lemma {:induction false} BodyStep(d: Dialect, op: SuffixOp, ts: Tokens, body: Body, k: Tokens)
    requires !op.Subscript? && Enclosed(d, ts) == Ok(body, k) && !At(k, Comma)
    ensures SuffixBody(d, op, ts) == Ok(body, k)
  {
  }

  lemma {:induction false} ValuesStep(d: Dialect, op: SuffixOp, ts: Tokens, e: Expr, ts1: Tokens, es: List<Expr>,
                                      k: Tokens)
    requires op.InOp? && Enclosed(d, ts) == Ok(Exprs(Cons(e, Nil)), Cons(Comma, ts1)) && ExprList(d, ts1) == Ok(es, k)
    ensures SuffixBody(d, op, ts) == Ok(Exprs(Cons(e, es)), k)
  {
    assert App(Cons(e, Nil), es) == Cons(e, es);
  }

  lemma {:induction false} ListReads(d: Dialect, es: List<Expr>, k: Tokens)
    requires d.Valid() && ListOk(Reading(d), es) && es.Cons? && Closed(k) && !At(k, Comma)
    ensures ExprList(d, PrintList(es, k)) == Ok(ListMeaning(es), k)
    decreases es, 5
  {
    if es.tail.Nil? {
      DelimitedReads(d, es.head, k);
    } else {
      DelimitedReads(d, es.head, Cons(Comma, PrintList(es.tail, k)));
      ListReads(d, es.tail, k);
    }
  }

  lemma {:induction false} PlainCallReads(d: Dialect, name: string, distinct: bool, args: List<Expr>, k: Tokens)
    requires d.Valid() && ListOk(Reading(d), args) && (distinct ==> args.Cons?)
    ensures Head(d, Cons(Word(name), Cons(LParen, PrintArgs(distinct, args, Cons(RParen, k)))))
         == Ok(Ranked(Call(Nil, name, distinct, ListMeaning(args)), kSymbol), k)
    decreases args, 6
  {
    var k1 := Cons(RParen, k);
    var ts := PrintArgs(distinct, args, k1);
    HeadCall(d, name, ts);
    if args.Cons? {
      ListReads(d, args, k1);
      ListOpens(d, args, k1);
      CallStep(d, name, distinct, PrintList(args, k1), ListMeaning(args), k);
    }
  }

  lemma {:induction false} HeadCall(d: Dialect, name: string, ts: Tokens)
    ensures Head(d, Cons(Word(name), Cons(LParen, ts))) == CallHead(d, name, ts)
  {
  }

  lemma {:induction false} CallStep(d: Dialect, name: string, distinct: bool, ts: Tokens, es: List<Expr>, k: Tokens)
    requires ts.Cons? && Opens(ts.head) && ExprList(d, ts) == Ok(es, Cons(RParen, k))
    ensures CallHead(d, name, if distinct then Cons(Kw(DISTINCT), ts) else ts) ==
      Ok(Ranked(Call(Nil, name, distinct, es), kSymbol), k)
  {
  }

  lemma {:induction false} ListOpens(d: Dialect, es: List<Expr>, k: Tokens)
    requires ListOk(Reading(d), es) && es.Cons?
    ensures PrintList(es, k).Cons? && Opens(PrintList(es, k).head)
  {
    var k1 := if es.tail.Nil? then k else Cons(Comma, PrintList(es.tail, k));
    PrintOpens(d, es.head, kExtract, k1);
  }

  /** One more member access. */
  lemma {:induction false} DotReads(d: Dialect, left: Expr, ts: Tokens, right: Expr, k: Tokens)
    requires Operand(d, kDot, ts) == Ok(right, k)
    ensures ContAt(d, Cons(Period, ts)) != NoCont && ContRank(ContAt(d, Cons(Period, ts))) == kDot
    ensures Extend(d, left, ContAt(d, Cons(Period, ts))) == Ok(Infix(Member, left, right), k)
  {
  }

  /** A dotted function name is read as member accesses ending in the call. */
  lemma {:induction false} ChainReads(d: Dialect, ctx: Prec, left: Expr, last: Prec, quals: List<Token>, call: Expr,
                                      ts: Tokens, k: Tokens)
    requires QualsOk(quals) && kDot < ctx
    requires ts.Cons? && ts.head.Word? && Head(d, ts) == Ok(Ranked(call, kSymbol), k) && StopsAt(d, k, kDot)
    ensures Tail(d, ctx, left, last, Cons(Period, QualTokens(quals, ts)))
         == Tail(d, ctx, Infix(Member, Chain(left, quals), call), kDot, k)
    decreases quals
  {
    var k0 := Cons(Period, QualTokens(quals, ts));
    match quals
    case Nil =>
      DotReads(d, left, ts, call, k);
      TailTakes(d, ctx, left, last, k0, Infix(Member, left, call), k);
    case Cons(q, rest) =>
      var k1 := Cons(Period, QualTokens(rest, ts));
      LeafOperand(d, q, kDot, k1);
      DotReads(d, left, Cons(q, k1), Leaf(q), k1);
      TailTakes(d, ctx, left, last, k0, Infix(Member, left, Leaf(q)), k1);
      ChainReads(d, ctx, Infix(Member, left, Leaf(q)), kDot, rest, call, ts, k);
  }

  lemma {:induction false} CallReads(d: Dialect, e: Expr, ctx: Prec, k: Tokens)
    requires d.Valid() && ExprOk(Reading(d), e) && e.Call? && !At(k, LParen)
    requires e.quals.Cons? ==> StopsAt(d, k, kDot) && kDot < ctx
    ensures Operand(d, ctx, Print(e, k))
         == Tail(d, ctx, Meaning(e), if e.quals.Nil? then kSymbol else kDot, k)
    decreases e, 7, 0
  {
    var Call(quals, name, distinct, args) := e;
    var ts := Cons(Word(name), Cons(LParen, PrintArgs(distinct, args, Cons(RParen, k))));
    PlainCallReads(d, name, distinct, args, k);
    if quals.Cons? {
      var call := Call(Nil, name, distinct, ListMeaning(args));
      ChainReads(d, ctx, Leaf(quals.head), kSymbol, quals.tail, call, ts, k);
      LeafReads(d, quals.head, Cons(Period, QualTokens(quals.tail, ts)));
    }
  }

  lemma {:induction false} CastHeadReads(d: Dialect, e: Expr, a: Expr, ts: Tokens, k: Tokens)
    requires e.Cast? && IsName(e.typ)
    requires Operand(d, kExtract, ts) == Ok(a, Cons(Kw(AS), Cons(e.typ, Cons(RParen, k))))
    ensures Head(d, Cons(Kw(CAST), Cons(LParen, ts))) == Ok(Ranked(Cast(a, e.typ), kSymbol), k)
  {
    assert Head(d, Cons(Kw(CAST), Cons(LParen, ts))) == CastHead(d, ts);
  }

  lemma {:induction false} CastReads(d: Dialect, e: Expr, k: Tokens)
    requires d.Valid() && ExprOk(Reading(d), e) && e.Cast?
    ensures Head(d, Print(e, k)) == Ok(Ranked(Meaning(e), kSymbol), k)
    decreases e, 7, 0
  {
    var k1 := Cons(Kw(AS), Cons(e.typ, Cons(RParen, k)));
    ClosedFollows(d, k1, kTypecast);
    ClosedFollows(d, k1, EdgeRank(e.a, kTypecast));
    ClosedFollows(d, k1, kExtract);
    OperandReads(d, e.a, kTypecast, kExtract, k1);
    CastHeadReads(d, e, Meaning(e.a), PrintIn(e.a, kTypecast, k1), k);
  }

  lemma {:induction false} CaseReads(d: Dialect, e: Expr, k: Tokens)
    requires d.Valid() && ExprOk(Reading(d), e) && e.Case?
    ensures Head(d, Print(e, k)) == Ok(Ranked(Meaning(e), kSymbol), k)
    decreases e, 7, 0
  {
    var k2 := Cons(Kw(END), k);
    var k1 := PrintClause(ELSE, e.els, k2);
    ClauseReads(d, ELSE, e.els, k2);
    WhensRead(d, e.whens, k1);
    CaseHeadReads(d, PrintWhens(e.whens, k1), k1, WhensMeaning(e.whens), OptionMeaning(e.els), k);
  }

  lemma {:induction false} CaseHeadReads(d: Dialect, ts: Tokens, ts1: Tokens, ws: List<When>, els: Option<Expr>,
                                         k: Tokens)
    requires Whens(d, ts) == Ok(ws, ts1) && Clause(d, ELSE, ts1) == Ok(els, Cons(Kw(END), k))
    ensures Head(d, Cons(Kw(CASE), ts)) == Ok(Ranked(Case(ws, els), kSymbol), k)
  {
    assert Head(d, Cons(Kw(CASE), ts)) == CaseHead(d, ts);
  }

  /** An optional clause is read, present or absent. */
  lemma {:induction false} ClauseReads(d: Dialect, kw: Keyword, o: Option<Expr>, k: Tokens)
    requires d.Valid() && OptionOk(Reading(d), o) && Closed(k) && !At(k, Kw(kw))
    ensures Clause(d, kw, PrintClause(kw, o, k)) == Ok(OptionMeaning(o), k)
    decreases o, 5
  {
    match o
    case None =>
    case Some(e) => DelimitedReads(d, e, k);
  }

  lemma {:induction false} WhensRead(d: Dialect, ws: List<When>, k: Tokens)
    requires d.Valid() && WhensOk(Reading(d), ws) && ws.Cons? && Closed(k) && !At(k, Kw(WHEN))
    ensures Whens(d, PrintWhens(ws, k)) == Ok(WhensMeaning(ws), k)
    decreases ws, 5
  {
    var k2 := PrintWhens(ws.tail, k);
    var k1 := Cons(Kw(THEN), PrintIn(ws.head.result, kExtract, k2));
    DelimitedReads(d, ws.head.cond, k1);
    DelimitedReads(d, ws.head.result, k2);
    WhensStep(d, PrintIn(ws.head.cond, kExtract, k1), Meaning(ws.head.cond),
              PrintIn(ws.head.result, kExtract, k2), Meaning(ws.head.result), k2);
    if ws.tail.Cons? {
      WhensRead(d, ws.tail, k);
    }
  }

  lemma {:induction false} WhensStep(d: Dialect, ts: Tokens, cond: Expr, ts1: Tokens, result: Expr, k: Tokens)
    requires Operand(d, kExtract, ts) == Ok(cond, Cons(Kw(THEN), ts1)) && Operand(d, kExtract, ts1) == Ok(result, k)
    ensures var r := Whens(d, Cons(Kw(WHEN), ts));
            var w := When(cond, result);
            (!At(k, Kw(WHEN)) ==> r == Ok(Cons(w, Nil), k)) &&
            (At(k, Kw(WHEN)) && Whens(d, k).Ok? ==> r == Ok(Cons(w, Whens(d, k).value), Whens(d, k).rest))
  {
  }

  // ---- table values

  /** What may follow a statement. */
  predicate QueryEnds(ts: Tokens) {
    ts.Nil? || ts.head == RParen
  }

  /** The place of a token in the fixed order of the clauses after FROM. */
  function Level(ts: Tokens): nat {
    if QueryEnds(ts) then 7
    else if At(ts, Kw(WHERE)) then 1
    else if At(ts, Kw(GROUP)) then 2
    else if At(ts, Kw(HAVING)) then 3
    else if At(ts, Kw(ORDER)) then 4
    else if At(ts, Kw(LIMIT)) then 5
    else if At(ts, Kw(OFFSET)) then 6
    else 0
  }

  lemma {:induction false} PathReads(p: List<Token>, k: Tokens)
    requires PathOk(p) && !At(k, Period)
    ensures Path(PathTokens(p, k)) == Ok(p, k)
    decreases p
  {
    if p.tail.Cons? {
      PathReads(p.tail, k);
    }
  }

  lemma {:induction false} PathNamed(p: List<Token>, k: Tokens)
    requires PathOk(p)
    ensures PathTokens(p, k).Cons? && IsName(PathTokens(p, k).head)
  {
  }

  lemma {:induction false} SetReads(kind: SetKind, k: Tokens)
    requires At(k, LParen)
    ensures SetAt(SetTokens(kind, k)) == Ok(kind, k) && Closed(SetTokens(kind, k))
    ensures !At(SetTokens(kind, k), Period) && !At(SetTokens(kind, k), Kw(AS))
  {
  }

  lemma {:induction false} JoinKindReads(kind: JoinKind, k: Tokens)
    ensures JoinAt(JoinTokens(kind, k)) == Ok(kind, k) && SetAt(JoinTokens(kind, k)).Fail?
    ensures !At(JoinTokens(kind, k), Period) && !At(JoinTokens(kind, k), Kw(AS))
  {
    JoinKindAt(kind, k);
  }

  lemma {:induction false} JoinKindAt(kind: JoinKind, k: Tokens)
    ensures JoinAt(JoinTokens(kind, k)) == Ok(kind, k)
  {
    match kind
    case Inner | Cross =>
    case LeftOuter | RightOuter | FullOuter => OuterAt(kind, k);
    case NaturalInner | NaturalLeftOuter | NaturalRightOuter | NaturalFullOuter => NaturalAt(kind, k);
  }

  lemma {:induction false} OuterAt(kind: JoinKind, k: Tokens)
    requires kind.LeftOuter? || kind.RightOuter? || kind.FullOuter?
    ensures JoinAt(JoinTokens(kind, k)) == Ok(kind, k)
  {
  }

  lemma {:induction false} NaturalAt(kind: JoinKind, k: Tokens)
    requires kind.NaturalInner? || kind.NaturalLeftOuter? || kind.NaturalRightOuter? || kind.NaturalFullOuter?
    ensures JoinAt(JoinTokens(kind, k)) == Ok(kind, k)
  {
  }

  /** A query in parentheses is a scalar subquery, or what EXISTS tests. */
  lemma {:induction false} QueryReads(d: Dialect, q: Rel, k: Tokens)
    requires d.Valid() && IsQuery(q) && RelOk(Reading(d), q)
    ensures Head(d, Cons(LParen, PrintRel(q, Cons(RParen, k)))) == Ok(Ranked(Scalar(RelMeaning(q)), kSymbol), k)
    ensures Head(d, Cons(Kw(EXISTS), Cons(LParen, PrintRel(q, Cons(RParen, k)))))
         == Ok(Ranked(Exists(RelMeaning(q)), kSymbol), k)
    decreases q, 6
  {
    var ts := PrintRel(q, Cons(RParen, k));
    SubqueryReads(d, q, Cons(RParen, k));
    ScalarStep(d, ts, RelMeaning(q), k);
    RelReads(d, q, Cons(RParen, k));
    ExistsStep(d, ts, RelMeaning(q), k);
  }

  lemma {:induction false} ScalarStep(d: Dialect, ts: Tokens, q: Rel, k: Tokens)
    requires Enclosed(d, ts) == Ok(Sub(q), Cons(RParen, k))
    ensures Head(d, Cons(LParen, ts)) == Ok(Ranked(Scalar(q), kSymbol), k)
  {
    assert Head(d, Cons(LParen, ts)) == ParenHead(d, ts);
  }

  lemma {:induction false} ExistsStep(d: Dialect, ts: Tokens, q: Rel, k: Tokens)
    requires ReadRel(d, ts) == Ok(q, Cons(RParen, k))
    ensures Head(d, Cons(Kw(EXISTS), Cons(LParen, ts))) == Ok(Ranked(Exists(q), kSymbol), k)
  {
    assert ExistsHead(d, ts) == Ok(Ranked(Exists(q), kSymbol), k);
    HeadExists(d, ts);
  }

  lemma {:induction false} HeadExists(d: Dialect, ts: Tokens)
    ensures Head(d, Cons(Kw(EXISTS), Cons(LParen, ts))) == ExistsHead(d, ts)
  {
  }

  lemma {:induction false} NotExistsReads(d: Dialect, e: Expr, k: Tokens)
    requires d.Valid() && ExprOk(Reading(d), e) && e.NotExists? && Follows(d, k, kNot)
    ensures Head(d, Print(e, k)) == Ok(Ranked(Meaning(e), kNot), k)
    decreases e, 7, 0
  {
    var k1 := Cons(Kw(EXISTS), Cons(LParen, PrintRel(e.query, Cons(RParen, k))));
    QueryReads(d, e.query, k);
    assert Operand(d, kNot, k1) == Ok(Exists(RelMeaning(e.query)), k);
    PrefixHeadReads(d, NotOp, k1);
  }

  lemma {:induction false} EnclosedSet(d: Dialect, ts: Tokens, a: Rel, ts1: Tokens, b: Rel, k: Tokens)
    requires At(ts, LParen) && Head(d, ts) == Ok(Ranked(Scalar(a), kSymbol), ts1)
    requires Closed(ts1) && SetAt(ts1).Ok? && RelOperand(d, SetAt(ts1).rest) == Ok(b, k)
    ensures Enclosed(d, ts) == Ok(Sub(SetOp(SetAt(ts1).value, a, b)), k)
  {
    ClosedFollows(d, ts1, kExtract);
    assert Operand(d, kExtract, ts) == Ok(Scalar(a), ts1);
  }

  /** Inside parentheses a query is told from an expression, also when it is a set
      operation, whose text begins like a bracketed expression. */
  lemma {:induction false} SubqueryReads(d: Dialect, q: Rel, k: Tokens)
    requires d.Valid() && IsQuery(q) && RelOk(Reading(d), q) && At(k, RParen)
    ensures Enclosed(d, PrintRel(q, k)) == Ok(Sub(RelMeaning(q)), k)
    decreases q, 5
  {
    if q.SetOp? {
      SetQueryReads(d, q, k);
    } else {
      RelReads(d, q, k);
    }
  }

  lemma {:induction false} SetQueryReads(d: Dialect, q: Rel, k: Tokens)
    requires d.Valid() && q.SetOp? && RelOk(Reading(d), q) && At(k, RParen)
    ensures Enclosed(d, PrintRel(q, k)) == Ok(Sub(RelMeaning(q)), k)
    decreases q, 4
  {
    var k2 := PrintBracketed(q.second, k);
    var k1 := SetTokens(q.setKind, k2);
    SetReads(q.setKind, k2);
    QueryReads(d, q.first, k1);
    BracketedRelReads(d, q.second, k);
    EnclosedSet(d, Cons(LParen, PrintRel(q.first, Cons(RParen, k1))), RelMeaning(q.first), k1, RelMeaning(q.second), k);
  }

  /** A table value as an operand of AS, JOIN or a set operator. */
  lemma {:induction false} BracketedRelReads(d: Dialect, r: Rel, k: Tokens)
    requires d.Valid() && RelOk(Reading(d), r) && !At(k, Period) && !At(k, Kw(AS))
    ensures RelOperand(d, PrintBracketed(r, k)) == Ok(RelMeaning(r), k)
    decreases r, 4
  {
    if r.Table? || r.Alias? {
      NamedReads(d, r, k);
    } else {
      RelReads(d, r, Cons(RParen, k));
      AliasStep(d, RelMeaning(r), PrintRel(r, Cons(RParen, k)), k);
    }
  }

  lemma {:induction false} AliasReads(r: Rel, name: List<Token>, k: Tokens)
    requires PathOk(name) && !At(k, Period)
    ensures AliasAt(r, Cons(Kw(AS), PathTokens(name, k))) == Ok(Alias(r, name), k)
  {
    PathReads(name, k);
  }

  lemma {:induction false} AliasStep(d: Dialect, r: Rel, ts: Tokens, ts1: Tokens)
    requires ReadRel(d, ts) == Ok(r, Cons(RParen, ts1)) && !r.Table? && !r.Alias?
    ensures RelOperand(d, Cons(LParen, ts)) == AliasAt(r, ts1)
  {
  }

  lemma {:induction false} TableStep(d: Dialect, path: List<Token>, k: Tokens)
    requires PathOk(path) && !At(k, Period)
    ensures RelOperand(d, PathTokens(path, k)) == AliasAt(Table(path), k)
  {
    PathReads(path, k);
    PathNamed(path, k);
  }

  lemma {:induction false} NamedReads(d: Dialect, r: Rel, k: Tokens)
    requires d.Valid() && RelOk(Reading(d), r) && (r.Table? || r.Alias?) && !At(k, Period) && !At(k, Kw(AS))
    ensures RelOperand(d, PrintRel(r, k)) == Ok(RelMeaning(r), k)
    decreases r, 1
  {
    match r
    case Table(path) => TableStep(d, path, k);
    case Alias(x, name) =>
      var k1 := Cons(Kw(AS), PathTokens(name, k));
      AliasReads(RelMeaning(x), name, k);
      assert PrintRel(r, k) == PrintBracketed(x, k1);
      if x.Table? {
        TableStep(d, x.path, k1);
        assert PrintBracketed(x, k1) == PathTokens(x.path, k1);
      } else {
        RelReads(d, x, Cons(RParen, k1));
        AliasStep(d, RelMeaning(x), PrintRel(x, Cons(RParen, k1)), k1);
      }
  }

  lemma {:induction false} QualReads(d: Dialect, q: Qualifier, k: Tokens)
    requires d.Valid() && QualOk(Reading(d), q) && Level(k) > 0
    ensures QualAt(d, PrintQual(q, k)) == Ok(QualMeaning(q), k)
    ensures !At(PrintQual(q, k), Period) && !At(PrintQual(q, k), Kw(AS))
    decreases q, 5
  {
    LevelEnds(k);
    match q
    case NoQualifier => NoQualStep(d, k);
    case OnCond(e) => DelimitedReads(d, e, k);
    case UsingCols(es) =>
      ListReads(d, es, Cons(RParen, k));
      UsingStep(d, PrintList(es, Cons(RParen, k)), ListMeaning(es), k);
  }

  lemma {:induction false} NoQualStep(d: Dialect, k: Tokens)
    requires Level(k) > 0
    ensures QualAt(d, k) == Ok(NoQualifier, k)
  {
  }

  lemma {:induction false} UsingStep(d: Dialect, ts: Tokens, es: List<Expr>, k: Tokens)
    requires ExprList(d, ts) == Ok(es, Cons(RParen, k))
    ensures QualAt(d, Cons(Kw(USING), Cons(LParen, ts))) == Ok(UsingCols(es), k)
  {
  }

  lemma {:induction false} JoinReads(d: Dialect, r: Rel, left: Rel, k: Tokens)
    requires d.Valid() && RelOk(Reading(d), r) && r.Join? && Level(k) > 0
    ensures Joins(d, left, JoinTokens(r.kind, PrintBracketed(r.right, PrintQual(r.qual, k))))
         == Ok(Join(r.kind, left, RelMeaning(r.right), QualMeaning(r.qual)), k)
    decreases r, 1
  {
    var k1 := PrintQual(r.qual, k);
    QualReads(d, r.qual, k);
    BracketedRelReads(d, r.right, k1);
    JoinKindReads(r.kind, PrintBracketed(r.right, k1));
    JoinsStep(d, left, JoinTokens(r.kind, PrintBracketed(r.right, k1)), RelMeaning(r.right), k1,
              QualMeaning(r.qual), k);
  }

  lemma {:induction false} JoinsStep(d: Dialect, left: Rel, ts: Tokens, b: Rel, ts1: Tokens, q: Qualifier, k: Tokens)
    requires JoinAt(ts).Ok? && RelOperand(d, JoinAt(ts).rest) == Ok(b, ts1) && QualAt(d, ts1) == Ok(q, k)
    requires Level(k) > 0
    ensures Joins(d, left, ts) == Ok(Join(JoinAt(ts).value, left, b, q), k)
  {
    LevelEnds(k);
    JoinsEnd(d, Join(JoinAt(ts).value, left, b, q), k);
  }

  lemma {:induction false} LevelEnds(k: Tokens)
    requires Level(k) > 0
    ensures SetAt(k).Fail? && JoinAt(k).Fail? && Closed(k) && !At(k, Comma) && !At(k, Period) && !At(k, Kw(AS))
  {
    LevelCloses(k);
  }

  lemma {:induction false} LevelCloses(k: Tokens)
    requires Level(k) > 0
    ensures Closed(k) && !At(k, Comma)
  {
  }

  lemma {:induction false} JoinsEnd(d: Dialect, left: Rel, k: Tokens)
    requires JoinAt(k).Fail?
    ensures Joins(d, left, k) == Ok(left, k)
  {
  }

  /** What a FROM clause names, up to the next clause. */
  lemma {:induction false} FromReads(d: Dialect, r: Rel, k: Tokens)
    requires d.Valid() && RelOk(Reading(d), r) && IsFromItem(r) && Level(k) > 0
    ensures var t := RelOperand(d, PrintRel(r, k));
            t.Ok? && SetAt(t.rest).Fail? && Joins(d, t.value, t.rest) == Ok(RelMeaning(r), k)
    decreases r, 2
  {
    if r.Join? {
      var k1 := PrintBracketed(r.right, PrintQual(r.qual, k));
      JoinKindReads(r.kind, k1);
      BracketedRelReads(d, r.left, JoinTokens(r.kind, k1));
      JoinReads(d, r, RelMeaning(r.left), k);
    } else {
      LevelEnds(k);
      NamedReads(d, r, k);
      JoinsEnd(d, RelMeaning(r), k);
    }
  }

  lemma {:induction false} FromOpens(d: Dialect, r: Rel, k: Tokens)
    requires RelOk(Reading(d), r) && (IsFromItem(r) || r.SetOp?)
    ensures !At(PrintRel(r, k), Kw(SELECT)) && !At(PrintRel(r, k), Kw(WITH)) && PrintRel(r, k).Cons?
    ensures !At(PrintRel(r, k), Comma)
    decreases r
  {
    match r
    case Table(path) => PathNamed(path, k);
    case Alias(x, name) => if x.Table? { FromOpens(d, x, Cons(Kw(AS), PathTokens(name, k))); }
    case Join(kind, a, b, qual) =>
      if a.Table? || a.Alias? {
        FromOpens(d, a, JoinTokens(kind, PrintBracketed(b, PrintQual(qual, k))));
      }
    case SetOp(_, _, _) =>
  }

  /** The round trip of a whole table value. */
  lemma {:induction false} RelReads(d: Dialect, r: Rel, k: Tokens)
    requires d.Valid() && RelOk(Reading(d), r) && QueryEnds(k)
    ensures ReadRel(d, PrintRel(r, k)) == Ok(RelMeaning(r), k)
    decreases r, 3
  {
    match r
    case Select(_, _, _, _, _, _, _, _, _) => SelectReads(d, r, k);
    case With(_, _) => WithReads(d, r, k);
    case SetOp(_, _, _) => SetOpReads(d, r, k);
    case _ =>
      FromOpens(d, r, k);
      FromReads(d, r, k);
  }

  lemma {:induction false} SetOpReads(d: Dialect, r: Rel, k: Tokens)
    requires d.Valid() && RelOk(Reading(d), r) && r.SetOp? && QueryEnds(k)
    ensures ReadRel(d, PrintRel(r, k)) == Ok(RelMeaning(r), k)
    decreases r, 2
  {
    var SetOp(kind, a, b) := r;
    var k1 := PrintBracketed(b, k);
    SetReads(kind, k1);
    FromOpens(d, r, k);
    BracketedRelReads(d, a, SetTokens(kind, k1));
    BracketedRelReads(d, b, k);
  }

  // ---- statements

  lemma {:induction false} WithReads(d: Dialect, r: Rel, k: Tokens)
    requires d.Valid() && RelOk(Reading(d), r) && r.With? && QueryEnds(k)
    ensures ReadRel(d, PrintRel(r, k)) == Ok(RelMeaning(r), k)
    decreases r, 2
  {
    var ts := PrintRel(r.main, k);
    assert !At(ts, Comma) by {
      if r.main.SetOp? { FromOpens(d, r.main, k); }
    }
    RelReads(d, r.main, k);
    CtesRead(d, r.ctes, ts);
    assert ReadRel(d, PrintRel(r, k)) == ReadWith(d, PrintCtes(r.ctes, ts));
  }

  lemma {:induction false} CtesRead(d: Dialect, ctes: List<Cte>, k: Tokens)
    requires d.Valid() && CtesOk(Reading(d), ctes) && ctes.Cons? && !At(k, Comma)
    ensures Ctes(d, PrintCtes(ctes, k)) == Ok(CtesMeaning(ctes), k)
    decreases ctes, 5
  {
    var c := ctes.head;
    var k1 := if ctes.tail.Nil? then k else Cons(Comma, PrintCtes(ctes.tail, k));
    var ts := PrintRel(c.query, Cons(RParen, k1));
    PathReads(c.name, Cons(Kw(AS), Cons(LParen, ts)));
    RelReads(d, c.query, Cons(RParen, k1));
    assert PrintCtes(ctes, k) == PathTokens(c.name, Cons(Kw(AS), Cons(LParen, ts)));
    CtesStep(d, PrintCtes(ctes, k), c.name, ts, RelMeaning(c.query), k1);
    if ctes.tail.Cons? {
      CtesRead(d, ctes.tail, k);
    }
  }

  lemma {:induction false} CtesStep(d: Dialect, ts: Tokens, name: List<Token>, ts1: Tokens, q: Rel, k: Tokens)
    requires Path(ts) == Ok(name, Cons(Kw(AS), Cons(LParen, ts1))) && ReadRel(d, ts1) == Ok(q, Cons(RParen, k))
    ensures !At(k, Comma) ==> Ctes(d, ts) == Ok(Cons(Cte(name, q), Nil), k)
    ensures At(k, Comma) && Ctes(d, k.tail).Ok? ==>
      Ctes(d, ts) == Ok(Cons(Cte(name, q), Ctes(d, k.tail).value), Ctes(d, k.tail).rest)
  {
  }

  lemma {:induction false} SelectReads(d: Dialect, r: Rel, k: Tokens)
    requires d.Valid() && RelOk(Reading(d), r) && r.Select? && QueryEnds(k)
    ensures ReadRel(d, PrintRel(r, k)) == Ok(RelMeaning(r), k)
    decreases r, 2
  {
    var k3 := PrintClauses(r, k);
    var k2 := Cons(Kw(FROM), PrintRel(r.from, k3));
    var k1 := PrintItems(r.items, k2);
    ClausesLevel(d, r, k);
    FromReads(d, r.from, k3);
    ItemsRead(d, r.items, k2);
    DistinctReads(d, r.distinct, k1);
    ClausesRead(d, r, RelMeaning(r.from), k);
    SelectPrints(r, k);
    SelectStep(d, PrintDistinct(r.distinct, k1), DistinctMeaning(r.distinct), k1, ItemsMeaning(r.items),
               PrintRel(r.from, k3), RelMeaning(r.from), k3);
  }

  lemma {:induction false} SelectPrints(r: Rel, k: Tokens)
    requires r.Select?
    ensures PrintRel(r, k) == Cons(Kw(SELECT), PrintDistinct(r.distinct, PrintItems(r.items,
                                Cons(Kw(FROM), PrintRel(r.from, PrintClauses(r, k))))))
  {
  }

  lemma {:induction false} SelectStep(d: Dialect, ts: Tokens, dis: Distinctness, ts1: Tokens, items: List<Item>,
                                      ts2: Tokens, from: Rel, ts3: Tokens)
    requires DistinctAt(d, ts) == Ok(dis, ts1) && Items(d, ts1) == Ok(items, Cons(Kw(FROM), ts2))
    requires var t := RelOperand(d, ts2); t.Ok? && Joins(d, t.value, t.rest) == Ok(from, ts3)
    ensures ReadRel(d, Cons(Kw(SELECT), ts)) == ReadClauses(d, dis, items, from, ts3)
  {
    assert ReadRel(d, Cons(Kw(SELECT), ts)) == ReadSelect(d, ts);
  }

  lemma {:induction false} DistinctReads(d: Dialect, dis: Distinctness, k: Tokens)
    requires d.Valid() && DistinctOk(Reading(d), dis) && k.Cons? && Opens(k.head)
    ensures DistinctAt(d, PrintDistinct(dis, k)) == Ok(DistinctMeaning(dis), k)
    decreases dis, 5
  {
    match dis
    case DistinctOn(es) =>
      ListReads(d, es, Cons(RParen, k));
      DistinctStep(d, PrintList(es, Cons(RParen, k)), ListMeaning(es), k);
    case _ =>
  }

  lemma {:induction false} DistinctStep(d: Dialect, ts: Tokens, es: List<Expr>, k: Tokens)
    requires ExprList(d, ts) == Ok(es, Cons(RParen, k))
    ensures DistinctAt(d, Cons(Kw(DISTINCT), Cons(Kw(ON), Cons(LParen, ts)))) == Ok(DistinctOn(es), k)
  {
  }

  lemma {:induction false} ItemsRead(d: Dialect, items: List<Item>, k: Tokens)
    requires d.Valid() && ItemsOk(Reading(d), items) && items.Cons?
    requires Closed(k) && !At(k, Kw(AS)) && !At(k, Comma)
    ensures Items(d, PrintItems(items, k)) == Ok(ItemsMeaning(items), k)
    ensures PrintItems(items, k).Cons? && Opens(PrintItems(items, k).head)
    decreases items, 5
  {
    var i := items.head;
    var k1 := if items.tail.Nil? then k else Cons(Comma, PrintItems(items.tail, k));
    var ts := AliasTokens(i.alias, k1);
    DelimitedReads(d, i.e, ts);
    PrintOpens(d, i.e, kExtract, ts);
    ItemsStep(d, PrintItems(items, k), Meaning(i.e), i.alias, k1);
    if items.tail.Cons? {
      ItemsRead(d, items.tail, k);
    }
  }

  lemma {:induction false} ItemsStep(d: Dialect, ts: Tokens, e: Expr, alias: Option<string>, k: Tokens)
    requires Operand(d, kExtract, ts) == Ok(e, AliasTokens(alias, k)) && !At(k, Kw(AS))
    ensures !At(k, Comma) ==> Items(d, ts) == Ok(Cons(Item(e, alias), Nil), k)
    ensures At(k, Comma) && Items(d, k.tail).Ok? ==>
      Items(d, ts) == Ok(Cons(Item(e, alias), Items(d, k.tail).value), Items(d, k.tail).rest)
  {
    assert ItemAliasAt(AliasTokens(alias, k)) == (alias, k);
  }

  lemma {:induction false} IntReads(n: int, k: Tokens)
    ensures IntAt(IntTokens(n, k)) == Ok(n, k)
  {
    if n < 0 { NatOfDigits(-n); } else { NatOfDigits(n); }
  }

  lemma {:induction false} IntClauseReads(kw: Keyword, o: Option<int>, k: Tokens)
    requires !At(k, Kw(kw))
    ensures IntClause(kw, PrintInt(kw, o, k)) == Ok(o, k)
  {
    if o.Some? { IntReads(o.value, k); }
  }

  lemma {:induction false} GroupReads(d: Dialect, o: Option<List<Expr>>, k: Tokens)
    requires d.Valid() && GroupOk(Reading(d), o) && Level(k) > 2
    ensures GroupAt(d, PrintGroup(o, k)) == Ok(GroupMeaning(o), k)
    decreases o, 5
  {
    match o
    case None => NoGroup(d, k);
    case Some(es) =>
      LevelCloses(k);
      ListReads(d, es, k);
      GroupStep(d, PrintList(es, k), ListMeaning(es), k);
  }

  lemma {:induction false} NoGroup(d: Dialect, k: Tokens)
    requires Level(k) > 2
    ensures GroupAt(d, k) == Ok(None, k)
  {
  }

  lemma {:induction false} GroupStep(d: Dialect, ts: Tokens, es: List<Expr>, k: Tokens)
    requires ExprList(d, ts) == Ok(es, k)
    ensures GroupAt(d, Cons(Kw(GROUP), Cons(Kw(BY), ts))) == Ok(Some(es), k)
  {
  }

  lemma {:induction false} OrderReads(d: Dialect, o: Option<List<OrderTerm>>, k: Tokens)
    requires d.Valid() && OrderOk(Reading(d), o) && Level(k) > 4
    ensures OrderAt(d, PrintOrder(o, k)) == Ok(OrderMeaning(o), k)
    decreases o, 5
  {
    if o.Some? {
      TermsRead(d, o.value, k);
      OrderStep(d, PrintTerms(o.value, k), TermsMeaning(o.value), k);
    }
  }

  lemma {:induction false} OrderStep(d: Dialect, ts: Tokens, terms: List<OrderTerm>, k: Tokens)
    requires Terms(d, ts) == Ok(terms, k)
    ensures OrderAt(d, Cons(Kw(ORDER), Cons(Kw(BY), ts))) == Ok(Some(terms), k)
  {
  }

  lemma {:induction false} DirectionReads(desc: bool, nulls: Nulls, k: Tokens)
    requires Closed(k) && !At(k, Kw(DESC)) && !At(k, Kw(NULLS))
    ensures var ts := DirectionTokens(desc, NullsTokens(nulls, k));
            Closed(ts) && DirectionAt(ts) == (desc, NullsTokens(nulls, k)) &&
            NullsAt(NullsTokens(nulls, k)) == (nulls, k)
  {
  }

  lemma {:induction false} TermsRead(d: Dialect, terms: List<OrderTerm>, k: Tokens)
    requires d.Valid() && TermsOk(Reading(d), terms) && terms.Cons? && Level(k) > 4
    ensures Terms(d, PrintTerms(terms, k)) == Ok(TermsMeaning(terms), k)
    decreases terms, 5
  {
    var t := terms.head;
    var k1 := if terms.tail.Nil? then k else Cons(Comma, PrintTerms(terms.tail, k));
    DirectionReads(t.desc, t.nulls, k1);
    DelimitedReads(d, t.e, DirectionTokens(t.desc, NullsTokens(t.nulls, k1)));
    TermsStep(d, PrintTerms(terms, k), Meaning(t.e), t.desc, t.nulls, k1);
    if terms.tail.Cons? {
      TermsRead(d, terms.tail, k);
    }
  }

  lemma {:induction false} TermsStep(d: Dialect, ts: Tokens, e: Expr, desc: bool, nulls: Nulls, k: Tokens)
    requires Operand(d, kExtract, ts) == Ok(e, DirectionTokens(desc, NullsTokens(nulls, k)))
    requires Closed(k) && !At(k, Kw(DESC)) && !At(k, Kw(NULLS))
    ensures !At(k, Comma) ==> Terms(d, ts) == Ok(Cons(OrderTerm(e, desc, nulls), Nil), k)
    ensures At(k, Comma) && Terms(d, k.tail).Ok? ==>
      Terms(d, ts) == Ok(Cons(OrderTerm(e, desc, nulls), Terms(d, k.tail).value), Terms(d, k.tail).rest)
  {
    DirectionReads(desc, nulls, k);
  }

  lemma {:induction false} ClausesLevel(d: Dialect, r: Rel, k: Tokens)
    requires r.Select? && QueryEnds(k)
    ensures Level(PrintClauses(r, k)) > 0
  {
  }

  /** Every optional clause is read where the printer put it, or found missing. */
  lemma {:induction false} ClausesRead(d: Dialect, r: Rel, from: Rel, k: Tokens)
    requires d.Valid() && r.Select? && ClausesOk(Reading(d), r) && QueryEnds(k)
    ensures ReadClauses(d, DistinctMeaning(r.distinct), ItemsMeaning(r.items), from, PrintClauses(r, k))
         == Ok(Select(DistinctMeaning(r.distinct), ItemsMeaning(r.items), from, OptionMeaning(r.where),
                      GroupMeaning(r.group), OptionMeaning(r.having), OrderMeaning(r.order), r.limit, r.offset), k)
    decreases r, 1
  {
    var k6 := PrintInt(OFFSET, r.offset, k);
    var k5 := PrintInt(LIMIT, r.limit, k6);
    var k4 := PrintOrder(r.order, k5);
    var k3 := PrintClause(HAVING, r.having, k4);
    var k2 := PrintGroup(r.group, k3);
    EarlyClausesRead(d, r, k);
    LateClausesRead(d, r, k);
    assert PrintClauses(r, k) == PrintClause(WHERE, r.where, k2);
  }

  lemma {:induction false} EarlyClausesRead(d: Dialect, r: Rel, k: Tokens)
    requires d.Valid() && r.Select? && ClausesOk(Reading(d), r) && QueryEnds(k)
    ensures var k4 := PrintOrder(r.order, PrintInt(LIMIT, r.limit, PrintInt(OFFSET, r.offset, k)));
            var k3 := PrintClause(HAVING, r.having, k4);
            var k2 := PrintGroup(r.group, k3);
            Clause(d, WHERE, PrintClause(WHERE, r.where, k2)) == Ok(OptionMeaning(r.where), k2) &&
            GroupAt(d, k2) == Ok(GroupMeaning(r.group), k3) &&
            Clause(d, HAVING, k3) == Ok(OptionMeaning(r.having), k4)
    decreases r, 0
  {
    var k4 := PrintOrder(r.order, PrintInt(LIMIT, r.limit, PrintInt(OFFSET, r.offset, k)));
    var k3 := PrintClause(HAVING, r.having, k4);
    LevelAfterHaving(r, k);
    LevelOfHaving(r.having, k4);
    LevelOfGroup(r.group, k3);
    ClauseReads(d, HAVING, r.having, k4);
    GroupReads(d, r.group, k3);
    ClauseReads(d, WHERE, r.where, PrintGroup(r.group, k3));
  }

  lemma {:induction false} LevelAfterHaving(r: Rel, k: Tokens)
    requires r.Select? && QueryEnds(k)
    ensures Level(PrintOrder(r.order, PrintInt(LIMIT, r.limit, PrintInt(OFFSET, r.offset, k)))) > 3
  {
  }

  lemma {:induction false} LevelOfHaving(o: Option<Expr>, k: Tokens)
    requires Level(k) > 3
    ensures Level(PrintClause(HAVING, o, k)) > 2 && Closed(k) && !At(k, Kw(HAVING))
  {
  }

  lemma {:induction false} LevelOfGroup(o: Option<List<Expr>>, k: Tokens)
    requires Level(k) > 2
    ensures Level(PrintGroup(o, k)) > 1 && Closed(PrintGroup(o, k)) && !At(PrintGroup(o, k), Kw(WHERE))
  {
  }

  lemma {:induction false} LateClausesRead(d: Dialect, r: Rel, k: Tokens)
    requires d.Valid() && r.Select? && ClausesOk(Reading(d), r) && QueryEnds(k)
    ensures var k6 := PrintInt(OFFSET, r.offset, k);
            var k5 := PrintInt(LIMIT, r.limit, k6);
            OrderAt(d, PrintOrder(r.order, k5)) == Ok(OrderMeaning(r.order), k5) &&
            IntClause(LIMIT, k5) == Ok(r.limit, k6) && IntClause(OFFSET, k6) == Ok(r.offset, k)
    decreases r, 0
  {
    var k6 := PrintInt(OFFSET, r.offset, k);
    assert Level(PrintInt(LIMIT, r.limit, k6)) > 4;
    IntClauseReads(OFFSET, r.offset, k);
    IntClauseReads(LIMIT, r.limit, k6);
    OrderReads(d, r.order, PrintInt(LIMIT, r.limit, k6));
  }
}
