/** Where the printer does not keep the meaning: a negative number and NOT EXISTS are leaves
    to the printer although their texts begin with an operator, which stays open at the
    right edge of whatever ends with them and takes in a tighter operator that follows. */
module OpenEdges {
  import opened Basics
  import opened Precedence
  import opened Tokens
  import opened Lexer
  import opened Syntax
  import opened Printer
  import opened Grammar
  import opened WellFormed
  import opened ReadBack
  import opened Render
  import opened LexPrint
  import opened RoundTrip

  /** The leaf that keeps the right edge of `e` open in a slot of context `c`. */
  function EdgeLeaf(e: Expr, c: Prec): (h: Expr)
    requires EdgeRank(e, c) > kDot
    ensures (h.NegNum? || h.NotExists?) && HiddenRank(h) == EdgeRank(e, c)
    decreases e
  {
    match e
    case Infix(op, _, b) => EdgeLeaf(b, InfixRank(op))
    case Between(_, _, _, hi) => EdgeLeaf(hi, kBetween)
    case Prefix(op, a) => EdgeLeaf(a, PrefixRank(op))
    case _ => e
  }

  /** The prefix operator and the atom that a negative number or NOT EXISTS really is. */
  function HiddenOp(h: Expr): PrefixOp
    requires h.NegNum? || h.NotExists?
  {
    if h.NegNum? then Minus else NotOp
  }

  function HiddenAtom(h: Expr): Expr
    requires h.NegNum? || h.NotExists?
  {
    if h.NegNum? then Leaf(Num(h.digits)) else Exists(h.query)
  }

  /** The atom at the open edge, as it is read. */
  function EdgeAtom(e: Expr, c: Prec): Expr
    requires EdgeRank(e, c) > kDot
  {
    Meaning(HiddenAtom(EdgeLeaf(e, c)))
  }

  /** How `e` is read when the atom at its edge becomes `x`, the operator behind `e` having
      been taken in there. */
  function Taken(e: Expr, c: Prec, x: Expr): Expr
    requires EdgeRank(e, c) > kDot
    decreases e
  {
    match e
    case Infix(op, a, b) => Infix(op, Meaning(a), Taken(b, InfixRank(op), x))
    case Between(neg, a, lo, hi) => Between(neg, Meaning(a), Meaning(lo), Taken(hi, kBetween, x))
    case Prefix(op, a) => Prefix(Plain(op), Taken(a, PrefixRank(op), x))
    case NegNum(_) => Prefix(Minus, x)
    case NotExists(_) => Prefix(NotOp, x)
  }

  function Plain(op: PrefixOp): PrefixOp {
    if op.Custom? && op.name == "-" then Minus else op
  }

  lemma {:induction false} HiddenPrint(h: Expr, k: Tokens)
    requires h.NegNum? || h.NotExists?
    ensures Print(h, k) == PrefixTokens(HiddenOp(h), Print(HiddenAtom(h), k))
    ensures HiddenRank(h) == PrefixRank(HiddenOp(h))
  {
  }

  lemma {:induction false} AtomReads(d: Dialect, h: Expr, k: Tokens)
    requires d.Valid() && ExprOk(Reading(d), h) && (h.NegNum? || h.NotExists?) && !At(k, LParen)
    ensures Head(d, Print(HiddenAtom(h), k)) == Ok(Ranked(Meaning(HiddenAtom(h)), kSymbol), k)
  {
    match h
    case NegNum(digits) => LeafReads(d, Num(digits), k);
    case NotExists(q) => ExistsReads(d, q, k);
  }

  lemma {:induction false} ExistsReads(d: Dialect, q: Rel, k: Tokens)
    requires d.Valid() && IsQuery(q) && RelOk(Reading(d), q)
    ensures Head(d, Print(Exists(q), k)) == Ok(Ranked(Exists(RelMeaning(q)), kSymbol), k)
  {
    QueryReads(d, q, k);
  }

  // ---- the operator behind an open edge is taken in there

  /** `k` begins with an operator that binds tighter than `h` allows, and `x` is what it
      makes of the atom of `h`. */
  predicate TakesIn(d: Dialect, h: Expr, k: Tokens, x: Expr)
    requires h.NegNum? || h.NotExists?
  {
    !At(k, LParen) && ContAt(d, k) != NoCont && ContRank(ContAt(d, k)) < HiddenRank(h) &&
    Extend(d, Meaning(HiddenAtom(h)), ContAt(d, k)) == Ok(x, Nil)
  }

  lemma {:induction false} EdgeTakes(d: Dialect, e: Expr, c: Prec, ctx: Prec, k: Tokens, x: Expr)
    requires d.Valid() && ExprOk(Reading(d), e) && c <= ctx && EdgeRank(e, c) > kDot
    requires TakesIn(d, EdgeLeaf(e, c), k, x)
    ensures Operand(d, ctx, PrintIn(e, c, k)) == Ok(Taken(e, c, x), Nil)
    decreases e
  {
    match e
    case Infix(_, _, _) => InfixTakes(d, e, c, ctx, k, x);
    case Between(_, _, _, _) => BetweenTakes(d, e, c, ctx, k, x);
    case Prefix(op, a) =>
      EdgeTakes(d, a, PrefixRank(op), PrefixRank(op), k, x);
      PrefixHeadReads(d, op, PrintIn(a, PrefixRank(op), k));
      HeadEnds(d, ctx, Print(e, k), Taken(e, c, x), PrefixRank(op));
    case _ => LeafTakes(d, e, ctx, k, x);
  }

  lemma {:induction false} HeadEnds(d: Dialect, ctx: Prec, ts: Tokens, e: Expr, rank: Prec)
    requires Head(d, ts) == Ok(Ranked(e, rank), Nil)
    ensures Operand(d, ctx, ts) == Ok(e, Nil)
  {
  }

  lemma {:induction false} InfixTakes(d: Dialect, e: Expr, c: Prec, ctx: Prec, k: Tokens, x: Expr)
    requires d.Valid() && ExprOk(Reading(d), e) && e.Infix? && c <= ctx && EdgeRank(e, c) > kDot
    requires TakesIn(d, EdgeLeaf(e, c), k, x)
    ensures Operand(d, ctx, PrintIn(e, c, k)) == Ok(Taken(e, c, x), Nil)
    decreases e, 0
  {
    var Infix(op, a, b) := e;
    var r := InfixRank(op);
    var k1 := PrintIn(b, r, k);
    var ts := InfixTokens(op, k1);
    EdgeTakes(d, b, r, r, k, x);
    PrintOpens(d, b, r, k);
    InfixAt(d, op, k1);
    OperandReads(d, a, r, ctx, ts);
    TailEnds(d, ctx, Meaning(a), ReadRank(a, r), ts, Taken(e, c, x));
  }

  lemma {:induction false} TailEnds(d: Dialect, ctx: Prec, left: Expr, last: Prec, ts: Tokens, e: Expr)
    requires ContAt(d, ts) != NoCont && ContRank(ContAt(d, ts)) < ctx
    requires NonAssoc(ContRank(ContAt(d, ts))) ==> last != ContRank(ContAt(d, ts))
    requires Extend(d, left, ContAt(d, ts)) == Ok(e, Nil)
    ensures Tail(d, ctx, left, last, ts) == Ok(e, Nil)
  {
    TailTakes(d, ctx, left, last, ts, e, Nil);
  }

  lemma {:induction false} BetweenTakes(d: Dialect, e: Expr, c: Prec, ctx: Prec, k: Tokens, x: Expr)
    requires d.Valid() && ExprOk(Reading(d), e) && e.Between? && c <= ctx && EdgeRank(e, c) > kDot
    requires TakesIn(d, EdgeLeaf(e, c), k, x)
    ensures Operand(d, ctx, PrintIn(e, c, k)) == Ok(Taken(e, c, x), Nil)
    decreases e, 0
  {
    var Between(neg, a, lo, hi) := e;
    var k2 := PrintIn(hi, kBetween, k);
    var k1 := PrintIn(lo, kBetween, Cons(Kw(AND), k2));
    var ts := NotToken(neg, Cons(Kw(BETWEEN), k1));
    EdgeTakes(d, hi, kBetween, kBetween, k, x);
    LowerBoundReads(d, lo, k2);
    BoundsStep(d, neg, Meaning(a), k1, Meaning(lo), k2, Taken(hi, kBetween, x), Nil);
    BetweenAt(d, neg, k1);
    OperandReads(d, a, kBetween, ctx, ts);
    TailEnds(d, ctx, Meaning(a), ReadRank(a, kBetween), ts, Taken(e, c, x));
  }

  lemma {:induction false} LowerBoundReads(d: Dialect, lo: Expr, k: Tokens)
    requires d.Valid() && ExprOk(Reading(d), lo)
    ensures Operand(d, kBetween, PrintIn(lo, kBetween, Cons(Kw(AND), k))) == Ok(Meaning(lo), Cons(Kw(AND), k))
  {
    AndEnds(d, k);
    EdgeBound(lo, kBetween);
    OperandEnds(d, lo, kBetween, Cons(Kw(AND), k));
  }

  lemma {:induction false} LeafTakes(d: Dialect, h: Expr, ctx: Prec, k: Tokens, x: Expr)
    requires d.Valid() && ExprOk(Reading(d), h) && (h.NegNum? || h.NotExists?) && TakesIn(d, h, k, x)
    ensures Operand(d, ctx, Print(h, k)) == Ok(Prefix(HiddenOp(h), x), Nil)
  {
    var ts := Print(HiddenAtom(h), k);
    AtomReads(d, h, k);
    TailEnds(d, HiddenRank(h), Meaning(HiddenAtom(h)), kSymbol, k, x);
    HiddenPrint(h, k);
    PrefixHeadReads(d, HiddenOp(h), ts);
    HeadEnds(d, ctx, Print(h, k), Prefix(HiddenOp(h), x), HiddenRank(h));
  }

  // ---- the exact condition

  predicate HasLeft(e: Expr) {
    e.Infix? || e.Postfix? || e.Between? || e.Suffix?
  }

  /** All that a well-formed tree is asked, but for what stands left of its outermost
      operator. */
  predicate OkButLeft(d: Dialect, e: Expr)
    requires HasLeft(e)
  {
    var m := Reading(d);
    ExprOk(m, e.a) &&
    match e
    case Infix(op, a, b) =>
      InfixOk(m, op) && ExprOk(m, b) && RightOk(b, InfixRank(op)) &&
      (op.Member? ==> !IsNumeric(a) && !IsNumeric(b))
    case Postfix(op, _) => PostfixOk(m, op)
    case Between(_, _, lo, hi) => ExprOk(m, lo) && ExprOk(m, hi)
    case Suffix(op, _, body) => BodyOk(m, op, body)
  }

  /** The meaning of `e` with `left` in place of its first operand. */
  function Around(e: Expr, left: Expr): Expr
    requires HasLeft(e)
  {
    match e
    case Infix(op, _, b) => Infix(op, left, Meaning(b))
    case Postfix(op, _) => Postfix(op, left)
    case Between(neg, _, lo, hi) => Between(neg, left, Meaning(lo), Meaning(hi))
    case Suffix(op, _, body) => Suffix(op, left, BodyMeaning(body))
  }

  /** The tokens behind the first operand. */
  function Behind(e: Expr): Tokens
    requires HasLeft(e)
  {
    match e
    case Infix(op, _, b) => InfixTokens(op, PrintIn(b, InfixRank(op), Nil))
    case Postfix(op, _) => PostfixTokens(op, Nil)
    case Between(neg, _, lo, hi) =>
      NotToken(neg, Cons(Kw(BETWEEN), PrintIn(lo, kBetween, Cons(Kw(AND), PrintIn(hi, kBetween, Nil)))))
    case Suffix(op, _, body) => SuffixTokens(op, PrintBody(body, Cons(SuffixClose(op), Nil)))
  }

  lemma {:induction false} WholeLexes(d: Dialect, e: Expr)
    requires HasLeft(e) && OkButLeft(d, e)
    ensures Lex(ToString(e)) == PrintIn(e.a, Rank(e), Behind(e))
  {
    assert ToString(e) == Bare(e, "");
    match e
    case Infix(_, _, _) => InfixLexes(Reading(d), e, "");
    case Postfix(_, _) => PostfixLexes(Reading(d), e, "");
    case Between(_, _, _, _) => BetweenLexes(Reading(d), e, "");
    case Suffix(_, _, _) => SuffixLexes(Reading(d), e, "");
  }

  /** What stands behind the first operand makes `e` of it, and of any other. */
  lemma {:induction false} BehindExtends(d: Dialect, e: Expr, left: Expr)
    requires d.Valid() && HasLeft(e) && OkButLeft(d, e)
    ensures ContAt(d, Behind(e)) != NoCont && ContRank(ContAt(d, Behind(e))) == Rank(e) && !At(Behind(e), LParen)
    ensures Extend(d, left, ContAt(d, Behind(e))) == Ok(Around(e, left), Nil)
  {
    match e
    case Infix(op, _, b) =>
      PrintOpens(d, b, InfixRank(op), Nil);
      InfixAt(d, op, PrintIn(b, InfixRank(op), Nil));
      RightReads(d, op, left, b);
    case Postfix(op, _) => PostfixAt(d, op, Nil);
    case Between(_, _, _, _) => BetweenExtends(d, e, left);
    case Suffix(op, _, body) =>
      var k := Cons(SuffixClose(op), Nil);
      SuffixAt(d, op, PrintBody(body, k));
      BodyReads(d, op, body, k);
  }

  lemma {:induction false} BetweenExtends(d: Dialect, e: Expr, left: Expr)
    requires d.Valid() && e.Between? && OkButLeft(d, e)
    ensures ContAt(d, Behind(e)) != NoCont && ContRank(ContAt(d, Behind(e))) == kBetween && !At(Behind(e), LParen)
    ensures Extend(d, left, ContAt(d, Behind(e))) == Ok(Around(e, left), Nil)
  {
    var Between(neg, _, lo, hi) := e;
    BetweenAt(d, neg, PrintIn(lo, kBetween, Cons(Kw(AND), PrintIn(hi, kBetween, Nil))));
    BoundsRead(d, e, left, Nil);
  }

  lemma {:induction false} RightReads(d: Dialect, op: InfixOp, left: Expr, b: Expr)
    requires d.Valid() && InfixOk(Reading(d), op) && ExprOk(Reading(d), b) && RightOk(b, InfixRank(op))
    ensures Extend(d, left, InfixCont(op, PrintIn(b, InfixRank(op), Nil))) == Ok(Infix(op, left, Meaning(b)), Nil)
  {
    OperandEnds(d, b, InfixRank(op), Nil);
    InfixStep(d, op, left, PrintIn(b, InfixRank(op), Nil), Meaning(b), Nil);
  }

  lemma {:induction false} TakenDiffers(e: Expr, x: Expr)
    requires HasLeft(e) && EdgeRank(e.a, Rank(e)) > kDot
    ensures Taken(e.a, Rank(e), x) != Around(e, Meaning(e.a))
  {
    assert Rank(e.a) < Rank(e);
  }

  lemma {:induction false} OpenMisread(d: Dialect, e: Expr)
    requires d.Valid() && HasLeft(e) && OkButLeft(d, e) && EdgeRank(e.a, Rank(e)) > Rank(e) >= kDot
    ensures ParseExpr(d, Lex(ToString(e)))
         == Some(Taken(e.a, Rank(e), Around(e, EdgeAtom(e.a, Rank(e)))))
  {
    var r := Rank(e);
    WholeLexes(d, e);
    BehindExtends(d, e, EdgeAtom(e.a, r));
    EdgeTakes(d, e.a, r, kExtract, Behind(e), Around(e, EdgeAtom(e.a, r)));
  }

  /** Whatever its first operand, an expression with an infix, postfix, BETWEEN or bracketed
      operator is read as it was built exactly when no leaf at the right edge of that operand
      hides a looser operator; otherwise that leaf takes in the operator and what follows. */
  lemma {:induction false} LeftExact(d: Dialect, e: Expr)
    requires d.Valid() && HasLeft(e) && OkButLeft(d, e)
    ensures ParseExpr(d, Lex(ToString(e))) == Some(Meaning(e)) <==> EdgeRank(e.a, Rank(e)) <= Rank(e)
    ensures EdgeRank(e.a, Rank(e)) > Rank(e) ==>
      EdgeRank(e.a, Rank(e)) > kDot &&
      ParseExpr(d, Lex(ToString(e))) == Some(Taken(e.a, Rank(e), Around(e, EdgeAtom(e.a, Rank(e)))))
  {
    assert Rank(e) >= kDot;
    assert Meaning(e) == Around(e, Meaning(e.a));
    if EdgeRank(e.a, Rank(e)) <= Rank(e) {
      ExprRoundTrip(d, e);
    } else {
      OpenMisread(d, e);
      TakenDiffers(e, Around(e, EdgeAtom(e.a, Rank(e))));
    }
  }
}
