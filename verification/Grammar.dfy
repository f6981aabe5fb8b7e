/** A reader for the printed SQL, written from PostgreSQL's operator table (PostgreSQL 17
    documentation, section 4.1.6) and statement grammar, with no knowledge of where the
    printer puts its brackets: operator precedence decides how far an operand reaches,
    equal binary operators group to the left, and the non-associative ones do not chain. */
module Grammar {
  import opened Basics
  import opened Precedence
  import opened Tokens
  import opened Syntax
  import opened Numerals

  // ---- how tightly operators bind: the rows of Table 4.2 of that section, counted from the
  // ---- top, with 0 for a primary and 17 for a place that takes any expression

  const Primary: Prec := 0
  const Anything: Prec := 17

  function InfixLevel(op: InfixOp): Prec {
    match op
    case Member => 1
    case Sym(_, p) => p          // its row, by the dialect
    case LikeOp(_, _) => 11
    case DistinctFrom(_) => 13
    case AndOp => 15
    case OrOp => 16
  }

  function PrefixLevel(op: PrefixOp): Prec {
    match op
    case Minus => 4
    case NotOp => 14
    case Custom(_, p) => p       // its row, by the dialect
  }

  function PostfixLevel(op: PostfixOp): Prec {
    match op
    case CollateOp(_) => 5
    case IsTrue | IsFalse | IsNull | IsNotNull => 13
  }

  const BetweenLevel: Prec := 11

  function SuffixLevel(op: SuffixOp): Prec {
    match op
    case Subscript => 3
    case InOp(_) => 11
    case EqAny | NeAll => 12
  }

  /** The rows without associativity: two operators of one of them cannot be chained without
      parentheses. */
  predicate NonAssoc(p: Prec) {
    p == 11 || p == 12 || p == 13
  }

  /** The precedence of operator names. A name without an entry has the precedence
      `Expr::BinaryOp` and `Expr::PrefixOp` give it by default. */
  datatype Dialect = Dialect(infix: map<string, Prec>, prefix: map<string, Prec>) {
    function InfixPrec(name: string): Prec {
      if name in infix then infix[name] else 10
    }

    function PrefixPrec(name: string): Prec {
      if name in prefix then prefix[name] else 4
    }

    /** `=` and `<>` also introduce ANY and ALL, and `-` is also unary minus. */
    predicate Valid() {
      InfixPrec("=") == 12 && InfixPrec("<>") == 12 && PrefixPrec("-") == 4
    }
  }

  /** The outcome of reading from the front of a token list. */
  datatype Res<+T> = Fail | Ok(value: T, rest: Tokens) {
    predicate IsFailure() { Fail? }
    function PropagateFailure<U>(): Res<U>
      requires Fail?
    { Fail }
    function Extract(): (T, Tokens)
      requires Ok?
    { (value, rest) }
  }

  predicate At(ts: Tokens, t: Token)
    ensures At(ts, t) ==> ts.Cons? && Len(ts) == 1 + Len(ts.tail)
  {
    ts.Cons? && ts.head == t
  }

  predicate At2(ts: Tokens, t: Token, u: Token)
    ensures At2(ts, t, u) ==> ts.Cons? && ts.tail.Cons? && Len(ts) == 2 + Len(ts.tail.tail)
  {
    At(ts, t) && At(ts.tail, u)
  }

  predicate At3(ts: Tokens, t: Token, u: Token, v: Token)
    ensures At3(ts, t, u, v) ==>
      ts.Cons? && ts.tail.Cons? && ts.tail.tail.Cons? && Len(ts) == 3 + Len(ts.tail.tail.tail)
  {
    At(ts, t) && At2(ts.tail, u, v)
  }

  function Skip(t: Token, ts: Tokens): (r: Res<Token>)
    ensures r.Ok? ==> Len(r.rest) < Len(ts)
  {
    if At(ts, t) then Ok(t, ts.tail) else Fail
  }

  /** A column, type or collation name. */
  function NameAt(ts: Tokens): (r: Res<Token>)
    ensures r.Ok? ==> Len(r.rest) < Len(ts)
  {
    if ts.Cons? && IsName(ts.head) then Ok(ts.head, ts.tail) else Fail
  }

  /** An operand together with the precedence its outermost operator was read at. */
  datatype Ranked = Ranked(e: Expr, rank: Prec)

  /** What may follow a complete operand. */
  datatype Cont =
    | NoCont
    | InfixCont(iop: InfixOp, rest: Tokens)
    | PostfixCont(qop: PostfixOp, rest: Tokens)
    | BetweenCont(neg: bool, rest: Tokens)
    | SuffixCont(sop: SuffixOp, rest: Tokens)

  function ContRank(c: Cont): Prec
    requires c != NoCont
  {
    match c
    case InfixCont(op, _) => InfixLevel(op)
    case PostfixCont(op, _) => PostfixLevel(op)
    case BetweenCont(_, _) => BetweenLevel
    case SuffixCont(op, _) => SuffixLevel(op)
  }

  function RangeCont(neg: bool, ts: Tokens): (c: Cont)
    ensures c != NoCont ==> Len(c.rest) < Len(ts)
  {
    if At(ts, Kw(LIKE)) then InfixCont(LikeOp(neg, Like), ts.tail)
    else if At(ts, Kw(ILIKE)) then InfixCont(LikeOp(neg, ILike), ts.tail)
    else if At2(ts, Kw(SIMILAR), Kw(TO)) then InfixCont(LikeOp(neg, SimilarTo), ts.tail.tail)
    else if At(ts, Kw(BETWEEN)) then BetweenCont(neg, ts.tail)
    else if At2(ts, Kw(IN), LParen) then SuffixCont(InOp(neg), ts.tail.tail)
    else NoCont
  }

  function IsCont(ts: Tokens): (c: Cont)
    ensures c != NoCont ==> Len(c.rest) < Len(ts)
  {
    if At(ts, Kw(TRUE)) then PostfixCont(IsTrue, ts.tail)
    else if At(ts, Kw(FALSE)) then PostfixCont(IsFalse, ts.tail)
    else if At(ts, Kw(NULL)) then PostfixCont(IsNull, ts.tail)
    else if At2(ts, Kw(NOT), Kw(NULL)) then PostfixCont(IsNotNull, ts.tail.tail)
    else if At2(ts, Kw(DISTINCT), Kw(FROM)) then InfixCont(DistinctFrom(false), ts.tail.tail)
    else if At3(ts, Kw(NOT), Kw(DISTINCT), Kw(FROM)) then InfixCont(DistinctFrom(true), ts.tail.tail.tail)
    else NoCont
  }

  function SymCont(d: Dialect, name: string, ts: Tokens): (c: Cont)
    ensures c != NoCont && Len(c.rest) <= Len(ts)
  {
    if name == "=" && At2(ts, Kw(ANY), LParen) then SuffixCont(EqAny, ts.tail.tail)
    else if name == "<>" && At2(ts, Kw(ALL), LParen) then SuffixCont(NeAll, ts.tail.tail)
    else InfixCont(Sym(name, d.InfixPrec(name)), ts)
  }

  function ContAt(d: Dialect, ts: Tokens): (c: Cont)
    ensures c != NoCont ==> Len(c.rest) < Len(ts)
  {
    if ts.Nil? then NoCont
    else if ts.head.Op? then SymCont(d, ts.head.name, ts.tail)
    else if ts.head == Period then InfixCont(Member, ts.tail)
    else if ts.head == LBracket then SuffixCont(Subscript, ts.tail)
    else if ts.head == Kw(AND) then InfixCont(AndOp, ts.tail)
    else if ts.head == Kw(OR) then InfixCont(OrOp, ts.tail)
    else if ts.head == Kw(COLLATE) && NameAt(ts.tail).Ok? then
      PostfixCont(CollateOp(NameAt(ts.tail).value), NameAt(ts.tail).rest)
    else if ts.head == Kw(IS) then IsCont(ts.tail)
    else if ts.head == Kw(NOT) then RangeCont(true, ts.tail)
    else RangeCont(false, ts)
  }

  // ---- expressions

  /** An operand whose operators all bind tighter than `c`. */
  function Operand(d: Dialect, c: Prec, ts: Tokens): (r: Res<Expr>)
    ensures r.Ok? ==> Len(r.rest) < Len(ts)
    decreases Len(ts), 4
  {
    var (h, ts1) :- Head(d, ts);
    Tail(d, c, h.e, h.rank, ts1)
  }

  /** Extends the operand `left`, whose outermost operator has rank `last`. */
  function Tail(d: Dialect, c: Prec, left: Expr, last: Prec, ts: Tokens): (r: Res<Expr>)
    ensures r.Ok? ==> Len(r.rest) <= Len(ts)
    decreases Len(ts), 2
  {
    var k := ContAt(d, ts);
    if k == NoCont || ContRank(k) >= c then Ok(left, ts)
    else if NonAssoc(ContRank(k)) && last == ContRank(k) then Fail
    else
      var (e, ts1) :- Extend(d, left, k);
      Tail(d, c, e, ContRank(k), ts1)
  }

  function Extend(d: Dialect, left: Expr, k: Cont): (r: Res<Expr>)
    requires k != NoCont
    ensures r.Ok? ==> Len(r.rest) <= Len(k.rest)
    decreases Len(k.rest), 9
  {
    match k
    case PostfixCont(op, ts) => Ok(Postfix(op, left), ts)
    case InfixCont(op, ts) =>
      var (b, ts1) :- Operand(d, InfixLevel(op), ts);
      Ok(Infix(op, left, b), ts1)
    case BetweenCont(neg, ts) =>
      var (lo, ts1) :- Operand(d, BetweenLevel, ts);
      var (_, ts2) :- Skip(Kw(AND), ts1);
      var (hi, ts3) :- Operand(d, BetweenLevel, ts2);
      Ok(Between(neg, left, lo, hi), ts3)
    case SuffixCont(op, ts) =>
      var (body, ts1) :- SuffixBody(d, op, ts);
      var (_, ts2) :- Skip(if op.Subscript? then RBracket else RParen, ts1);
      Ok(Suffix(op, left, body), ts2)
  }

  /** The delimited part after `[`, `IN (`, `= ANY (` or `<> ALL (`. */
  function SuffixBody(d: Dialect, op: SuffixOp, ts: Tokens): (r: Res<Body>)
    ensures r.Ok? ==> Len(r.rest) <= Len(ts)
    decreases Len(ts), 7
  {
    if op.Subscript? then
      var (e, ts1) :- Operand(d, Anything, ts);
      Ok(Exprs(Cons(e, Nil)), ts1)
    else
      var (body, ts1) :- Enclosed(d, ts);
      if op.InOp? && body.Exprs? && At(ts1, Comma) then
        var (more, ts2) :- ExprList(d, ts1.tail);
        Ok(Exprs(App(body.es, more)), ts2)
      else Ok(body, ts1)
  }

  function ExprList(d: Dialect, ts: Tokens): (r: Res<List<Expr>>)
    ensures r.Ok? ==> Len(r.rest) < Len(ts)
    decreases Len(ts), 5
  {
    var (e, ts1) :- Operand(d, Anything, ts);
    if At(ts1, Comma) then
      var (es, ts2) :- ExprList(d, ts1.tail);
      Ok(Cons(e, es), ts2)
    else Ok(Cons(e, Nil), ts1)
  }

  /** What stands inside one pair of parentheses: a query, or one expression. Two
      bracketed queries around a set operator are a query. */
  function Enclosed(d: Dialect, ts: Tokens): (r: Res<Body>)
    ensures r.Ok? ==> Len(r.rest) < Len(ts)
    ensures r.Ok? && r.value.Exprs? ==> r.value.es.Cons?
    decreases Len(ts), 5
  {
    if At(ts, Kw(SELECT)) || At(ts, Kw(WITH)) then
      var (q, ts1) :- ReadRel(d, ts);
      Ok(Sub(q), ts1)
    else
      var (e, ts1) :- Operand(d, Anything, ts);
      if e.Scalar? && SetAt(ts1).Ok? then
        var (q2, ts2) :- RelOperand(d, SetAt(ts1).rest);
        Ok(Sub(SetOp(SetAt(ts1).value, e.query, q2)), ts2)
      else Ok(Exprs(Cons(e, Nil)), ts1)
  }

  /** The beginning of an operand: a primary, or a prefix operator with its operand. */
  function Head(d: Dialect, ts: Tokens): (r: Res<Ranked>)
    ensures r.Ok? ==> Len(r.rest) < Len(ts)
    decreases Len(ts), 3
  {
    if ts.Nil? then Fail
    else if ts.head == LParen then ParenHead(d, ts.tail)
    else if ts.head == Op("*") then Ok(Ranked(Leaf(ts.head), Primary), ts.tail)
    else if ts.head == Op("-") then PrefixHead(d, Minus, ts.tail)
    else if ts.head.Op? then PrefixHead(d, Custom(ts.head.name, d.PrefixPrec(ts.head.name)), ts.tail)
    else if ts.head == Kw(NOT) then PrefixHead(d, NotOp, ts.tail)
    else if ts.head == Kw(CASE) then CaseHead(d, ts.tail)
    else if At2(ts, Kw(CAST), LParen) then CastHead(d, ts.tail.tail)
    else if At2(ts, Kw(EXISTS), LParen) then ExistsHead(d, ts.tail.tail)
    else if ts.head.Word? && At(ts.tail, LParen) then CallHead(d, ts.head.name, ts.tail.tail)
    else if IsLeaf(ts.head) then Ok(Ranked(Leaf(ts.head), Primary), ts.tail)
    else Fail
  }

  function ParenHead(d: Dialect, ts: Tokens): (r: Res<Ranked>)
    ensures r.Ok? ==> Len(r.rest) <= Len(ts)
    decreases Len(ts), 9
  {
    var (body, ts1) :- Enclosed(d, ts);
    var (_, ts2) :- Skip(RParen, ts1);
    Ok(Ranked(if body.Sub? then Scalar(body.query) else body.es.head, Primary), ts2)
  }

  function PrefixHead(d: Dialect, op: PrefixOp, ts: Tokens): (r: Res<Ranked>)
    ensures r.Ok? ==> Len(r.rest) <= Len(ts)
    decreases Len(ts), 9
  {
    var (e, ts1) :- Operand(d, PrefixLevel(op), ts);
    Ok(Ranked(Prefix(op, e), PrefixLevel(op)), ts1)
  }

  function CastHead(d: Dialect, ts: Tokens): (r: Res<Ranked>)
    ensures r.Ok? ==> Len(r.rest) <= Len(ts)
    decreases Len(ts), 9
  {
    var (e, ts1) :- Operand(d, Anything, ts);
    var (_, ts2) :- Skip(Kw(AS), ts1);
    var (typ, ts3) :- NameAt(ts2);
    var (_, ts4) :- Skip(RParen, ts3);
    Ok(Ranked(Cast(e, typ), Primary), ts4)
  }

  function ExistsHead(d: Dialect, ts: Tokens): (r: Res<Ranked>)
    ensures r.Ok? ==> Len(r.rest) <= Len(ts)
    decreases Len(ts), 9
  {
    var (q, ts1) :- ReadRel(d, ts);
    var (_, ts2) :- Skip(RParen, ts1);
    Ok(Ranked(Exists(q), Primary), ts2)
  }

  function CallHead(d: Dialect, name: string, ts: Tokens): (r: Res<Ranked>)
    ensures r.Ok? ==> Len(r.rest) <= Len(ts)
    decreases Len(ts), 9
  {
    if At(ts, RParen) then Ok(Ranked(Call(Nil, name, false, Nil), Primary), ts.tail)
    else
      var distinct := At(ts, Kw(DISTINCT));
      var (es, ts1) :- ExprList(d, if distinct then ts.tail else ts);
      var (_, ts2) :- Skip(RParen, ts1);
      Ok(Ranked(Call(Nil, name, distinct, es), Primary), ts2)
  }

  function CaseHead(d: Dialect, ts: Tokens): (r: Res<Ranked>)
    ensures r.Ok? ==> Len(r.rest) <= Len(ts)
    decreases Len(ts), 9
  {
    var (ws, ts1) :- Whens(d, ts);
    var (els, ts2) :- Clause(d, ELSE, ts1);
    var (_, ts3) :- Skip(Kw(END), ts2);
    Ok(Ranked(Case(ws, els), Primary), ts3)
  }

  function Whens(d: Dialect, ts: Tokens): (r: Res<List<When>>)
    ensures r.Ok? ==> Len(r.rest) < Len(ts)
    decreases Len(ts), 5
  {
    var (_, ts1) :- Skip(Kw(WHEN), ts);
    var (c, ts2) :- Operand(d, Anything, ts1);
    var (_, ts3) :- Skip(Kw(THEN), ts2);
    var (e, ts4) :- Operand(d, Anything, ts3);
    if At(ts4, Kw(WHEN)) then
      var (ws, ts5) :- Whens(d, ts4);
      Ok(Cons(When(c, e), ws), ts5)
    else Ok(Cons(When(c, e), Nil), ts4)
  }

  /** An optional clause: a keyword and one expression. */
  function Clause(d: Dialect, kw: Keyword, ts: Tokens): (r: Res<Option<Expr>>)
    ensures r.Ok? ==> Len(r.rest) <= Len(ts)
    decreases Len(ts), 5
  {
    if At(ts, Kw(kw)) then
      var (e, ts1) :- Operand(d, Anything, ts.tail);
      Ok(Some(e), ts1)
    else Ok(None, ts)
  }

  // ---- table values

  function SetAt(ts: Tokens): (r: Res<SetKind>)
    ensures r.Ok? ==> Len(r.rest) < Len(ts)
  {
    if At2(ts, Kw(UNION), Kw(ALL)) then Ok(UnionAll, ts.tail.tail)
    else if At(ts, Kw(UNION)) then Ok(Union, ts.tail)
    else if At(ts, Kw(INTERSECT)) then Ok(Intersect, ts.tail)
    else if At(ts, Kw(EXCEPT)) then Ok(Except, ts.tail)
    else Fail
  }

  function OuterJoinAt(natural: bool, ts: Tokens): (r: Res<JoinKind>)
    ensures r.Ok? ==> Len(r.rest) < Len(ts)
  {
    if At2(ts, Kw(INNER), Kw(JOIN)) then Ok(if natural then NaturalInner else Inner, ts.tail.tail)
    else if At3(ts, Kw(LEFT), Kw(OUTER), Kw(JOIN)) then
      Ok(if natural then NaturalLeftOuter else LeftOuter, ts.tail.tail.tail)
    else if At3(ts, Kw(RIGHT), Kw(OUTER), Kw(JOIN)) then
      Ok(if natural then NaturalRightOuter else RightOuter, ts.tail.tail.tail)
    else if At3(ts, Kw(FULL), Kw(OUTER), Kw(JOIN)) then
      Ok(if natural then NaturalFullOuter else FullOuter, ts.tail.tail.tail)
    else Fail
  }

  function JoinAt(ts: Tokens): (r: Res<JoinKind>)
    ensures r.Ok? ==> Len(r.rest) < Len(ts)
  {
    if At2(ts, Kw(CROSS), Kw(JOIN)) then Ok(Cross, ts.tail.tail)
    else if At(ts, Kw(NATURAL)) then OuterJoinAt(true, ts.tail)
    else OuterJoinAt(false, ts)
  }

  function Path(ts: Tokens): (r: Res<List<Token>>)
    ensures r.Ok? ==> Len(r.rest) < Len(ts)
    decreases Len(ts)
  {
    var (n, ts1) :- NameAt(ts);
    if At(ts1, Period) then
      var (p, ts2) :- Path(ts1.tail);
      Ok(Cons(n, p), ts2)
    else Ok(Cons(n, Nil), ts1)
  }

  /** A whole table value: statement, join, set operation or table. */
  function ReadRel(d: Dialect, ts: Tokens): (r: Res<Rel>)
    ensures r.Ok? ==> Len(r.rest) < Len(ts)
    decreases Len(ts), 3
  {
    if At(ts, Kw(SELECT)) then ReadSelect(d, ts.tail)
    else if At(ts, Kw(WITH)) then ReadWith(d, ts.tail)
    else
      var (a, ts1) :- RelOperand(d, ts);
      if SetAt(ts1).Ok? then
        var (b, ts2) :- RelOperand(d, SetAt(ts1).rest);
        Ok(SetOp(SetAt(ts1).value, a, b), ts2)
      else Joins(d, a, ts1)
  }

  /** A table, or a bracketed join or query, with its alias. */
  function RelOperand(d: Dialect, ts: Tokens): (r: Res<Rel>)
    ensures r.Ok? ==> Len(r.rest) < Len(ts)
    decreases Len(ts), 2
  {
    if At(ts, LParen) then
      var (r, ts1) :- ReadRel(d, ts.tail);
      var (_, ts2) :- Skip(RParen, ts1);
      if r.Table? || r.Alias? then Fail else AliasAt(r, ts2)
    else
      var (p, ts1) :- Path(ts);
      AliasAt(Table(p), ts1)
  }

  function AliasAt(r: Rel, ts: Tokens): (res: Res<Rel>)
    ensures res.Ok? ==> Len(res.rest) <= Len(ts)
  {
    if At(ts, Kw(AS)) then
      var (p, ts1) :- Path(ts.tail);
      Ok(Alias(r, p), ts1)
    else Ok(r, ts)
  }

  /** Joins group to the left. */
  function Joins(d: Dialect, left: Rel, ts: Tokens): (r: Res<Rel>)
    ensures r.Ok? ==> Len(r.rest) <= Len(ts)
    decreases Len(ts), 1
  {
    if JoinAt(ts).Fail? then Ok(left, ts)
    else
      var (b, ts1) :- RelOperand(d, JoinAt(ts).rest);
      var (q, ts2) :- QualAt(d, ts1);
      Joins(d, Join(JoinAt(ts).value, left, b, q), ts2)
  }

  function QualAt(d: Dialect, ts: Tokens): (r: Res<Qualifier>)
    ensures r.Ok? ==> Len(r.rest) <= Len(ts)
    decreases Len(ts), 5
  {
    if At(ts, Kw(ON)) then
      var (e, ts1) :- Operand(d, Anything, ts.tail);
      Ok(OnCond(e), ts1)
    else if At2(ts, Kw(USING), LParen) then
      var (es, ts1) :- ExprList(d, ts.tail.tail);
      var (_, ts2) :- Skip(RParen, ts1);
      Ok(UsingCols(es), ts2)
    else Ok(NoQualifier, ts)
  }

  // ---- statements

  function ReadWith(d: Dialect, ts: Tokens): (r: Res<Rel>)
    ensures r.Ok? ==> Len(r.rest) < Len(ts)
    decreases Len(ts), 6
  {
    var (ctes, ts1) :- Ctes(d, ts);
    var (main, ts2) :- ReadRel(d, ts1);
    Ok(With(ctes, main), ts2)
  }

  function Ctes(d: Dialect, ts: Tokens): (r: Res<List<Cte>>)
    ensures r.Ok? ==> Len(r.rest) < Len(ts)
    decreases Len(ts), 5
  {
    var (name, ts1) :- Path(ts);
    if !At2(ts1, Kw(AS), LParen) then Fail
    else
      var (q, ts2) :- ReadRel(d, ts1.tail.tail);
      var (_, ts3) :- Skip(RParen, ts2);
      if At(ts3, Comma) then
        var (cs, ts4) :- Ctes(d, ts3.tail);
        Ok(Cons(Cte(name, q), cs), ts4)
      else Ok(Cons(Cte(name, q), Nil), ts3)
  }

  function ReadSelect(d: Dialect, ts: Tokens): (r: Res<Rel>)
    ensures r.Ok? ==> Len(r.rest) < Len(ts)
    decreases Len(ts), 9
  {
    var (distinct, ts1) :- DistinctAt(d, ts);
    var (items, ts2) :- Items(d, ts1);
    var (_, ts3) :- Skip(Kw(FROM), ts2);
    var (table, ts4) :- RelOperand(d, ts3);
    var (from, ts5) :- Joins(d, table, ts4);
    ReadClauses(d, distinct, items, from, ts5)
  }

  function DistinctAt(d: Dialect, ts: Tokens): (r: Res<Distinctness>)
    ensures r.Ok? ==> Len(r.rest) <= Len(ts)
    decreases Len(ts), 8
  {
    if At3(ts, Kw(DISTINCT), Kw(ON), LParen) then
      var (es, ts1) :- ExprList(d, ts.tail.tail.tail);
      var (_, ts2) :- Skip(RParen, ts1);
      Ok(DistinctOn(es), ts2)
    else if At(ts, Kw(DISTINCT)) then Ok(Distinct, ts.tail)
    else Ok(Plain, ts)
  }

  function ItemAliasAt(ts: Tokens): (r: (Option<string>, Tokens))
    ensures Len(r.1) <= Len(ts)
  {
    if At(ts, Kw(AS)) && ts.tail.Cons? && ts.tail.head.Word? then (Some(ts.tail.head.name), ts.tail.tail)
    else (None, ts)
  }

  function Items(d: Dialect, ts: Tokens): (r: Res<List<Item>>)
    ensures r.Ok? ==> Len(r.rest) < Len(ts)
    decreases Len(ts), 6
  {
    var (e, ts1) :- Operand(d, Anything, ts);
    var (alias, ts2) := ItemAliasAt(ts1);
    if At(ts2, Comma) then
      var (more, ts3) :- Items(d, ts2.tail);
      Ok(Cons(Item(e, alias), more), ts3)
    else Ok(Cons(Item(e, alias), Nil), ts2)
  }

  function ReadClauses(d: Dialect, distinct: Distinctness, items: List<Item>, from: Rel, ts: Tokens): (r: Res<Rel>)
    ensures r.Ok? ==> Len(r.rest) <= Len(ts)
    decreases Len(ts), 8
  {
    var (where, ts1) :- Clause(d, WHERE, ts);
    var (group, ts2) :- GroupAt(d, ts1);
    var (having, ts3) :- Clause(d, HAVING, ts2);
    var (order, ts4) :- OrderAt(d, ts3);
    var (limit, ts5) :- IntClause(LIMIT, ts4);
    var (offset, ts6) :- IntClause(OFFSET, ts5);
    Ok(Select(distinct, items, from, where, group, having, order, limit, offset), ts6)
  }

  function GroupAt(d: Dialect, ts: Tokens): (r: Res<Option<List<Expr>>>)
    ensures r.Ok? ==> Len(r.rest) <= Len(ts)
    decreases Len(ts), 6
  {
    if At2(ts, Kw(GROUP), Kw(BY)) then
      var (es, ts1) :- ExprList(d, ts.tail.tail);
      Ok(Some(es), ts1)
    else Ok(None, ts)
  }

  function OrderAt(d: Dialect, ts: Tokens): (r: Res<Option<List<OrderTerm>>>)
    ensures r.Ok? ==> Len(r.rest) <= Len(ts)
    decreases Len(ts), 7
  {
    if At2(ts, Kw(ORDER), Kw(BY)) then
      var (terms, ts1) :- Terms(d, ts.tail.tail);
      Ok(Some(terms), ts1)
    else Ok(None, ts)
  }

  function Terms(d: Dialect, ts: Tokens): (r: Res<List<OrderTerm>>)
    ensures r.Ok? ==> Len(r.rest) < Len(ts)
    decreases Len(ts), 6
  {
    var (e, ts1) :- Operand(d, Anything, ts);
    var (desc, ts2) := DirectionAt(ts1);
    var (nulls, ts3) := NullsAt(ts2);
    if At(ts3, Comma) then
      var (terms, ts4) :- Terms(d, ts3.tail);
      Ok(Cons(OrderTerm(e, desc, nulls), terms), ts4)
    else Ok(Cons(OrderTerm(e, desc, nulls), Nil), ts3)
  }

  function DirectionAt(ts: Tokens): (r: (bool, Tokens))
    ensures Len(r.1) <= Len(ts)
  {
    if At(ts, Kw(DESC)) then (true, ts.tail) else (false, ts)
  }

  function NullsAt(ts: Tokens): (r: (Nulls, Tokens))
    ensures Len(r.1) <= Len(ts)
  {
    if At2(ts, Kw(NULLS), Kw(FIRST)) then (NullsFirst, ts.tail.tail)
    else if At2(ts, Kw(NULLS), Kw(LAST)) then (NullsLast, ts.tail.tail)
    else (NullsDefault, ts)
  }

  function NatAt(ts: Tokens): (r: Res<nat>)
    ensures r.Ok? ==> Len(r.rest) < Len(ts)
  {
    if ts.Cons? && ts.head.Num? && AllDigits(ts.head.digits) then Ok(NatOf(ts.head.digits), ts.tail) else Fail
  }

  function IntAt(ts: Tokens): (r: Res<int>)
    ensures r.Ok? ==> Len(r.rest) < Len(ts)
  {
    if At(ts, Op("-")) then
      var (n, ts1) :- NatAt(ts.tail);
      Ok(-(n as int), ts1)
    else
      var (n, ts1) :- NatAt(ts);
      Ok(n as int, ts1)
  }

  function IntClause(kw: Keyword, ts: Tokens): (r: Res<Option<int>>)
    ensures r.Ok? ==> Len(r.rest) <= Len(ts)
  {
    if At(ts, Kw(kw)) then
      var (n, ts1) :- IntAt(ts.tail);
      Ok(Some(n), ts1)
    else Ok(None, ts)
  }

  /** Reads a whole text: nothing may be left over. */
  function ParseExpr(d: Dialect, ts: Tokens): Option<Expr> {
    match Operand(d, Anything, ts)
    case Ok(e, Nil) => Some(e)
    case _ => None
  }

  function ParseRel(d: Dialect, ts: Tokens): Option<Rel> {
    match ReadRel(d, ts)
    case Ok(r, Nil) => Some(r)
    case _ => None
  }
}
