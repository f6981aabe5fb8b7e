/** The trees whose printed text is balanced, is read token by token, and has one reading;
    and what that reading is. */
module WellFormed {
  import opened Basics
  import opened Precedence
  import opened Tokens
  import opened Lexer
  import opened Syntax
  import opened Grammar

  /** How much is asked of a tree: that its leaves are single tokens that are neither
      brackets nor commas; that every token also spells itself and glues to no other; or
      that the text also has one reading in a dialect. Each asks for more than the last. */
  datatype Rules = Atoms | Spelling | Reading(dialect: Dialect)

  type Strict = m: Rules | !m.Atoms? witness Spelling

  // ---- tokens

  predicate Atomic(tok: Token) {
    tok !in {LParen, RParen, LBracket, RBracket, Comma} && !tok.Bad?
  }

  predicate AllAtomic(path: List<Token>) {
    match path
    case Nil => true
    case Cons(n, rest) => Atomic(n) && AllAtomic(rest)
  }

  /** A trusted raw leaf is one token that may stand as an operand. */
  predicate LeafOk(tok: Token) {
    IsLeaf(tok) && Spellable(tok)
  }

  predicate PathOk(path: List<Token>) {
    match path
    case Nil => false
    case Cons(n, rest) => IsName(n) && Spellable(n) && (rest.Nil? || PathOk(rest))
  }

  /** What ValidateIdentifier accepts: a dotted list of plain, unquoted names. */
  predicate PlainPath(path: List<Token>) {
    PathOk(path) && AllWords(path)
  }

  predicate AllWords(path: List<Token>) {
    match path
    case Nil => true
    case Cons(n, rest) => n.Word? && AllWords(rest)
  }

  predicate QualsOk(quals: List<Token>) {
    quals.Nil? || PlainPath(quals)
  }

  /** A type or a collation. */
  predicate NameOk(m: Rules, tok: Token) {
    if m.Atoms? then Atomic(tok) else IsName(tok) && Spellable(tok)
  }

  predicate PathFits(m: Rules, path: List<Token>) {
    if m.Atoms? then AllAtomic(path) else PathOk(path)
  }

  predicate PlainFits(m: Rules, path: List<Token>) {
    if m.Atoms? then AllAtomic(path) else PlainPath(path)
  }

  predicate IsNumeric(e: Expr) {
    e.NegNum? || (e.Leaf? && e.tok.Num?)
  }

  // ---- slots

  /** The rank of the loosest operator that is still open at the right edge of what `e`
      prints in a slot of context `c`, among those hidden in leaves that look atomic: such
      an operator takes in whatever binds tighter and comes next. */
  function EdgeRank(e: Expr, c: Prec): Prec
    decreases e
  {
    if Rank(e) >= c then kSymbol
    else match e
         case Infix(op, _, b) => EdgeRank(b, InfixRank(op))
         case Between(_, _, _, hi) => EdgeRank(hi, kBetween)
         case Prefix(op, a) => EdgeRank(a, PrefixRank(op))
         case NegNum(_) => HiddenRank(e)
         case NotExists(_) => HiddenRank(e)
         case Call(_, _, _, _) => HiddenRank(e)
         case _ => kSymbol
  }

  /** The slot in front of an operator of rank `r`: nothing open in it may take that
      operator in. */
  predicate LeftOk(e: Expr, r: Prec) {
    EdgeRank(e, r) <= r
  }

  /** The slot after an operator of rank `r`: a dotted call is cut open by a `.`-level
      operator. */
  predicate RightOk(e: Expr, r: Prec) {
    HiddenRank(e) == kDot ==> kDot < r
  }

  predicate InfixOk(m: Rules, op: InfixOp) {
    match op
    case Sym(name, p) =>
      m.Atoms? ||
      (IsOperatorName(name) && kSymbol < p < kExtract && (m.Reading? ==> p == m.dialect.InfixPrec(name)))
    case _ => true
  }

  predicate PrefixOk(m: Rules, op: PrefixOp) {
    match op
    case Custom(name, p) =>
      m.Atoms? ||
      (IsOperatorName(name) && kSymbol < p < kExtract &&
       (m.Reading? ==> name != "*" && p == m.dialect.PrefixPrec(name)))
    case _ => true
  }

  predicate PostfixOk(m: Rules, op: PostfixOp) {
    match op
    case CollateOp(c) => NameOk(m, c)
    case _ => true
  }

  /** The printed text of `e` in a slot of context `c` begins with an operator character. */
  predicate StartsWithOperator(e: Expr, c: Prec)
    decreases e
  {
    Rank(e) < c &&
    match e
    case Leaf(tok) => tok.Op?
    case NegNum(_) => true
    case Infix(op, a, _) => StartsWithOperator(a, InfixRank(op))
    case Prefix(op, _) => !op.NotOp?
    case Postfix(op, a) => StartsWithOperator(a, PostfixRank(op))
    case Between(_, a, _, _) => StartsWithOperator(a, kBetween)
    case Suffix(op, a, _) => StartsWithOperator(a, SuffixRank(op))
    case _ => false
  }

  // ---- trees

  predicate ExprOk(m: Rules, e: Expr)
    decreases e
  {
    match e
    case Leaf(tok) => if m.Atoms? then Atomic(tok) else LeafOk(tok)
    case NegNum(digits) => m.Atoms? || IsNumeral(digits)
    case Infix(op, a, b) =>
      InfixOk(m, op) && ExprOk(m, a) && ExprOk(m, b) &&
      (m.Reading? ==> LeftOk(a, InfixRank(op)) && RightOk(b, InfixRank(op))) &&
      (op.Member? && !m.Atoms? ==> !IsNumeric(a) && !IsNumeric(b))
    case Prefix(op, a) =>
      PrefixOk(m, op) && ExprOk(m, a) && (m.Reading? ==> RightOk(a, PrefixRank(op))) &&
      (op.Minus? && !m.Atoms? ==> !StartsWithOperator(a, kUnaryPlus))
    case Postfix(op, a) => PostfixOk(m, op) && ExprOk(m, a) && (m.Reading? ==> LeftOk(a, PostfixRank(op)))
    case Between(_, a, lo, hi) =>
      ExprOk(m, a) && ExprOk(m, lo) && ExprOk(m, hi) && (m.Reading? ==> LeftOk(a, kBetween))
    case Suffix(op, a, body) =>
      ExprOk(m, a) && (m.Reading? ==> LeftOk(a, SuffixRank(op))) && BodyOk(m, op, body)
    case Call(quals, name, distinct, args) =>
      (if m.Atoms? then AllAtomic(quals) else QualsOk(quals) && IsFreeName(name) && (distinct ==> args.Cons?)) &&
      ListOk(m, args)
    case Cast(a, typ) => ExprOk(m, a) && NameOk(m, typ)
    case Case(whens, els) => (m.Atoms? || whens.Cons?) && WhensOk(m, whens) && OptionOk(m, els)
    case Exists(q) => QueryOk(m, q) && RelOk(m, q)
    case NotExists(q) => QueryOk(m, q) && RelOk(m, q)
    case Scalar(q) => QueryOk(m, q) && RelOk(m, q)
  }

  predicate QueryOk(m: Rules, q: Rel) {
    m.Atoms? || IsQuery(q)
  }

  /** EqAny, NeAll and subscripts take one expression, IN takes at least one; only a
      subscript takes no query. */
  predicate BodyOk(m: Rules, op: SuffixOp, body: Body)
    decreases body
  {
    match body
    case Exprs(es) => (m.Atoms? || (es.Cons? && (op.InOp? || es.tail.Nil?))) && ListOk(m, es)
    case Sub(q) => (m.Atoms? || !op.Subscript?) && QueryOk(m, q) && RelOk(m, q)
  }

  predicate ListOk(m: Rules, es: List<Expr>)
    decreases es
  {
    match es
    case Nil => true
    case Cons(e, rest) => ExprOk(m, e) && ListOk(m, rest)
  }

  predicate WhensOk(m: Rules, ws: List<When>)
    decreases ws
  {
    match ws
    case Nil => true
    case Cons(w, rest) => ExprOk(m, w.cond) && ExprOk(m, w.result) && WhensOk(m, rest)
  }

  predicate OptionOk(m: Rules, o: Option<Expr>)
    decreases o
  {
    match o
    case None => true
    case Some(e) => ExprOk(m, e)
  }

  /** Which table values may stand where, as PostgreSQL and the builders demand. */
  predicate RelOk(m: Rules, r: Rel)
    decreases r, 1
  {
    match r
    case Table(path) => PathFits(m, path)
    case Alias(x, name) => (m.Reading? ==> !x.Alias?) && RelOk(m, x) && PlainFits(m, name)
    case Join(_, a, b, qual) => RelOk(m, a) && RelOk(m, b) && QualOk(m, qual)
    case Select(distinct, items, from, _, _, _, _, _, _) =>
      DistinctOk(m, distinct) && (m.Atoms? || items.Cons?) && ItemsOk(m, items) &&
      (m.Reading? ==> IsFromItem(from)) && RelOk(m, from) && ClausesOk(m, r)
    case SetOp(_, a, b) => QueryOk(m, a) && QueryOk(m, b) && RelOk(m, a) && RelOk(m, b)
    case With(ctes, main) => (m.Atoms? || ctes.Cons?) && CtesOk(m, ctes) && QueryOk(m, main) && RelOk(m, main)
  }

  predicate ClausesOk(m: Rules, r: Rel)
    requires r.Select?
    decreases r, 0
  {
    OptionOk(m, r.where) && GroupOk(m, r.group) && OptionOk(m, r.having) && OrderOk(m, r.order)
  }

  predicate QualOk(m: Rules, q: Qualifier)
    decreases q
  {
    match q
    case NoQualifier => true
    case OnCond(e) => ExprOk(m, e)
    case UsingCols(es) => (m.Atoms? || es.Cons?) && ListOk(m, es)
  }

  predicate DistinctOk(m: Rules, dis: Distinctness)
    decreases dis
  {
    match dis
    case DistinctOn(es) => (m.Atoms? || es.Cons?) && ListOk(m, es)
    case _ => true
  }

  predicate ItemsOk(m: Rules, items: List<Item>)
    decreases items
  {
    match items
    case Nil => true
    case Cons(i, rest) => ExprOk(m, i.e) && AliasOk(m, i.alias) && ItemsOk(m, rest)
  }

  predicate AliasOk(m: Rules, alias: Option<string>) {
    alias.Some? && !m.Atoms? ==> IsFreeName(alias.value)
  }

  predicate GroupOk(m: Rules, o: Option<List<Expr>>)
    decreases o
  {
    match o
    case None => true
    case Some(es) => (m.Atoms? || es.Cons?) && ListOk(m, es)
  }

  predicate OrderOk(m: Rules, o: Option<List<OrderTerm>>)
    decreases o
  {
    match o
    case None => true
    case Some(ts) => (m.Atoms? || ts.Cons?) && TermsOk(m, ts)
  }

  predicate TermsOk(m: Rules, ts: List<OrderTerm>)
    decreases ts
  {
    match ts
    case Nil => true
    case Cons(t, rest) => ExprOk(m, t.e) && TermsOk(m, rest)
  }

  predicate CtesOk(m: Rules, ctes: List<Cte>)
    decreases ctes
  {
    match ctes
    case Nil => true
    case Cons(c, rest) =>
      PlainFits(m, c.name) && QueryOk(m, c.query) && RelOk(m, c.query) && CtesOk(m, rest)
  }

  // ---- meaning

  /** `left.q1.q2...` grouped to the left. */
  function Chain(left: Expr, quals: List<Token>): Expr
    decreases quals
  {
    match quals
    case Nil => left
    case Cons(q, rest) => Chain(Infix(Member, left, Leaf(q)), rest)
  }

  /** The SQL tree a builder tree stands for: a negative number is a negated number,
      NOT EXISTS is a negated EXISTS, a dotted function name is a member access, and the
      prefix operator "-" is unary minus, whichever function built it. */
  function Meaning(e: Expr): Expr
    decreases e
  {
    match e
    case Leaf(_) => e
    case NegNum(digits) => Prefix(Minus, Leaf(Num(digits)))
    case Infix(op, a, b) => Infix(op, Meaning(a), Meaning(b))
    case Prefix(op, a) => Prefix(if op.Custom? && op.name == "-" then Minus else op, Meaning(a))
    case Postfix(op, a) => Postfix(op, Meaning(a))
    case Between(neg, a, lo, hi) => Between(neg, Meaning(a), Meaning(lo), Meaning(hi))
    case Suffix(op, a, body) => Suffix(op, Meaning(a), BodyMeaning(body))
    case Call(quals, name, distinct, args) =>
      var call := Call(Nil, name, distinct, ListMeaning(args));
      if quals.Nil? then call else Infix(Member, Chain(Leaf(quals.head), quals.tail), call)
    case Cast(a, typ) => Cast(Meaning(a), typ)
    case Case(whens, els) => Case(WhensMeaning(whens), OptionMeaning(els))
    case Exists(q) => Exists(RelMeaning(q))
    case NotExists(q) => Prefix(NotOp, Exists(RelMeaning(q)))
    case Scalar(q) => Scalar(RelMeaning(q))
  }

  function BodyMeaning(body: Body): Body
    decreases body
  {
    match body
    case Exprs(es) => Exprs(ListMeaning(es))
    case Sub(q) => Sub(RelMeaning(q))
  }

  function ListMeaning(es: List<Expr>): List<Expr>
    decreases es
  {
    match es
    case Nil => Nil
    case Cons(e, rest) => Cons(Meaning(e), ListMeaning(rest))
  }

  function WhensMeaning(ws: List<When>): List<When>
    decreases ws
  {
    match ws
    case Nil => Nil
    case Cons(w, rest) => Cons(When(Meaning(w.cond), Meaning(w.result)), WhensMeaning(rest))
  }

  function OptionMeaning(o: Option<Expr>): Option<Expr>
    decreases o
  {
    match o
    case None => None
    case Some(e) => Some(Meaning(e))
  }

  function RelMeaning(r: Rel): Rel
    decreases r
  {
    match r
    case Table(_) => r
    case Alias(x, name) => Alias(RelMeaning(x), name)
    case Join(kind, a, b, qual) => Join(kind, RelMeaning(a), RelMeaning(b), QualMeaning(qual))
    case Select(distinct, items, from, where, group, having, order, limit, offset) =>
      Select(DistinctMeaning(distinct), ItemsMeaning(items), RelMeaning(from), OptionMeaning(where),
             GroupMeaning(group), OptionMeaning(having), OrderMeaning(order), limit, offset)
    case SetOp(kind, a, b) => SetOp(kind, RelMeaning(a), RelMeaning(b))
    case With(ctes, main) => With(CtesMeaning(ctes), RelMeaning(main))
  }

  function QualMeaning(q: Qualifier): Qualifier
    decreases q
  {
    match q
    case NoQualifier => q
    case OnCond(e) => OnCond(Meaning(e))
    case UsingCols(es) => UsingCols(ListMeaning(es))
  }

  function DistinctMeaning(dis: Distinctness): Distinctness
    decreases dis
  {
    match dis
    case DistinctOn(es) => DistinctOn(ListMeaning(es))
    case _ => dis
  }

  function ItemsMeaning(items: List<Item>): List<Item>
    decreases items
  {
    match items
    case Nil => Nil
    case Cons(i, rest) => Cons(Item(Meaning(i.e), i.alias), ItemsMeaning(rest))
  }

  function GroupMeaning(o: Option<List<Expr>>): Option<List<Expr>>
    decreases o
  {
    match o
    case None => None
    case Some(es) => Some(ListMeaning(es))
  }

  function OrderMeaning(o: Option<List<OrderTerm>>): Option<List<OrderTerm>>
    decreases o
  {
    match o
    case None => None
    case Some(ts) => Some(TermsMeaning(ts))
  }

  function TermsMeaning(ts: List<OrderTerm>): List<OrderTerm>
    decreases ts
  {
    match ts
    case Nil => Nil
    case Cons(t, rest) => Cons(OrderTerm(Meaning(t.e), t.desc, t.nulls), TermsMeaning(rest))
  }

  function CtesMeaning(ctes: List<Cte>): List<Cte>
    decreases ctes
  {
    match ctes
    case Nil => Nil
    case Cons(c, rest) => Cons(Cte(c.name, RelMeaning(c.query)), CtesMeaning(rest))
  }
}
