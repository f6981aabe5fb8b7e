/** The text the builders produce: the node each constructor of src/expr.cpp and
    src/condition.cpp makes, and the strings the statement builders concatenate. */
module Render {
  import opened Basics
  import opened Precedence
  import opened Tokens
  import opened Lexer
  import opened Numerals
  import opened Syntax
  import opened Node
  import opened Text
  import opened Phrases
  import opened Fragments

  function OpenText(op: SuffixOp): string {
    if op.Subscript? then "[" else "("
  }

  function CloseText(op: SuffixOp): string {
    if op.Subscript? then "]" else ")"
  }

  function PathText(path: List<Token>): string {
    match path
    case Nil => ""
    case Cons(n, Nil) => Spell(n)
    case Cons(n, rest) => Spell(n) + ("." + PathText(rest))
  }

  function QualText(quals: List<Token>): string {
    match quals
    case Nil => ""
    case Cons(n, rest) => Spell(n) + ("." + QualText(rest))
  }

  // ---- expressions

  function Build(e: Expr): Node
    decreases e, 1
  {
    match e
    case Leaf(tok) => Made(kSymbol, [Text(Spell(tok))])
    case NegNum(digits) => Made(kSymbol, [Text("-" + digits)])
    case Infix(op, a, b) =>
      Made(InfixRank(op), [Child(Build(a), InfixRank(op)), Text(InfixText(op)), Child(Build(b), InfixRank(op))])
    case Prefix(op, a) => Made(PrefixRank(op), [Text(PrefixText(op)), Child(Build(a), PrefixRank(op))])
    case Postfix(op, a) => Made(PostfixRank(op), [Child(Build(a), PostfixRank(op)), Text(PostfixText(op))])
    case Between(neg, a, lo, hi) =>
      Made(kBetween, [Child(Build(a), kBetween), Text(BetweenText(neg)), Child(Build(lo), kBetween),
                      Text(" AND "), Child(Build(hi), kBetween)])
    case Suffix(op, a, Exprs(es)) =>
      Made(SuffixRank(op), [Child(Build(a), SuffixRank(op)), Text(SuffixText(op)), Text(OpenText(op))] +
                           ListParts(es) + [Text(CloseText(op))])
    case Suffix(op, a, Sub(q)) =>
      Made(SuffixRank(op), [Child(Build(a), SuffixRank(op)), Text(SuffixText(op) + Bracketed(q))])
    case Call(quals, name, distinct, args) =>
      Made(kSymbol, [Text(QualText(quals) + (name + ("(" + if distinct then "DISTINCT " else "")))] +
                    ListParts(args) + [Text(")")])
    case Cast(a, typ) =>
      Made(kTypecast, [Text("CAST ("), Child(Build(a), kTypecast), Text(" AS " + (Spell(typ) + ")"))])
    case Case(_, _) => Made(kSymbol, [Text(CaseText(e))])
    case Exists(q) => Made(kSymbol, [Text("EXISTS " + Bracketed(q))])
    case NotExists(q) => Made(kSymbol, [Text("NOT EXISTS " + Bracketed(q))])
    case Scalar(q) => Made(kSymbol, [Text(Bracketed(q))])
  }

  /** Expr::ToString and Condition::ToString. */
  function ToString(e: Expr): string
    decreases e, 2
  {
    NodeText(Build(e))
  }

  function ListParts(es: List<Expr>): seq<Part>
    decreases es
  {
    match es
    case Nil => []
    case Cons(e, Nil) => [Child(Build(e), kExtract)]
    case Cons(e, rest) => [Child(Build(e), kExtract), Text(", ")] + ListParts(rest)
  }

  /** CaseBuilder::End. */
  function CaseText(e: Expr): string
    requires e.Case?
    decreases e, 0
  {
    KwText(CASE) + (" " + (WhensText(e.whens) + (ElseText(e.els) + KwText(END))))
  }

  function WhensText(ws: List<When>): string
    decreases ws
  {
    match ws
    case Nil => ""
    case Cons(w, rest) =>
      KwText(WHEN) + (" " + (ToString(w.cond) + (Phrase(W1(THEN)) + (" " + (ToString(w.result) + (" " +
        WhensText(rest)))))))
  }

  function ElseText(els: Option<Expr>): string
    decreases els
  {
    match els
    case None => ""
    case Some(e) => KwText(ELSE) + (" " + (ToString(e) + " "))
  }

  // ---- table values

  function Bracketed(r: Rel): string
    decreases r, 3
  {
    if r.Table? || r.Alias? then RelText(r) else "(" + (RelText(r) + ")")
  }

  function QualifierText(q: Qualifier): string
    decreases q
  {
    match q
    case NoQualifier => ""
    case OnCond(e) => Phrase(W1(ON)) + (" " + ToString(e))
    case UsingCols(es) => Phrase(W1(USING)) + (" (" + (JoinCsv(ExprTexts(es)) + ")"))
  }

  /** RenderAll over expressions, select items and ordering terms. */
  function ExprTexts(es: List<Expr>): seq<string>
    decreases es
  {
    match es
    case Nil => []
    case Cons(e, rest) => [ToString(e)] + ExprTexts(rest)
  }

  function AliasText(alias: Option<string>): string {
    match alias
    case None => ""
    case Some(n) => Phrase(W1(AS)) + (" " + n)
  }

  function ItemTexts(items: List<Item>): seq<string>
    decreases items
  {
    match items
    case Nil => []
    case Cons(i, rest) => [ToString(i.e) + AliasText(i.alias)] + ItemTexts(rest)
  }

  function OrderText(desc: bool, nulls: Nulls): string {
    (if desc then Phrase(W1(DESC)) else "") +
    match nulls
    case NullsDefault => ""
    case NullsFirst => Phrase(W2(NULLS, FIRST))
    case NullsLast => Phrase(W2(NULLS, LAST))
  }

  function TermTexts(terms: List<OrderTerm>): seq<string>
    decreases terms
  {
    match terms
    case Nil => []
    case Cons(t, rest) => [ToString(t.e) + OrderText(t.desc, t.nulls)] + TermTexts(rest)
  }

  /** The white space around clauses in the two layouts of SelectExpr. */
  datatype Layout = OneLine | Pretty

  function Gap(layout: Layout): string {
    if layout.OneLine? then " " else "\n"
  }

  /** Between a clause keyword and its single operand. */
  function Lead(layout: Layout): string {
    if layout.OneLine? then " " else "\n    "
  }

  /** A clause keyword's list, with the white space before it. */
  function Csv(layout: Layout, items: seq<string>): string {
    if layout.OneLine? then " " + JoinCsv(items) else "\n" + JoinCsvIndented(items)
  }

  function DistinctText(dis: Distinctness): string
    decreases dis
  {
    match dis
    case Plain => KwText(SELECT)
    case Distinct => KwText(SELECT) + Phrase(W1(DISTINCT))
    case DistinctOn(es) => KwText(SELECT) + (Phrase(W2(DISTINCT, ON)) + (" (" + (JoinCsv(ExprTexts(es)) + ")")))
  }

  function ClauseText(layout: Layout, kw: Keyword, o: Option<Expr>): string
    decreases o
  {
    match o
    case None => ""
    case Some(e) => Gap(layout) + (KwText(kw) + (Lead(layout) + ToString(e)))
  }

  function GroupText(layout: Layout, o: Option<List<Expr>>): string
    decreases o
  {
    match o
    case None => ""
    case Some(es) => Gap(layout) + (KwText(GROUP) + (Phrase(W1(BY)) + Csv(layout, ExprTexts(es))))
  }

  function OrderByText(layout: Layout, o: Option<List<OrderTerm>>): string
    decreases o
  {
    match o
    case None => ""
    case Some(ts) => Gap(layout) + (KwText(ORDER) + (Phrase(W1(BY)) + Csv(layout, TermTexts(ts))))
  }

  function IntClauseText(layout: Layout, kw: Keyword, o: Option<int>): string {
    match o
    case None => ""
    case Some(n) => Gap(layout) + (KwText(kw) + (Lead(layout) + IntText(n)))
  }

  function ClausesText(layout: Layout, r: Rel): string
    requires r.Select?
    decreases r, 0
  {
    ClauseText(layout, WHERE, r.where) + (
      GroupText(layout, r.group) + (
        ClauseText(layout, HAVING, r.having) + (
          OrderByText(layout, r.order) + (
            IntClauseText(layout, LIMIT, r.limit) + IntClauseText(layout, OFFSET, r.offset)))))
  }

  /** SelectExpr::ToString and SelectExpr::ToStringFormatted, for a select with items. */
  function SelectText(layout: Layout, r: Rel): string
    requires r.Select?
    decreases r, 1
  {
    DistinctText(r.distinct) + (Csv(layout, ItemTexts(r.items)) + (
      Gap(layout) + (KwText(FROM) + (Lead(layout) + (RelText(r.from) + ClausesText(layout, r))))))
  }

  /** VirtualTable::ToString. */
  function RelText(r: Rel): string
    decreases r, 2
  {
    match r
    case Table(path) => PathText(path)
    case Alias(x, name) => Bracketed(x) + (Phrase(W1(AS)) + (" " + PathText(name)))
    case Join(kind, a, b, qual) =>
      Bracketed(a) + (" " + (JoinName(kind) + (" JOIN " + (Bracketed(b) + QualifierText(qual)))))
    case Select(_, _, _, _, _, _, _, _, _) => SelectText(OneLine, r)
    case SetOp(kind, a, b) => Bracketed(a) + (" " + (SetName(kind) + (" " + Bracketed(b))))
    case With(ctes, main) => KwText(WITH) + (" " + (CtesText(ctes) + (" " + RelText(main))))
  }

  function CtesText(ctes: List<Cte>): string
    decreases ctes
  {
    match ctes
    case Nil => ""
    case Cons(c, Nil) => CteText(c)
    case Cons(c, rest) => CteText(c) + (", " + CtesText(rest))
  }

  function CteText(c: Cte): string
    decreases c
  {
    PathText(c.name) + (Phrase(W1(AS)) + (" " + Bracketed(c.query)))
  }

  /** VirtualTable::ToStringFormatted. */
  function Formatted(r: Rel): string
    decreases r
  {
    match r
    case Select(_, _, _, _, _, _, _, _, _) => SelectText(Pretty, r)
    case With(ctes, main) => KwText(WITH) + ("\n" + (IndentBlock(CtesFormatted(ctes), 4) + ("\n" + Formatted(main))))
    case _ => RelText(r)
  }

  function CtesFormatted(ctes: List<Cte>): string
    decreases ctes
  {
    match ctes
    case Nil => ""
    case Cons(c, Nil) => CteFormatted(c)
    case Cons(c, rest) => CteFormatted(c) + (",\n" + CtesFormatted(rest))
  }

  function CteFormatted(c: Cte): string
    decreases c
  {
    PathText(c.name) + (Phrase(W1(AS)) + (" (\n" + (IndentBlock(Formatted(c.query), 4) + "\n)")))
  }

  lemma {:induction false} BuildRank(e: Expr)
    ensures Build(e).precedence == Rank(e)
  {
  }

  // ---- the trees the constructors build record their exact sizes

  lemma {:induction false} BuildSized(e: Expr)
    ensures Sized(Build(e))
    decreases e
  {
    match e
    case Infix(_, a, b) => BuildSized(a); BuildSized(b);
    case Prefix(_, a) => BuildSized(a);
    case Postfix(_, a) => BuildSized(a);
    case Between(_, a, lo, hi) => BuildSized(a); BuildSized(lo); BuildSized(hi);
    case Suffix(_, a, body) =>
      BuildSized(a);
      if body.Exprs? { ListSized(body.es); }
      SuffixSized(e);
    case Call(_, _, _, args) => ListSized(args);
    case Cast(a, _) => BuildSized(a);
    case _ =>
  }

  lemma {:induction false} SuffixSized(e: Expr)
    requires e.Suffix? && Sized(Build(e.a)) && (e.body.Exprs? ==> AllSized(ListParts(e.body.es)))
    ensures Sized(Build(e))
  {
  }

  lemma {:induction false} ListSized(es: List<Expr>)
    ensures AllSized(ListParts(es))
    decreases es
  {
    if es.Cons? {
      BuildSized(es.head);
      ListSized(es.tail);
    }
  }

  /** Whatever is built, the reserved buffer is filled exactly. */
  lemma {:induction false} BuildReserves(e: Expr, context: Prec)
    ensures |ToString(e)| == Build(e).size
    ensures |TextIn(Build(e), context)| == Build(e).size + if Rank(e) >= context then 2 else 0
  {
    BuildSized(e);
    BuildRank(e);
    ReserveExact(Build(e), context);
  }
}
