/** The one-line texts, word by word: what stands in them, with a single space between. */
module Words {
  import opened Basics
  import opened Tokens
  import opened Lexer
  import opened Numerals
  import opened Syntax
  import opened Text
  import opened Phrases
  import opened Fragments
  import opened Node
  import opened Render

  function Spaced(words: seq<string>): string {
    Intercalate(" ", words)
  }

  function ExprText(o: Option<Expr>): Option<string> {
    if o.Some? then Some(ToString(o.value)) else None
  }

  function NumberText(o: Option<int>): Option<string> {
    if o.Some? then Some(IntText(o.value)) else None
  }

  lemma {:induction false} ByWords()
    ensures KwText(GROUP) + Phrase(W1(BY)) == "GROUP BY" && KwText(ORDER) + Phrase(W1(BY)) == "ORDER BY"
  {
  }

  lemma {:induction false} ClauseKeywords()
    ensures '\n' !in KwText(WHERE) && '\n' !in KwText(HAVING) && '\n' !in KwText(LIMIT) && '\n' !in KwText(OFFSET)
    ensures KwText(WHERE) == "WHERE" && KwText(HAVING) == "HAVING"
    ensures KwText(LIMIT) == "LIMIT" && KwText(OFFSET) == "OFFSET"
  {
  }

  // ---- SELECT

  function HeaderText(dis: Distinctness): string {
    match dis
    case Plain => "SELECT"
    case Distinct => "SELECT DISTINCT"
    case DistinctOn(es) => "SELECT DISTINCT ON (" + (JoinCsv(ExprTexts(es)) + ")")
  }

  lemma {:induction false} HeaderWords()
    ensures KwText(SELECT) + Phrase(W1(DISTINCT)) == "SELECT DISTINCT"
  {
  }

  lemma {:induction false} HeaderOnWords()
    ensures KwText(SELECT) + (Phrase(W2(DISTINCT, ON)) + " (") == "SELECT DISTINCT ON ("
  {
  }

  lemma {:induction false} HeaderByWord(dis: Distinctness)
    ensures DistinctText(dis) == HeaderText(dis)
  {
    match dis
    case Plain =>
    case Distinct => HeaderWords();
    case DistinctOn(es) =>
      HeaderOnWords();
      Assoc3(KwText(SELECT), Phrase(W2(DISTINCT, ON)), " (", JoinCsv(ExprTexts(es)) + ")");
      Assoc(KwText(SELECT) + (Phrase(W2(DISTINCT, ON)) + " ("), JoinCsv(ExprTexts(es)), ")");
  }

  /** A clause keyword and its operand. */
  function OperandWords(keyword: string, operand: Option<string>): seq<string> {
    if operand.None? then [] else [keyword, operand.value]
  }

  function ListText(o: Option<seq<string>>): Option<string> {
    if o.Some? then Some(JoinCsv(o.value)) else None
  }

  function SelectWords(r: Rel): seq<string>
    requires r.Select?
  {
    [HeaderText(r.distinct), JoinCsv(ItemTexts(r.items)), "FROM", RelText(r.from)] +
    (OperandWords("WHERE", ExprText(r.where)) +
     (OperandWords("GROUP BY", ListText(if r.group.Some? then Some(ExprTexts(r.group.value)) else None)) +
      (OperandWords("HAVING", ExprText(r.having)) +
       (OperandWords("ORDER BY", ListText(if r.order.Some? then Some(TermTexts(r.order.value)) else None)) +
        (OperandWords("LIMIT", NumberText(r.limit)) + OperandWords("OFFSET", NumberText(r.offset)))))))
  }

  lemma {:induction false} AfterAppend(a: seq<string>, b: seq<string>)
    ensures After(" ", a + b) == After(" ", a) + After(" ", b)
  {
    if a == [] {
      assert a + b == b && After(" ", a) == "";
    } else {
      assert (a + b)[1..] == a[1..] + b;
      AfterAppend(a[1..], b);
      Assoc(" " + a[0], After(" ", a[1..]), After(" ", b));
    }
  }

  lemma {:induction false} PairByWord(keyword: string, operand: string)
    ensures After(" ", OperandWords(keyword, Some(operand))) == " " + (keyword + (" " + operand))
  {
    assert [keyword, operand][1..] == [operand];
    assert [operand][1..] == [];
    assert After(" ", [operand]) == " " + operand;
    Assoc(" ", keyword, " " + operand);
  }

  lemma {:induction false} ClauseWords(kw: Keyword, o: Option<Expr>)
    ensures ClauseText(OneLine, kw, o) == After(" ", OperandWords(KwText(kw), ExprText(o)))
  {
    if o.Some? { PairByWord(KwText(kw), ToString(o.value)); }
  }

  lemma {:induction false} NumberWords(kw: Keyword, o: Option<int>)
    ensures IntClauseText(OneLine, kw, o) == After(" ", OperandWords(KwText(kw), NumberText(o)))
  {
    if o.Some? { PairByWord(KwText(kw), IntText(o.value)); }
  }

  lemma {:induction false} GroupWords(o: Option<List<Expr>>)
    ensures GroupText(OneLine, o) ==
      After(" ", OperandWords("GROUP BY", ListText(if o.Some? then Some(ExprTexts(o.value)) else None)))
  {
    if o.Some? {
      ByWords();
      Assoc(KwText(GROUP), Phrase(W1(BY)), " " + JoinCsv(ExprTexts(o.value)));
      PairByWord("GROUP BY", JoinCsv(ExprTexts(o.value)));
    }
  }

  lemma {:induction false} OrderWords(o: Option<List<OrderTerm>>)
    ensures OrderByText(OneLine, o) ==
      After(" ", OperandWords("ORDER BY", ListText(if o.Some? then Some(TermTexts(o.value)) else None)))
  {
    if o.Some? {
      ByWords();
      Assoc(KwText(ORDER), Phrase(W1(BY)), " " + JoinCsv(TermTexts(o.value)));
      PairByWord("ORDER BY", JoinCsv(TermTexts(o.value)));
    }
  }

  lemma {:induction false} AfterSix(a: seq<string>, b: seq<string>, c: seq<string>, d: seq<string>, e: seq<string>,
                                    f: seq<string>)
    ensures After(" ", a + (b + (c + (d + (e + f))))) ==
      After(" ", a) + (After(" ", b) + (After(" ", c) + (After(" ", d) + (After(" ", e) + After(" ", f)))))
  {
    AfterAppend(e, f);
    AfterAppend(d, e + f);
    AfterAppend(c, d + (e + f));
    AfterAppend(b, c + (d + (e + f)));
    AfterAppend(a, b + (c + (d + (e + f))));
  }

  lemma {:induction false} ClausesWords(r: Rel)
    requires r.Select?
    ensures ClausesText(OneLine, r) == After(" ", SelectWords(r)[4..])
  {
    var w, g := OperandWords("WHERE", ExprText(r.where)),
                OperandWords("GROUP BY", ListText(if r.group.Some? then Some(ExprTexts(r.group.value)) else None));
    var h, o := OperandWords("HAVING", ExprText(r.having)),
                OperandWords("ORDER BY", ListText(if r.order.Some? then Some(TermTexts(r.order.value)) else None));
    var l, f := OperandWords("LIMIT", NumberText(r.limit)), OperandWords("OFFSET", NumberText(r.offset));
    ClauseKeywords();
    ClauseWords(WHERE, r.where);
    GroupWords(r.group);
    ClauseWords(HAVING, r.having);
    OrderWords(r.order);
    NumberWords(LIMIT, r.limit);
    NumberWords(OFFSET, r.offset);
    AfterSix(w, g, h, o, l, f);
    var list := [HeaderText(r.distinct), JoinCsv(ItemTexts(r.items)), "FROM", RelText(r.from)];
    assert (list + (w + (g + (h + (o + (l + f))))))[4..] == w + (g + (h + (o + (l + f))));
  }

  /** SelectExpr::ToString: keywords and operands in the order of the clauses. */
  lemma {:induction false} SelectByWord(r: Rel)
    requires r.Select?
    ensures SelectText(OneLine, r) == Spaced(SelectWords(r))
  {
    var items, from := JoinCsv(ItemTexts(r.items)), RelText(r.from);
    ClausesWords(r);
    HeaderByWord(r.distinct);
    assert SelectWords(r)[1..] == [items] + (OperandWords("FROM", Some(from)) + SelectWords(r)[4..]);
    FromWords(items, from, SelectWords(r)[4..]);
  }

  lemma {:induction false} FromWords(items: string, from: string, more: seq<string>)
    ensures After(" ", [items] + (OperandWords("FROM", Some(from)) + more)) ==
      (" " + items) + (" " + (KwText(FROM) + (" " + (from + After(" ", more)))))
  {
    AfterAppend([items], OperandWords("FROM", Some(from)) + more);
    AfterAppend(OperandWords("FROM", Some(from)), more);
    PairByWord("FROM", from);
    assert [items][1..] == [] && After(" ", [items]) == " " + items;
    Assoc4(" ", KwText(FROM), " ", from, After(" ", more));
  }

  // ---- the other table values

  /** ToStringBracketed: queries and joins stand in brackets inside others. */
  function Inside(r: Rel): string {
    if IsQuery(r) || r.Join? then "(" + (RelText(r) + ")") else RelText(r)
  }

  function QualifierWords(q: Qualifier): seq<string> {
    match q
    case NoQualifier => []
    case OnCond(e) => ["ON", ToString(e)]
    case UsingCols(es) => ["USING", "(" + (JoinCsv(ExprTexts(es)) + ")")]
  }

  /** `name AS (query)` for each common table expression. */
  function NamedTexts(ctes: List<Cte>): seq<string> {
    match ctes
    case Nil => []
    case Cons(c, rest) => [PathText(c.name) + (" AS " + Inside(c.query))] + NamedTexts(rest)
  }

  function ValueText(r: Rel): string {
    match r
    case Table(path) => PathText(path)
    case Alias(x, name) => Spaced([Inside(x), "AS", PathText(name)])
    case Join(kind, a, b, qual) => Spaced([Inside(a), JoinName(kind), "JOIN", Inside(b)] + QualifierWords(qual))
    case Select(_, _, _, _, _, _, _, _, _) => Spaced(SelectWords(r))
    case SetOp(kind, a, b) => Spaced([Inside(a), SetName(kind), Inside(b)])
    case With(ctes, main) => Spaced(["WITH", Intercalate(", ", NamedTexts(ctes)), RelText(main)])
  }

  lemma {:induction false} Spaced3(a: string, b: string, c: string)
    ensures Spaced([a, b, c]) == a + (" " + (b + (" " + c)))
  {
    assert [a, b, c][1..] == [b, c];
    PairByWord(b, c);
  }

  /** VirtualTable::ToString. */
  lemma {:induction false} ValueByWord(r: Rel)
    ensures RelText(r) == ValueText(r)
  {
    match r
    case Table(_) =>
    case Alias(x, name) => AliasByWord(x, name);
    case Join(_, _, _, _) => JoinByWord(r);
    case Select(_, _, _, _, _, _, _, _, _) => SelectByWord(r);
    case SetOp(kind, a, b) => SetOpByWord(kind, a, b);
    case With(ctes, main) => WithByWord(ctes, main);
  }

  lemma {:induction false} AliasByWord(x: Rel, name: List<Token>)
    ensures RelText(Alias(x, name)) == Spaced([Inside(x), KwText(AS), PathText(name)])
  {
    Spaced3(Inside(x), KwText(AS), PathText(name));
    Assoc(" ", KwText(AS), " " + PathText(name));
  }

  lemma {:induction false} SetOpByWord(kind: SetKind, a: Rel, b: Rel)
    ensures RelText(SetOp(kind, a, b)) == Spaced([Inside(a), SetName(kind), Inside(b)])
  {
    Spaced3(Inside(a), SetName(kind), Inside(b));
  }

  lemma {:induction false} WithByWord(ctes: List<Cte>, main: Rel)
    ensures RelText(With(ctes, main)) == ValueText(With(ctes, main))
  {
    CtesByWord(ctes);
    Spaced3(KwText(WITH), CtesText(ctes), RelText(main));
  }

  lemma {:induction false} QualifierByWord(q: Qualifier)
    ensures QualifierText(q) == After(" ", QualifierWords(q))
  {
    match q
    case NoQualifier =>
    case OnCond(e) =>
      assert Phrase(W1(ON)) == " " + "ON";
      PairByWord("ON", ToString(e));
      Assoc(" ", "ON", " " + ToString(e));
    case UsingCols(es) =>
      var list := JoinCsv(ExprTexts(es)) + ")";
      assert Phrase(W1(USING)) == " " + "USING" && " (" == " " + "(";
      PairByWord("USING", "(" + list);
      Assoc(" ", "(", list);
      Assoc(" ", "USING", " " + ("(" + list));
  }

  lemma {:induction false} JoinByWord(r: Rel)
    requires r.Join?
    ensures RelText(r) == ValueText(r)
  {
    var a, b, k := Inside(r.left), Inside(r.right), JoinName(r.kind);
    var q := QualifierWords(r.qual);
    QualifierByWord(r.qual);
    assert ([a, k, "JOIN", b] + q)[1..] == [k, "JOIN"] + ([b] + q);
    AfterAppend([k, "JOIN"], [b] + q);
    AfterAppend([b], q);
    PairByWord(k, "JOIN");
    assert [b][1..] == [] && After(" ", [b]) == " " + b;
    assert " JOIN " == " " + ("JOIN" + " ");
    JoinSpaces(k, b, QualifierText(r.qual));
  }

  lemma {:induction false} JoinSpaces(kind: string, b: string, q: string)
    ensures (" " + (kind + (" " + "JOIN"))) + ((" " + b) + q) == " " + (kind + (" JOIN " + (b + q)))
  {
    assert " JOIN " == (" " + "JOIN") + " ";
    Assoc(" ", b, q);
    Assoc(" " + "JOIN", " ", b + q);
    Assoc3(" ", kind, " " + "JOIN", " " + (b + q));
  }

  lemma {:induction false} CtesByWord(ctes: List<Cte>)
    ensures CtesText(ctes) == Intercalate(", ", NamedTexts(ctes))
    decreases ctes
  {
    match ctes
    case Nil =>
    case Cons(c, rest) =>
      var first := PathText(c.name) + (" AS " + Inside(c.query));
      AsSpelling();
      Assoc(Phrase(W1(AS)), " ", Inside(c.query));
      assert CteText(c) == first;
      if rest.Nil? {
        assert NamedTexts(rest) == [];
        assert Intercalate(", ", [first]) == first;
      } else {
        CtesByWord(rest);
        IntercalateCons(first, NamedTexts(rest));
      }
  }

  // ---- CASE

  function WhenWords(ws: List<When>): seq<string> {
    match ws
    case Nil => []
    case Cons(w, rest) => ["WHEN", ToString(w.cond), "THEN", ToString(w.result)] + WhenWords(rest)
  }

  function ElseWords(els: Option<Expr>): seq<string> {
    (if els.Some? then ["ELSE", ToString(els.value)] else []) + ["END"]
  }

  lemma {:induction false} WhensByWord(ws: List<When>)
    ensures " " + WhensText(ws) == After(" ", WhenWords(ws)) + " "
    decreases ws
  {
    match ws
    case Nil =>
      assert After(" ", []) == "";
    case Cons(w, rest) =>
      var c, r := ToString(w.cond), ToString(w.result);
      var two, more := [KwText(THEN), r], WhenWords(rest);
      WhensByWord(rest);
      assert WhenWords(ws) == [KwText(WHEN), c] + (two + more);
      AfterAppend([KwText(WHEN), c], two + more);
      AfterAppend(two, more);
      PairByWord(KwText(WHEN), c);
      PairByWord(KwText(THEN), r);
      assert Phrase(W1(THEN)) == " " + KwText(THEN);
      PairSpaces(c, r, WhensText(rest), After(" ", more));
  }

  lemma {:induction false} PairSpaces(c: string, r: string, rest: string, more: string)
    requires " " + rest == more + " "
    ensures " " + (KwText(WHEN) + (" " + (c + ((" " + KwText(THEN)) + (" " + (r + (" " + rest)))))))
         == ((" " + (KwText(WHEN) + (" " + c))) + ((" " + (KwText(THEN) + (" " + r))) + more)) + " "
  {
    var t := " " + (KwText(THEN) + (" " + r));
    Assoc(" " + (KwText(WHEN) + (" " + c)), t + more, " ");
    Assoc(t, more, " ");
    Assoc4(" ", KwText(THEN), " ", r, more + " ");
    Assoc(" ", KwText(THEN), " " + (r + (" " + rest)));
    Assoc4(" ", KwText(WHEN), " ", c, t + (more + " "));
  }

  /** CaseBuilder::End. */
  lemma {:induction false} CaseByWord(e: Expr)
    requires e.Case?
    ensures ToString(e) == Spaced(["CASE"] + (WhenWords(e.whens) + ElseWords(e.els)))
  {
    Parts1(Part.Text(CaseText(e)), "");
    assert CaseText(e) + "" == CaseText(e);
    WhensByWord(e.whens);
    ElseByWord(e.els);
    CaseSpaces(WhensText(e.whens), WhenWords(e.whens), ElseText(e.els) + KwText(END), ElseWords(e.els));
  }

  lemma {:induction false} CaseSpaces(whens: string, ws: seq<string>, tail: string, es: seq<string>)
    requires " " + whens == After(" ", ws) + " " && " " + tail == After(" ", es)
    ensures KwText(CASE) + (" " + (whens + tail)) == Spaced(["CASE"] + (ws + es))
  {
    AfterAppend(ws, es);
    assert (["CASE"] + (ws + es))[1..] == ws + es;
    Assoc(" ", whens, tail);
    Assoc(After(" ", ws), " ", tail);
  }

  lemma {:induction false} ElseByWord(els: Option<Expr>)
    ensures " " + (ElseText(els) + KwText(END)) == After(" ", ElseWords(els))
  {
    assert ["END"][1..] == [] && After(" ", ["END"]) == " " + "END";
    if els.Some? {
      var e := ToString(els.value);
      AfterAppend(["ELSE", e], ["END"]);
      PairByWord("ELSE", e);
      Assoc4(" ", "ELSE", " ", e, " " + "END");
      Assoc3("ELSE", " ", e + " ", "END");
      Assoc(e, " ", "END");
    } else {
      assert [] + ["END"] == ["END"] && "" + "END" == "END";
    }
  }
}
