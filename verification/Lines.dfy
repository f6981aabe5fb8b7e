/** The multi-line layout, line by line. */
module Lines {
  import opened Basics
  import opened Tokens
  import opened Lexer
  import opened Numerals
  import opened Syntax
  import opened Text
  import opened Phrases
  import opened Render
  import opened Words

  // ---- texts as lines

  /** The lines of a text; the empty text is one empty line. */
  function Lines(text: string): (lines: seq<string>)
    ensures lines != []
  {
    if text == "" then [""]
    else if text[0] == '\n' then [""] + Lines(text[1..])
    else
      var rest := Lines(text[1..]);
      [[text[0]] + rest[0]] + rest[1..]
  }

  /** `n` spaces in front of every line. */
  function Shift(lines: seq<string>, n: nat): (r: seq<string>)
    ensures |r| == |lines| && forall i :: 0 <= i < |r| ==> r[i] == Spaces(n) + lines[i]
  {
    if lines == [] then [] else [Spaces(n) + lines[0]] + Shift(lines[1..], n)
  }

  predicate NewLine(k: string) {
    k == "" || k[0] == '\n'
  }

  /** The lines behind a text that `k` is appended to. */
  function MoreLines(k: string): seq<string>
    requires NewLine(k)
  {
    if k == "" then [] else Lines(k[1..])
  }

  lemma {:induction false} LinesPlain(s: string)
    requires '\n' !in s
    ensures Lines(s) == [s]
  {
    if s != "" {
      LinesPlain(s[1..]);
      assert s == [s[0]] + s[1..];
    }
  }

  lemma {:induction false} LinesAppend(t: string, k: string)
    requires NewLine(k)
    ensures Lines(t + k) == Lines(t) + MoreLines(k)
  {
    if t == "" {
      assert t + k == k;
      if k != "" { LinesCons(k[0], k[1..]); }
    } else {
      LinesAppend(t[1..], k);
      LinesCons(t[0], t[1..]);
      LinesCons(t[0], t[1..] + k);
      assert t == [t[0]] + t[1..];
      Assoc([t[0]], t[1..], k);
      FirstLine(Lines(t[1..]), MoreLines(k));
    }
  }

  lemma {:induction false} LinesCons(c: char, rest: string)
    ensures Lines([c] + rest) ==
      if c == '\n' then [""] + Lines(rest) else [[c] + Lines(rest)[0]] + Lines(rest)[1..]
  {
    assert ([c] + rest)[1..] == rest;
  }

  lemma {:induction false} FirstLine(lines: seq<string>, more: seq<string>)
    requires lines != []
    ensures (lines + more)[0] == lines[0] && (lines + more)[1..] == lines[1..] + more
    ensures ([""] + lines) + more == [""] + (lines + more)
  {
  }

  lemma {:induction false} MoreAppend(a: string, b: string)
    requires NewLine(a) && NewLine(b)
    ensures NewLine(a + b) && MoreLines(a + b) == MoreLines(a) + MoreLines(b)
  {
    if a == "" {
      assert a + b == b;
    } else {
      assert (a + b)[1..] == a[1..] + b;
      LinesAppend(a[1..], b);
    }
  }

  lemma {:induction false} MoreAppendSix(a: string, b: string, c: string, d: string, e: string, f: string)
    requires NewLine(a) && NewLine(b) && NewLine(c) && NewLine(d) && NewLine(e) && NewLine(f)
    ensures NewLine(a + (b + (c + (d + (e + f)))))
    ensures MoreLines(a + (b + (c + (d + (e + f))))) ==
      MoreLines(a) + (MoreLines(b) + (MoreLines(c) + (MoreLines(d) + (MoreLines(e) + MoreLines(f)))))
  {
    MoreAppend(e, f);
    MoreAppend(d, e + f);
    MoreAppend(c, d + (e + f));
    MoreAppend(b, c + (d + (e + f)));
    MoreAppend(a, b + (c + (d + (e + f))));
  }

  /** A line break between two texts. */
  lemma {:induction false} LinesBreak(a: string, b: string)
    ensures Lines(a + ("\n" + b)) == Lines(a) + Lines(b)
  {
    LinesAppend(a, "\n" + b);
    assert ("\n" + b)[1..] == b;
  }

  lemma {:induction false} LinesPrefix(p: string, t: string)
    requires '\n' !in p
    ensures Lines(p + t) == [p + Lines(t)[0]] + Lines(t)[1..]
  {
    if p == "" {
      assert p + t == t && p + Lines(t)[0] == Lines(t)[0];
      assert Lines(t) == [Lines(t)[0]] + Lines(t)[1..];
    } else {
      assert (p + t)[1..] == p[1..] + t;
      LinesPrefix(p[1..], t);
      assert [p[0]] + (p[1..] + Lines(t)[0]) == p + Lines(t)[0];
    }
  }

  /** IndentBlock moves every line to the right, and does nothing else. */
  lemma {:induction false} IndentedLines(text: string, n: nat)
    ensures Lines(IndentBlock(text, n)) == Shift(Lines(text), n)
  {
    TailIndented(text, n);
    assert '\n' !in Spaces(n);
    LinesPrefix(Spaces(n), IndentTail(text, n));
    assert Shift(Lines(text), n)[1..] == Shift(Lines(text)[1..], n);
  }

  lemma {:induction false} TailIndented(text: string, n: nat)
    ensures Lines(IndentTail(text, n)) == [Lines(text)[0]] + Shift(Lines(text)[1..], n)
  {
    if text != "" {
      var rest := IndentTail(text[1..], n);
      TailIndented(text[1..], n);
      if text[0] == '\n' {
        Assoc("\n", Spaces(n), rest);
        LinesBreak("", Spaces(n) + rest);
        assert "" + ("\n" + (Spaces(n) + rest)) == "\n" + (Spaces(n) + rest);
        assert '\n' !in Spaces(n);
        LinesPrefix(Spaces(n), rest);
        assert Lines(text)[1..] == Lines(text[1..]);
        assert Lines(text[1..]) == [Lines(text[1..])[0]] + Lines(text[1..])[1..];
      } else {
        LinesPrefix([text[0]], rest);
      }
    }
  }

  // ---- lists

  /** Every item starts a line, four spaces in; all but the last end in a comma. */
  function ItemLines(items: seq<string>): seq<string> {
    if items == [] then []
    else Lines("    " + (items[0] + if |items| == 1 then "" else ",")) + ItemLines(items[1..])
  }

  lemma {:induction false} CsvLines(items: seq<string>)
    requires items != []
    ensures Lines(JoinCsvIndented(items)) == ItemLines(items)
  {
    var first := items[0];
    if |items| == 1 {
      assert first + "" == first && After(",\n    ", items[1..]) == "";
      assert "    " + first + "" == "    " + first;
    } else {
      var rest := items[1..];
      CsvLines(rest);
      IndentedMore(first, rest);
      LinesBreak("    " + (first + ","), JoinCsvIndented(rest));
    }
  }

  lemma {:induction false} IndentedMore(first: string, rest: seq<string>)
    requires rest != []
    ensures JoinCsvIndented([first] + rest) == "    " + (first + ",") + ("\n" + JoinCsvIndented(rest))
  {
    var more := After(",\n    ", rest[1..]);
    assert ([first] + rest)[1..] == rest;
    assert ",\n    " == "," + ("\n" + "    ");
    Assoc("    ", first, ",");
    Assoc3(",", "\n", "    ", rest[0] + more);
    Assoc("    ", rest[0], more);
    Assoc("    " + first, ",", "\n" + ("    " + (rest[0] + more)));
    Assoc(",\n    ", rest[0], more);
  }

  /** Items on one line each are the lines, with a comma behind all but the last. */
  lemma {:induction false} CsvLineAt(items: seq<string>, i: nat)
    requires i < |items| && forall item :: item in items ==> '\n' !in item
    ensures |ItemLines(items)| == |items|
    ensures ItemLines(items)[i] == "    " + (items[i] + if i == |items| - 1 then "" else ",")
  {
    assert items[0] in items;
    LinesPlain("    " + (items[0] + if |items| == 1 then "" else ","));
    if |items| > 1 {
      CsvLineAt(items[1..], if i > 0 then i - 1 else 0);
    }
  }

  // ---- SELECT

  /** A keyword on a line of its own and its operand four spaces in on the next. */
  function OperandLines(keyword: string, operand: Option<string>): seq<string> {
    if operand.None? then [] else [keyword] + Lines("    " + operand.value)
  }

  function ListLines(keywords: string, items: Option<seq<string>>): seq<string> {
    if items.None? then []
    else [keywords] + if items.value == [] then [""] else ItemLines(items.value)
  }

  function ClauseLines(r: Rel): seq<string>
    requires r.Select?
  {
    OperandLines("WHERE", ExprText(r.where)) +
    (ListLines("GROUP BY", if r.group.Some? then Some(ExprTexts(r.group.value)) else None) +
     (OperandLines("HAVING", ExprText(r.having)) +
      (ListLines("ORDER BY", if r.order.Some? then Some(TermTexts(r.order.value)) else None) +
       (OperandLines("LIMIT", NumberText(r.limit)) + OperandLines("OFFSET", NumberText(r.offset))))))
  }

  function SelectLines(r: Rel): seq<string>
    requires r.Select?
  {
    Lines(HeaderText(r.distinct)) + (ListLines("SELECT", Some(ItemTexts(r.items)))[1..] +
      (OperandLines("FROM", Some(RelText(r.from))) + ClauseLines(r)))
  }

  lemma {:induction false} OperandBreak(kw: Keyword, operand: string)
    requires '\n' !in KwText(kw)
    ensures var k := "\n" + (KwText(kw) + ("\n    " + operand));
            NewLine(k) && MoreLines(k) == [KwText(kw)] + Lines("    " + operand)
  {
    var k := "\n" + (KwText(kw) + ("\n    " + operand));
    assert k[1..] == KwText(kw) + ("\n    " + operand);
    assert "\n    " == "\n" + "    ";
    Assoc("\n", "    ", operand);
    LinesBreak(KwText(kw), "    " + operand);
    LinesPlain(KwText(kw));
  }

  lemma {:induction false} ClauseBreak(kw: Keyword, o: Option<Expr>)
    requires '\n' !in KwText(kw)
    ensures var k := ClauseText(Pretty, kw, o);
            NewLine(k) && MoreLines(k) == OperandLines(KwText(kw), ExprText(o))
  {
    if o.Some? { OperandBreak(kw, ToString(o.value)); }
  }

  lemma {:induction false} NumberBreak(kw: Keyword, o: Option<int>)
    requires '\n' !in KwText(kw)
    ensures var k := IntClauseText(Pretty, kw, o);
            NewLine(k) && MoreLines(k) == OperandLines(KwText(kw), NumberText(o))
  {
    if o.Some? { OperandBreak(kw, IntText(o.value)); }
  }

  lemma {:induction false} ListBreak(words: string, items: seq<string>)
    requires '\n' !in words
    ensures var k := "\n" + (words + ("\n" + JoinCsvIndented(items)));
            NewLine(k) && MoreLines(k) == ListLines(words, Some(items))
  {
    var k := "\n" + (words + ("\n" + JoinCsvIndented(items)));
    assert k[1..] == words + ("\n" + JoinCsvIndented(items));
    LinesBreak(words, JoinCsvIndented(items));
    LinesPlain(words);
    if items != [] { CsvLines(items); }
  }

  lemma {:induction false} GroupBreak(o: Option<List<Expr>>)
    ensures var k := GroupText(Pretty, o);
            NewLine(k) &&
            MoreLines(k) == ListLines("GROUP BY", if o.Some? then Some(ExprTexts(o.value)) else None)
  {
    if o.Some? {
      ByWords();
      Assoc(KwText(GROUP), Phrase(W1(BY)), "\n" + JoinCsvIndented(ExprTexts(o.value)));
      ListBreak("GROUP BY", ExprTexts(o.value));
    }
  }

  lemma {:induction false} OrderBreak(o: Option<List<OrderTerm>>)
    ensures var k := OrderByText(Pretty, o);
            NewLine(k) &&
            MoreLines(k) == ListLines("ORDER BY", if o.Some? then Some(TermTexts(o.value)) else None)
  {
    if o.Some? {
      ByWords();
      Assoc(KwText(ORDER), Phrase(W1(BY)), "\n" + JoinCsvIndented(TermTexts(o.value)));
      ListBreak("ORDER BY", TermTexts(o.value));
    }
  }

  lemma {:induction false} ClausesBreak(r: Rel)
    requires r.Select?
    ensures NewLine(ClausesText(Pretty, r)) && MoreLines(ClausesText(Pretty, r)) == ClauseLines(r)
  {
    var l, f := IntClauseText(Pretty, LIMIT, r.limit), IntClauseText(Pretty, OFFSET, r.offset);
    var o, h := OrderByText(Pretty, r.order), ClauseText(Pretty, HAVING, r.having);
    var g, w := GroupText(Pretty, r.group), ClauseText(Pretty, WHERE, r.where);
    ClauseKeywords();
    NumberBreak(LIMIT, r.limit);
    NumberBreak(OFFSET, r.offset);
    OrderBreak(r.order);
    ClauseBreak(HAVING, r.having);
    GroupBreak(r.group);
    ClauseBreak(WHERE, r.where);
    MoreAppendSix(w, g, h, o, l, f);
  }

  /** SelectExpr::ToStringFormatted: every clause keyword is a line of its own, and every
      item starts a line four spaces in; other lines are inside the text of an item. */
  lemma {:induction false} SelectByLine(r: Rel)
    requires r.Select?
    ensures Lines(SelectText(Pretty, r)) == SelectLines(r)
  {
    var items := ItemTexts(r.items);
    var from := "\n" + (KwText(FROM) + ("\n    " + RelText(r.from)));
    var clauses := ClausesText(Pretty, r);
    var list := "\n" + JoinCsvIndented(items);
    ClausesBreak(r);
    FromBreak(RelText(r.from));
    MoreAppend(from, clauses);
    if items != [] { CsvLines(items); }
    assert list[1..] == JoinCsvIndented(items);
    MoreAppend(list, from + clauses);
    HeaderByWord(r.distinct);
    LinesAppend(DistinctText(r.distinct), list + (from + clauses));
    FromText(RelText(r.from), clauses);
  }

  lemma {:induction false} FromBreak(from: string)
    ensures var k := "\n" + (KwText(FROM) + ("\n    " + from));
            NewLine(k) && MoreLines(k) == OperandLines("FROM", Some(from))
  {
    OperandBreak(FROM, from);
  }

  lemma {:induction false} FromText(from: string, k: string)
    ensures ("\n" + (KwText(FROM) + ("\n    " + from))) + k == "\n" + (KwText(FROM) + ("\n    " + (from + k)))
  {
    Assoc4("\n", KwText(FROM), "\n    ", from, k);
  }

  // ---- WITH, to any depth

  function CteLines(ctes: List<Cte>): seq<string>
    decreases ctes
  {
    match ctes
    case Nil => [""]
    case Cons(c, rest) =>
      Lines(PathText(c.name) + " AS (") + (Shift(FormattedLines(c.query), 4) +
        if rest.Nil? then [")"] else ["),"] + CteLines(rest))
  }

  /** What ToStringFormatted prints, as lines. */
  function FormattedLines(r: Rel): seq<string>
    decreases r
  {
    match r
    case Select(_, _, _, _, _, _, _, _, _) => SelectLines(r)
    case With(ctes, main) => ["WITH"] + (Shift(CteLines(ctes), 4) + FormattedLines(main))
    case _ => Lines(RelText(r))
  }

  lemma {:induction false} FormattedByLine(r: Rel)
    ensures Lines(Formatted(r)) == FormattedLines(r)
    decreases r
  {
    match r
    case Select(_, _, _, _, _, _, _, _, _) => SelectByLine(r);
    case With(ctes, main) =>
      CtesByLine(ctes);
      FormattedByLine(main);
      WithByLine(CtesFormatted(ctes), Formatted(main));
    case _ =>
  }

  lemma {:induction false} WithByLine(block: string, main: string)
    ensures Lines(KwText(WITH) + ("\n" + (IndentBlock(block, 4) + ("\n" + main))))
         == ["WITH"] + (Shift(Lines(block), 4) + Lines(main))
  {
    IndentedLines(block, 4);
    LinesBreak(IndentBlock(block, 4), main);
    LinesBreak(KwText(WITH), IndentBlock(block, 4) + ("\n" + main));
    WithWord();
    LinesPlain(KwText(WITH));
  }

  lemma {:induction false} WithWord()
    ensures KwText(WITH) == "WITH" && '\n' !in KwText(WITH)
  {
  }

  lemma {:induction false} CtesByLine(ctes: List<Cte>)
    ensures Lines(CtesFormatted(ctes)) == CteLines(ctes)
    decreases ctes
  {
    match ctes
    case Nil =>
    case Cons(c, rest) =>
      FormattedByLine(c.query);
      if rest.Nil? {
        CteByLine(c, "");
        assert CteFormatted(c) + "" == CteFormatted(c) && ")" + "" == ")";
        LinesPlain(")");
      } else {
        CtesByLine(rest);
        CteByLine(c, ",\n" + CtesFormatted(rest));
        CommaLine(CtesFormatted(rest));
      }
  }

  lemma {:induction false} CommaLine(k: string)
    ensures Lines(")" + (",\n" + k)) == ["),"] + Lines(k)
  {
    assert ")" + ",\n" == ")," + "\n";
    Assoc(")", ",\n", k);
    Assoc("),", "\n", k);
    LinesBreak("),", k);
    LinesPlain("),");
  }

  /** One common table expression: its name, its query four spaces in, and its closing
      bracket with what follows. */
  lemma {:induction false} CteByLine(c: Cte, k: string)
    requires Lines(Formatted(c.query)) == FormattedLines(c.query)
    ensures Lines(CteFormatted(c) + k) ==
      Lines(PathText(c.name) + " AS (") + (Shift(FormattedLines(c.query), 4) + Lines(")" + k))
  {
    var block := IndentBlock(Formatted(c.query), 4);
    CteParts(c, block, k);
    IndentedLines(Formatted(c.query), 4);
    LinesBreak(block, ")" + k);
    LinesBreak(PathText(c.name) + " AS (", block + ("\n" + (")" + k)));
  }

  lemma {:induction false} CteParts(c: Cte, block: string, k: string)
    ensures (PathText(c.name) + (Phrase(W1(AS)) + (" (\n" + (block + "\n)")))) + k
         == (PathText(c.name) + " AS (") + ("\n" + (block + ("\n" + (")" + k))))
  {
    var name := PathText(c.name);
    assert Phrase(W1(AS)) + " (\n" == " AS (" + "\n";
    assert "\n)" == "\n" + ")";
    Assoc("\n", ")", k);
    Assoc(block, "\n)", k);
    Assoc(Phrase(W1(AS)), " (\n", block + "\n)");
    Assoc(" AS (", "\n", block + "\n)");
    Assoc3(" AS (", "\n", block + "\n)", k);
    Assoc(name, " AS (" + ("\n" + (block + "\n)")), k);
    Assoc(name, " AS (", "\n" + ((block + "\n)") + k));
  }
}
