/** The multi-line layout: what ToStringFormatted is read as, and when it means the same
    as ToString. */
module Formats {
  import opened Basics
  import opened Tokens
  import opened Lexer
  import opened Syntax
  import opened Text
  import opened Phrases
  import opened Printer
  import opened WellFormed
  import opened Render
  import opened LexPrint
  import opened Balance
  import opened Layout

  // ---- printed tokens all have a reading

  lemma {:induction false} ScanNoBad(ts: Tokens, open: List<Token>)
    requires Scan(ts, open).Some?
    ensures NoBad(ts)
    decreases ts
  {
    if ts.Cons? { ScanNoBad(ts.tail, Step(ts.head, open).value); }
  }

  lemma {:induction false} RelNoBad(m: Strict, r: Rel)
    requires RelOk(m, r)
    ensures NoBad(PrintRel(r, Nil))
  {
    var inside := Cons(RParen, Nil);
    RelScans(m, r, inside, Nil);
    ScanNoBad(PrintRel(r, Nil), inside);
  }

  lemma {:induction false} CtesNoBad(m: Strict, ctes: List<Cte>)
    requires CtesOk(m, ctes)
    ensures NoBad(PrintCtes(ctes, Nil))
  {
    var inside := Cons(RParen, Nil);
    CtesScan(m, ctes, inside, Nil);
    ScanNoBad(PrintCtes(ctes, Nil), inside);
  }

  lemma {:induction false} PathNoBad(p: List<Token>, k: Tokens)
    requires PathOk(p) && NoBad(k)
    ensures NoBad(PathTokens(p, k))
    decreases p
  {
    if p.tail.Cons? { PathNoBad(p.tail, k); }
  }

  // ---- the tokens of the multi-line layout

  /** The tokens of ToStringFormatted: those of ToString, except that the quoted tokens of
      a common table expression are indented along with its lines. */
  function FormattedTokens(r: Rel, k: Tokens): Tokens
    decreases r
  {
    match r
    case With(ctes, main) =>
      Cons(Kw(WITH), App(IndentTokens(CtesFormattedTokens(ctes, Nil), 4), FormattedTokens(main, k)))
    case _ => PrintRel(r, k)
  }

  function CtesFormattedTokens(ctes: List<Cte>, k: Tokens): Tokens
    decreases ctes
  {
    match ctes
    case Nil => k
    case Cons(c, Nil) => CteFormattedTokens(c, k)
    case Cons(c, rest) => CteFormattedTokens(c, Cons(Comma, CtesFormattedTokens(rest, k)))
  }

  function CteFormattedTokens(c: Cte, k: Tokens): Tokens
    decreases c
  {
    PathTokens(c.name, Cons(Kw(AS), Cons(LParen,
      App(IndentTokens(FormattedTokens(c.query, Nil), 4), Cons(RParen, k)))))
  }

  lemma {:induction false} AppNoBad(a: Tokens, b: Tokens)
    requires NoBad(a) && NoBad(b)
    ensures NoBad(App(a, b))
  {
    match a
    case Nil =>
    case Cons(_, rest) => AppNoBad(rest, b);
  }

  lemma {:induction false} FormattedNoBad(m: Strict, r: Rel)
    requires RelOk(m, r)
    ensures NoBad(FormattedTokens(r, Nil))
    decreases r
  {
    match r
    case With(ctes, main) =>
      FormattedNoBad(m, main);
      CtesFormattedNoBad(m, ctes);
      IndentNoBad(CtesFormattedTokens(ctes, Nil), 4);
      AppNoBad(IndentTokens(CtesFormattedTokens(ctes, Nil), 4), FormattedTokens(main, Nil));
    case _ => RelNoBad(m, r);
  }

  lemma {:induction false} CtesFormattedNoBad(m: Strict, ctes: List<Cte>)
    requires CtesOk(m, ctes)
    ensures NoBad(CtesFormattedTokens(ctes, Nil))
    decreases ctes
  {
    if ctes.Cons? {
      var c := ctes.head;
      var k1 := if ctes.tail.Nil? then Nil else Cons(Comma, CtesFormattedTokens(ctes.tail, Nil));
      CtesFormattedNoBad(m, ctes.tail);
      FormattedNoBad(m, c.query);
      var body := IndentTokens(FormattedTokens(c.query, Nil), 4);
      IndentNoBad(FormattedTokens(c.query, Nil), 4);
      AppNoBad(body, Cons(RParen, k1));
      PathNoBad(c.name, Cons(Kw(AS), Cons(LParen, App(body, Cons(RParen, k1)))));
    }
  }

  /** The characters of the multi-line layout are read as those tokens. */
  lemma {:induction false} FormattedLexes(m: Strict, r: Rel, k: string)
    requires RelOk(m, r) && Delimits(k)
    ensures Lex(Formatted(r) + k) == FormattedTokens(r, Lex(k))
    decreases r, 3
  {
    match r
    case Select(_, _, _, _, _, _, _, _, _) => SelectLexes(m, Pretty, r, k);
    case With(_, _) => WithFormattedLexes(m, r, k);
    case _ => RelLexes(m, r, k);
  }

  lemma {:induction false} WithFormattedLexes(m: Strict, r: Rel, k: string)
    requires RelOk(m, r) && r.With? && Delimits(k)
    ensures Lex(Formatted(r) + k) == FormattedTokens(r, Lex(k))
    decreases r, 2
  {
    var block := CtesFormatted(r.ctes);
    var t := "\n" + (Formatted(r.main) + k);
    FormattedLexes(m, r.main, k);
    LexSpace('\n', Formatted(r.main) + k);
    CtesFormattedLex(m, r.ctes, "");
    assert block + "" == block;
    CtesFormattedNoBad(m, r.ctes);
    LexIndentConcat(block, 4, t);
    LexSpace('\n', IndentBlock(block, 4) + t);
    LexWord(WITH, "\n" + (IndentBlock(block, 4) + t));
    Assoc4(KwText(WITH), "\n", IndentBlock(block, 4), "\n" + Formatted(r.main), k);
    Assoc("\n", Formatted(r.main), k);
  }

  lemma {:induction false} CtesFormattedLex(m: Strict, ctes: List<Cte>, k: string)
    requires CtesOk(m, ctes) && Delimits(k)
    ensures Lex(CtesFormatted(ctes) + k) == CtesFormattedTokens(ctes, Lex(k))
    decreases ctes, 5
  {
    match ctes
    case Nil => assert "" + k == k;
    case Cons(c, Nil) => CteFormattedLexes(m, c, k);
    case Cons(c, rest) =>
      var t := CtesFormatted(rest) + k;
      CtesFormattedLex(m, rest, k);
      LexSpace('\n', t);
      LexOne(',', "\n" + t);
      assert ",\n" == "," + "\n";
      Assoc(",", "\n", t);
      CteFormattedLexes(m, c, ",\n" + t);
      Assoc3(CteFormatted(c), ",\n", CtesFormatted(rest), k);
  }

  lemma {:induction false} CteFormattedLexes(m: Strict, c: Cte, k: string)
    requires PathOk(c.name) && IsQuery(c.query) && RelOk(m, c.query)
    ensures Lex(CteFormatted(c) + k) == CteFormattedTokens(c, Lex(k))
    decreases c, 4
  {
    var body := Formatted(c.query);
    var t := "\n)" + k;
    FormattedLexes(m, c.query, "");
    assert body + "" == body;
    FormattedNoBad(m, c.query);
    LexOne(')', k);
    LexSpace('\n', ")" + k);
    assert "\n)" == "\n" + ")";
    Assoc("\n", ")", k);
    LexIndentConcat(body, 4, t);
    CteTextLexes(c, IndentBlock(body, 4), t);
    Assoc4(PathText(c.name), Phrase(W1(AS)), " (\n", IndentBlock(body, 4) + "\n)", k);
    Assoc(IndentBlock(body, 4), "\n)", k);
  }

  lemma {:induction false} CteTextLexes(c: Cte, block: string, k: string)
    requires PathOk(c.name)
    ensures Lex(PathText(c.name) + (Phrase(W1(AS)) + (" (\n" + (block + k))))
         == PathTokens(c.name, Cons(Kw(AS), Cons(LParen, Lex(block + k))))
  {
    var t := block + k;
    LexSpace('\n', t);
    LexOne('(', "\n" + t);
    LexSpace(' ', "(" + ("\n" + t));
    assert " (\n" == " " + ("(" + "\n");
    Assoc3(" ", "(", "\n", t);
    LexPhrase(W1(AS), " (\n" + t);
    LexPath(c.name, Phrase(W1(AS)) + (" (\n" + t));
  }

  // ---- when the two layouts agree

  /** The newlines inside the tokens of common table expressions: the only lines the
      multi-line layout indents that are not its own. */
  function CteNewlines(r: Rel): nat
    decreases r
  {
    match r
    case With(ctes, main) => CtesNewlines(ctes) + CteNewlines(main)
    case _ => 0
  }

  function CtesNewlines(ctes: List<Cte>): nat
    decreases ctes
  {
    match ctes
    case Nil => 0
    case Cons(c, rest) => InnerNewlines(PrintRel(c.query, Nil)) + CtesNewlines(rest)
  }

  lemma {:induction false} AppMeasures(a: Tokens, b: Tokens)
    ensures InnerLength(App(a, b)) == InnerLength(a) + InnerLength(b)
    ensures InnerNewlines(App(a, b)) == InnerNewlines(a) + InnerNewlines(b)
  {
    match a
    case Nil =>
    case Cons(_, rest) => AppMeasures(rest, b);
  }

  lemma {:induction false} NewlinesIndent(v: string, n: nat)
    ensures Newlines(IndentTail(v, n)) == Newlines(v)
  {
    if v != "" {
      NewlinesIndent(v[1..], n);
      var t := IndentTail(v[1..], n);
      if v[0] == '\n' {
        NewlinesSpaces(n, t);
        Assoc(['\n'], Spaces(n), t);
        assert (['\n'] + (Spaces(n) + t))[1..] == Spaces(n) + t;
      } else {
        assert ([v[0]] + t)[1..] == t;
      }
    }
  }

  lemma {:induction false} NewlinesSpaces(n: nat, t: string)
    ensures Newlines(Spaces(n) + t) == Newlines(t)
  {
    if n == 0 {
      assert Spaces(0) + t == t;
    } else {
      NewlinesSpaces(n - 1, t);
      assert (Spaces(n) + t)[1..] == Spaces(n - 1) + t;
    }
  }

  lemma {:induction false} IndentMeasures(ts: Tokens, n: nat)
    ensures InnerLength(IndentTokens(ts, n)) == InnerLength(ts) + InnerNewlines(ts) * n
    ensures InnerNewlines(IndentTokens(ts, n)) == InnerNewlines(ts)
  {
    IndentLength(ts, n);
    match ts
    case Nil =>
    case Cons(t, rest) =>
      IndentMeasures(rest, n);
      match t {
        case Str(v) => NewlinesIndent(v, n);
        case Quoted(v) => NewlinesIndent(v, n);
        case Bad(s) => NewlinesIndent(s, n);
        case _ =>
      }
  }

  lemma {:induction false} PlainPathMeasures(p: List<Token>, k: Tokens)
    requires PlainPath(p)
    ensures InnerLength(PathTokens(p, k)) == InnerLength(k)
    ensures InnerNewlines(PathTokens(p, k)) == InnerNewlines(k)
    decreases p
  {
    if p.tail.Cons? { PlainPathMeasures(p.tail, k); }
  }

  /** A printed table value does not depend on what follows it. */
  lemma {:induction false} PrintRelApp(m: Strict, r: Rel, s: string)
    requires RelOk(m, r) && (s == "" || s[0] == ' ' || s[0] == '\n')
    ensures PrintRel(r, Lex(s)) == App(PrintRel(r, Nil), Lex(s))
  {
    RelLexes(m, r, s);
    RelLexes(m, r, "");
    assert RelText(r) + "" == RelText(r);
    RelNoBad(m, r);
    LexConcat(RelText(r), s);
  }

  lemma {:induction false} PrintCtesApp(m: Strict, ctes: List<Cte>, s: string)
    requires CtesOk(m, ctes) && (s == "" || s[0] == ' ' || s[0] == '\n')
    ensures PrintCtes(ctes, Lex(s)) == App(PrintCtes(ctes, Nil), Lex(s))
  {
    CtesLex(m, ctes, s);
    CtesLex(m, ctes, "");
    assert CtesText(ctes) + "" == CtesText(ctes);
    CtesNoBad(m, ctes);
    LexConcat(CtesText(ctes), s);
  }

  lemma {:induction false} PrintClosed(m: Strict, q: Rel, s: string)
    requires RelOk(m, q)
    ensures PrintRel(q, Cons(RParen, Lex(s))) == App(PrintRel(q, Nil), Cons(RParen, Lex(s)))
  {
    LexOne(')', s);
    LexSpace('\n', ")" + s);
    PrintRelApp(m, q, "\n" + (")" + s));
  }

  /** Both layouts have the same newlines inside tokens, and the multi-line one is longer
      by at least four characters for each of them inside a common table expression. */
  lemma {:induction false} FormattedMeasures(m: Strict, r: Rel, s: string)
    requires RelOk(m, r) && (s == "" || s[0] == ' ' || s[0] == '\n')
    ensures InnerNewlines(FormattedTokens(r, Lex(s))) == InnerNewlines(PrintRel(r, Lex(s)))
    ensures InnerLength(FormattedTokens(r, Lex(s))) >= InnerLength(PrintRel(r, Lex(s))) + 4 * CteNewlines(r)
    decreases r, 3
  {
    match r
    case With(ctes, main) =>
      var block := CtesFormattedTokens(ctes, Nil);
      FormattedMeasures(m, main, s);
      CtesMeasures(m, ctes, "");
      IndentMeasures(block, 4);
      AppMeasures(IndentTokens(block, 4), FormattedTokens(main, Lex(s)));
      WithMeasures(m, ctes, main, s);
    case _ =>
  }

  lemma {:induction false} WithMeasures(m: Strict, ctes: List<Cte>, main: Rel, s: string)
    requires CtesOk(m, ctes) && RelOk(m, main) && (s == "" || s[0] == ' ' || s[0] == '\n')
    ensures var ts := PrintCtes(ctes, PrintRel(main, Lex(s)));
            InnerNewlines(ts) == InnerNewlines(PrintCtes(ctes, Nil)) + InnerNewlines(PrintRel(main, Lex(s))) &&
            InnerLength(ts) == InnerLength(PrintCtes(ctes, Nil)) + InnerLength(PrintRel(main, Lex(s)))
  {
    RelLexes(m, main, s);
    LexSpace(' ', RelText(main) + s);
    PrintCtesApp(m, ctes, " " + (RelText(main) + s));
    AppMeasures(PrintCtes(ctes, Nil), PrintRel(main, Lex(s)));
  }

  lemma {:induction false} CtesMeasures(m: Strict, ctes: List<Cte>, s: string)
    requires CtesOk(m, ctes) && Delimits(s)
    ensures InnerNewlines(CtesFormattedTokens(ctes, Lex(s))) == CtesNewlines(ctes) + InnerNewlines(Lex(s))
    ensures InnerNewlines(PrintCtes(ctes, Lex(s))) == CtesNewlines(ctes) + InnerNewlines(Lex(s))
    ensures InnerLength(CtesFormattedTokens(ctes, Lex(s))) >= InnerLength(PrintCtes(ctes, Lex(s)))
    decreases ctes, 5
  {
    if ctes.Cons? {
      var c, rest := ctes.head, ctes.tail;
      if rest.Nil? {
        CteMeasures(m, c, s, s);
      } else {
        CtesMeasures(m, rest, s);
        CommaMeasures(CtesFormattedTokens(rest, Lex(s)));
        CommaMeasures(PrintCtes(rest, Lex(s)));
        CtesTails(m, rest, s);
        CteMeasures(m, c, ", " + (CtesText(rest) + s), ",\n" + (CtesFormatted(rest) + s));
      }
    }
  }

  lemma {:induction false} CommaMeasures(k: Tokens)
    ensures InnerNewlines(Cons(Comma, k)) == InnerNewlines(k) && InnerLength(Cons(Comma, k)) == InnerLength(k)
  {
  }

  lemma {:induction false} CtesTails(m: Strict, rest: List<Cte>, s: string)
    requires CtesOk(m, rest) && Delimits(s)
    ensures Lex(", " + (CtesText(rest) + s)) == Cons(Comma, PrintCtes(rest, Lex(s)))
    ensures Lex(",\n" + (CtesFormatted(rest) + s)) == Cons(Comma, CtesFormattedTokens(rest, Lex(s)))
  {
    CtesLex(m, rest, s);
    LexComma(CtesText(rest) + s);
    CtesFormattedLex(m, rest, s);
    LexFormattedComma(CtesFormatted(rest) + s);
  }

  lemma {:induction false} LexFormattedComma(k: string)
    ensures Lex(",\n" + k) == Cons(Comma, Lex(k))
  {
    LexSpace('\n', k);
    LexOne(',', "\n" + k);
    assert ",\n" == "," + "\n";
    Assoc(",", "\n", k);
  }

  lemma {:induction false} CteMeasures(m: Strict, c: Cte, one: string, two: string)
    requires PlainPath(c.name) && IsQuery(c.query) && RelOk(m, c.query)
    ensures var printed := PathTokens(c.name, Cons(Kw(AS), Cons(LParen, PrintRel(c.query, Cons(RParen, Lex(one))))));
            var formatted := CteFormattedTokens(c, Lex(two));
            var n := InnerNewlines(PrintRel(c.query, Nil));
            InnerNewlines(printed) == n + InnerNewlines(Lex(one)) &&
            InnerNewlines(formatted) == n + InnerNewlines(Lex(two)) &&
            InnerLength(formatted) - InnerLength(Lex(two)) >= InnerLength(printed) - InnerLength(Lex(one))
    decreases c, 4
  {
    var q := c.query;
    var body := FormattedTokens(q, Nil);
    FormattedMeasures(m, q, "");
    IndentMeasures(body, 4);
    CteShell(c.name, IndentTokens(body, 4), Lex(two));
    PrintClosed(m, q, one);
    CteShell(c.name, PrintRel(q, Nil), Lex(one));
  }

  lemma {:induction false} CteShell(name: List<Token>, body: Tokens, k: Tokens)
    requires PlainPath(name)
    ensures var ts := PathTokens(name, Cons(Kw(AS), Cons(LParen, App(body, Cons(RParen, k)))));
            InnerNewlines(ts) == InnerNewlines(body) + InnerNewlines(k) &&
            InnerLength(ts) == InnerLength(body) + InnerLength(k)
  {
    AppMeasures(body, Cons(RParen, k));
    PlainPathMeasures(name, Cons(Kw(AS), Cons(LParen, App(body, Cons(RParen, k)))));
  }

  lemma {:induction false} FormattedSame(m: Strict, r: Rel, s: string)
    requires RelOk(m, r) && (s == "" || s[0] == ' ' || s[0] == '\n') && CteNewlines(r) == 0
    ensures FormattedTokens(r, Lex(s)) == PrintRel(r, Lex(s))
    decreases r, 3
  {
    match r
    case With(ctes, main) =>
      FormattedSame(m, main, s);
      CtesFormattedSame(m, ctes, "");
      CtesMeasures(m, ctes, "");
      IndentNothing(CtesFormattedTokens(ctes, Nil), 4);
      RelLexes(m, main, s);
      LexSpace(' ', RelText(main) + s);
      PrintCtesApp(m, ctes, " " + (RelText(main) + s));
    case _ =>
  }

  lemma {:induction false} CtesFormattedSame(m: Strict, ctes: List<Cte>, s: string)
    requires CtesOk(m, ctes) && Delimits(s) && CtesNewlines(ctes) == 0
    ensures CtesFormattedTokens(ctes, Lex(s)) == PrintCtes(ctes, Lex(s))
    decreases ctes, 5
  {
    if ctes.Cons? {
      var c, rest := ctes.head, ctes.tail;
      var one := if rest.Nil? then s else ", " + (CtesText(rest) + s);
      CtesFormattedSame(m, rest, s);
      if rest.Cons? {
        CtesLex(m, rest, s);
        LexComma(CtesText(rest) + s);
      }
      FormattedMeasures(m, c.query, "");
      assert CteNewlines(c.query) == 0 by { NewlinesWithin(m, c.query); }
      FormattedSame(m, c.query, "");
      IndentNothing(FormattedTokens(c.query, Nil), 4);
      PrintClosed(m, c.query, one);
    }
  }

  /** The newlines inside nested common table expressions are newlines of the whole. */
  lemma {:induction false} NewlinesWithin(m: Strict, r: Rel)
    requires RelOk(m, r)
    ensures CteNewlines(r) <= InnerNewlines(PrintRel(r, Nil))
    decreases r
  {
    match r
    case With(ctes, main) =>
      NewlinesWithin(m, main);
      CtesMeasures(m, ctes, "");
      RelLexes(m, main, "");
      LexSpace(' ', RelText(main) + "");
      PrintCtesApp(m, ctes, " " + (RelText(main) + ""));
      AppMeasures(PrintCtes(ctes, Nil), PrintRel(main, Nil));
    case _ =>
  }

  /** ToStringFormatted reads as ToString exactly when no token inside a common table
      expression spans several lines. */
  lemma {:induction false} LayoutsAgree(m: Strict, r: Rel)
    requires RelOk(m, r)
    ensures Lex(Formatted(r)) == Lex(RelText(r)) <==> CteNewlines(r) == 0
  {
    FormattedLexes(m, r, "");
    RelLexes(m, r, "");
    assert Formatted(r) + "" == Formatted(r) && RelText(r) + "" == RelText(r);
    FormattedMeasures(m, r, "");
    if CteNewlines(r) == 0 {
      FormattedSame(m, r, "");
    }
  }
}
