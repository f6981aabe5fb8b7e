/** What the multi-line text of a statement means: the statement itself, but for the line
    breaks inside quoted tokens of its common table expressions, which are indented. */
module FormattedTrip {
  import opened Basics
  import opened Tokens
  import opened Lexer
  import opened Syntax
  import opened Text
  import opened Printer
  import opened Grammar
  import opened WellFormed
  import opened ReadBack
  import opened Render
  import opened LexPrint
  import L = Layout
  import opened Formats
  import opened Indented
  import opened Lengths

  /** The statement the multi-line text of `r` spells. */
  function FormattedRel(r: Rel): Rel
    decreases r
  {
    match r
    case With(ctes, main) => With(ShiftCtes(FormattedCtes(ctes), 4), FormattedRel(main))
    case _ => r
  }

  function FormattedCtes(ctes: List<Cte>): List<Cte>
    decreases ctes
  {
    match ctes
    case Nil => Nil
    case Cons(c, rest) => Cons(Cte(c.name, ShiftRel(FormattedRel(c.query), 4)), FormattedCtes(rest))
  }

  lemma {:induction false} FormattedOk(m: Strict, r: Rel)
    requires RelOk(m, r)
    ensures RelOk(m, FormattedRel(r)) && IsQuery(FormattedRel(r)) == IsQuery(r)
    decreases r
  {
    match r
    case With(ctes, main) =>
      FormattedCtesOk(m, ctes);
      ShiftCtesOk(m, FormattedCtes(ctes), 4);
      FormattedOk(m, main);
    case _ =>
  }

  lemma {:induction false} FormattedCtesOk(m: Strict, ctes: List<Cte>)
    requires CtesOk(m, ctes)
    ensures CtesOk(m, FormattedCtes(ctes)) && (FormattedCtes(ctes).Nil? <==> ctes.Nil?)
    decreases ctes
  {
    if ctes.Cons? {
      FormattedOk(m, ctes.head.query);
      ShiftRelOk(m, FormattedRel(ctes.head.query), 4);
      FormattedCtesOk(m, ctes.tail);
    }
  }

  lemma {:induction false} FormattedTree(m: Strict, r: Rel, s: string)
    requires RelOk(m, r) && (s == "" || s[0] == ' ' || s[0] == '\n')
    ensures FormattedTokens(r, Lex(s)) == PrintRel(FormattedRel(r), Lex(s))
    decreases r, 3
  {
    match r
    case With(ctes, main) =>
      var block := FormattedCtes(ctes);
      var shifted := ShiftCtes(block, 4);
      var t := RelText(FormattedRel(main)) + s;
      FormattedCtesOk(m, ctes);
      ShiftCtesOk(m, block, 4);
      FormattedOk(m, main);
      FormattedCtesTree(m, ctes, "");
      CtesShift(block, 4, Nil);
      FormattedTree(m, main, s);
      RelLexes(m, FormattedRel(main), s);
      LexSpace(' ', t);
      PrintCtesApp(m, shifted, [' '] + t);
    case _ =>
  }

  lemma {:induction false} FormattedCtesTree(m: Strict, ctes: List<Cte>, s: string)
    requires CtesOk(m, ctes) && Delimits(s)
    ensures CtesFormattedTokens(ctes, Lex(s)) == PrintCtes(FormattedCtes(ctes), Lex(s))
    decreases ctes, 5
  {
    if ctes.Cons? {
      if ctes.tail.Nil? {
        FormattedCteTree(m, ctes.head, s);
      } else {
        FormattedCtesTree(m, ctes.tail, s);
        CtesFormattedLex(m, ctes.tail, s);
        LexFormattedComma(CtesFormatted(ctes.tail) + s);
        FormattedCteTree(m, ctes.head, ",\n" + (CtesFormatted(ctes.tail) + s));
      }
    }
  }

  lemma {:induction false} FormattedCteTree(m: Strict, c: Cte, s: string)
    requires PlainPath(c.name) && IsQuery(c.query) && RelOk(m, c.query)
    ensures var q := ShiftRel(FormattedRel(c.query), 4);
            CteFormattedTokens(c, Lex(s)) ==
              PathTokens(c.name, Cons(Kw(AS), Cons(LParen, PrintRel(q, Cons(RParen, Lex(s))))))
    decreases c, 4
  {
    var q := FormattedRel(c.query);
    FormattedOk(m, c.query);
    ShiftRelOk(m, q, 4);
    FormattedTree(m, c.query, "");
    RelShifts(q, 4, Nil);
    PrintClosed(m, ShiftRel(q, 4), s);
  }

  /** The formatted text of every statement reads as one statement, the same as ToString
      exactly when no token inside a common table expression spans several lines. */
  lemma {:induction false} FormattedExact(d: Dialect, r: Rel)
    requires d.Valid() && RelOk(Reading(d), r)
    ensures ParseRel(d, Lex(Formatted(r))) == Some(RelMeaning(FormattedRel(r)))
    ensures ParseRel(d, Lex(Formatted(r))) == Some(RelMeaning(r)) <==> CteNewlines(r) == 0
  {
    var m := Reading(d);
    var q := FormattedRel(r);
    FormattedOk(m, r);
    FormattedLexes(m, r, "");
    assert Formatted(r) + "" == Formatted(r);
    FormattedTree(m, r, "");
    RelReads(d, q, Nil);
    if CteNewlines(r) == 0 {
      FormattedSame(m, r, "");
      RelReads(d, r, Nil);
    } else if RelMeaning(q) == RelMeaning(r) {
      FormattedMeasures(m, r, "");
      RelEven(m, q, Nil, Nil);
      RelEven(m, r, Nil, Nil);
    }
  }

  /** SELECT of one string literal. */
  function Literal(value: string, table: Rel): Rel {
    Select(Plain, Cons(Item(Leaf(Str(value)), None), Nil), table, None, None, None, None, None, None)
  }

  lemma {:induction false} LiteralOk(m: Strict, value: string, table: Rel)
    requires table.Table? && PlainPath(table.path)
    ensures RelOk(m, Literal(value, table)) && IsQuery(Literal(value, table))
    ensures RelMeaning(Literal(value, table)) == Literal(value, table)
  {
    var item := Item(Leaf(Str(value)), None);
    assert ExprOk(m, item.e);
    assert ItemsOk(m, Cons(item, Nil));
    assert ItemsMeaning(Cons(item, Nil)) == Cons(Item(Meaning(item.e), None), ItemsMeaning(Nil));
  }

  lemma {:induction false} LiteralShift(value: string, table: Rel)
    requires table.Table? && PlainPath(table.path)
    ensures ShiftRel(ShiftRel(Literal(value, table), 4), 4) == Literal(IndentTail(value, 8), table)
  {
    ShiftPathOk(table.path, 4);
    LiteralShiftOnce(value, table);
    LiteralShiftOnce(IndentTail(value, 4), table);
    IndentTailTwice(value, 4, 4);
  }

  lemma {:induction false} LiteralShiftOnce(value: string, table: Rel)
    requires table.Table? && PlainPath(table.path)
    ensures ShiftRel(Literal(value, table), 4) == Literal(IndentTail(value, 4), table)
  {
    ShiftPathOk(table.path, 4);
    var item := Item(Leaf(Str(value)), None);
    assert ShiftItems(Cons(item, Nil), 4) == Cons(Item(ShiftExpr(item.e, 4), None), ShiftItems(Nil, 4));
  }

  /** The same as a common table expression of another such statement. */
  function WithLiteral(name: List<Token>, value: string, table: Rel): Rel {
    With(Cons(Cte(name, Literal(value, table)), Nil), Literal("x", table))
  }

  lemma {:induction false} WithLiteralOk(m: Strict, name: List<Token>, value: string, table: Rel)
    requires table.Table? && PlainPath(table.path) && PlainPath(name)
    ensures RelOk(m, WithLiteral(name, value, table))
    ensures RelMeaning(WithLiteral(name, value, table)) == WithLiteral(name, value, table)
  {
    var c := Cte(name, Literal(value, table));
    LiteralOk(m, value, table);
    LiteralOk(m, "x", table);
    assert CtesOk(m, Cons(c, Nil));
    assert CtesMeaning(Cons(c, Nil)) == Cons(Cte(name, RelMeaning(c.query)), CtesMeaning(Nil));
  }

  lemma {:induction false} WithLiteralFormatted(name: List<Token>, value: string, table: Rel)
    requires table.Table? && PlainPath(table.path) && PlainPath(name)
    ensures FormattedRel(WithLiteral(name, value, table)) == WithLiteral(name, IndentTail(value, 8), table)
  {
    var body := Literal(value, table);
    LiteralShift(value, table);
    ShiftPathOk(name, 4);
    var c := Cte(name, ShiftRel(body, 4));
    assert FormattedCtes(Nil) == Nil && FormattedRel(body) == body;
    assert ShiftCtes(Cons(c, Nil), 4) == Cons(Cte(L.IndentTokens(name, 4), ShiftRel(c.query, 4)), ShiftCtes(Nil, 4));
  }

  /** A literal in a common table expression: the formatted text is read as a statement whose
      literal has eight more spaces after each line break. */
  lemma {:induction false} FormattedChangesLiteral(d: Dialect, name: List<Token>, value: string, table: Rel)
    requires d.Valid() && table.Table? && PlainPath(table.path) && PlainPath(name)
    ensures ParseRel(d, Lex(Formatted(WithLiteral(name, value, table))))
         == Some(WithLiteral(name, IndentTail(value, 8), table))
  {
    WithLiteralOk(Reading(d), name, value, table);
    WithLiteralOk(Reading(d), name, IndentTail(value, 8), table);
    WithLiteralFormatted(name, value, table);
    FormattedExact(d, WithLiteral(name, value, table));
  }
}
