/** src/with.cpp: common table expressions, whose one-line and indented texts are kept
    side by side while they are added. */
module WithBuilding {
  import opened Basics
  import opened Tokens
  import opened Lexer
  import opened Syntax
  import opened Text
  import opened Phrases
  import opened Grammar
  import opened WellFormed
  import opened Render
  import opened Identifier
  import Formats
  import Lines
  import opened RoundTrip

  /** One call of With: a name and a query. */
  datatype Call = Added(name: string, query: Rel)

  function CteOf(c: Call): Cte {
    Cte(PathOf(PartsOf(c.name, 0)), c.query)
  }

  function NamesOf(ctes: List<Cte>): seq<string> {
    match ctes
    case Nil => []
    case Cons(c, rest) => [PathText(c.name)] + NamesOf(rest)
  }

  /** One call; None where it throws. */
  function Apply(ctes: List<Cte>, c: Call): Option<List<Cte>> {
    if AcceptsFrom(c.name, 0) && c.name !in NamesOf(ctes) then Some(Snoc(ctes, CteOf(c))) else None
  }

  function Run(ctes: List<Cte>, calls: seq<Call>): Option<List<Cte>>
    decreases |calls|
  {
    if calls == [] then Some(ctes)
    else match Apply(ctes, calls[0])
         case None => None
         case Some(more) => Run(more, calls[1..])
  }

  // ---- the two texts grow at their ends

  lemma {:induction false} CtesTextSnoc(ctes: List<Cte>, c: Cte)
    requires ctes.Cons?
    ensures CtesText(Snoc(ctes, c)) == CtesText(ctes) + (", " + CteText(c))
  {
    var more := Snoc(ctes.tail, c);
    assert Snoc(ctes, c) == Cons(ctes.head, more) && more.Cons?;
    if ctes.tail.Nil? {
      assert more == Cons(c, Nil);
    } else {
      CtesTextSnoc(ctes.tail, c);
      Assoc3(CteText(ctes.head), ", ", CtesText(ctes.tail), ", " + CteText(c));
    }
  }

  lemma {:induction false} CtesFormattedSnoc(ctes: List<Cte>, c: Cte)
    requires ctes.Cons?
    ensures CtesFormatted(Snoc(ctes, c)) == CtesFormatted(ctes) + (",\n" + CteFormatted(c))
  {
    var more := Snoc(ctes.tail, c);
    assert Snoc(ctes, c) == Cons(ctes.head, more) && more.Cons?;
    if ctes.tail.Nil? {
      assert more == Cons(c, Nil);
    } else {
      CtesFormattedSnoc(ctes.tail, c);
      Assoc3(CteFormatted(ctes.head), ",\n", CtesFormatted(ctes.tail), ",\n" + CteFormatted(c));
    }
  }

  lemma {:induction false} NamesSnoc(ctes: List<Cte>, c: Cte)
    ensures NamesOf(Snoc(ctes, c)) == NamesOf(ctes) + [PathText(c.name)]
  {
    if ctes.Cons? { NamesSnoc(ctes.tail, c); }
  }

  lemma {:induction false} NameKept(name: string)
    requires AcceptsFrom(name, 0)
    ensures PathText(PathOf(PartsOf(name, 0))) == name
  {
    PartsNamed(name, 0);
    PathOfText(PartsOf(name, 0));
    assert name[0..] == name;
  }

  lemma {:induction false} CteWords()
    ensures Phrase(W1(AS)) + " " == " AS " && Phrase(W1(AS)) + " (\n" == " AS (\n"
  {
  }

  /** `name AS query`, as both builders write it. */
  lemma {:induction false} CteTexts(c: Call)
    requires AcceptsFrom(c.name, 0)
    ensures c.name + " AS " + Bracketed(c.query) == CteText(CteOf(c))
    ensures c.name + " AS (\n" + IndentBlock(Formatted(c.query), 4) + "\n)" == CteFormatted(CteOf(c))
  {
    var body, block := Bracketed(c.query), IndentBlock(Formatted(c.query), 4);
    NameKept(c.name);
    CteWords();
    Assoc(Phrase(W1(AS)), " ", body);
    Assoc(c.name, " AS ", body);
    Assoc(c.name, " AS (\n", block);
    Assoc(c.name, " AS (\n" + block, "\n)");
    Assoc(" AS (\n", block, "\n)");
    Assoc(Phrase(W1(AS)), " (\n", block + "\n)");
  }

  /** One more common table expression in both texts and in the names. */
  lemma {:induction false} AddedTexts(list: List<Cte>, c: Call)
    requires list.Cons? && AcceptsFrom(c.name, 0)
    ensures var more := Snoc(list, CteOf(c));
            CtesText(more) == CtesText(list) + (", " + (c.name + " AS " + Bracketed(c.query))) &&
            CtesFormatted(more) ==
              CtesFormatted(list) + (",\n" + (c.name + " AS (\n" + IndentBlock(Formatted(c.query), 4) + "\n)")) &&
            NamesOf(more) == NamesOf(list) + [c.name] && Lines.Lines(CtesFormatted(more)) == Lines.CteLines(more)
  {
    CteTexts(c);
    NameKept(c.name);
    CtesTextSnoc(list, CteOf(c));
    CtesFormattedSnoc(list, CteOf(c));
    NamesSnoc(list, CteOf(c));
    Lines.CtesByLine(Snoc(list, CteOf(c)));
  }

  /** The rendered parts of a finished WITH query. */
  datatype WithQuery = WithQuery(ctes: string, main: string, ctesFormatted: string, mainFormatted: string)

  function QueryText(w: WithQuery): string {
    "WITH " + w.ctes + " " + w.main
  }

  function QueryFormatted(w: WithQuery): string {
    "WITH\n" + IndentBlock(w.ctesFormatted, 4) + "\n" + w.mainFormatted
  }

  lemma {:induction false} WithWords()
    ensures KwText(WITH) + " " == "WITH " && KwText(WITH) + "\n" == "WITH\n"
  {
  }

  lemma {:induction false} QueryTexts(ctes: List<Cte>, main: Rel)
    ensures var w := WithQuery(CtesText(ctes), RelText(main), CtesFormatted(ctes), Formatted(main));
            QueryText(w) == RelText(With(ctes, main)) && QueryFormatted(w) == Formatted(With(ctes, main))
  {
    var one, two := CtesText(ctes), IndentBlock(CtesFormatted(ctes), 4);
    WithWords();
    Assoc("WITH ", one, " ");
    Assoc("WITH ", one + " ", RelText(main));
    Assoc(one, " ", RelText(main));
    Assoc(KwText(WITH), " ", one + (" " + RelText(main)));
    Assoc("WITH\n", two, "\n");
    Assoc("WITH\n", two + "\n", Formatted(main));
    Assoc(two, "\n", Formatted(main));
    Assoc(KwText(WITH), "\n", two + ("\n" + Formatted(main)));
  }

  class WithBuilder {
    var ctes: string
    var ctesFormatted: string
    var cteNames: seq<string>
    ghost var list: List<Cte>

    ghost predicate Valid()
      reads this
    {
      list.Cons? && ctes == CtesText(list) && ctesFormatted == CtesFormatted(list) && cteNames == NamesOf(list) &&
      forall i, j :: 0 <= i < j < |cteNames| ==> cteNames[i] != cteNames[j]
    }

    constructor (name: string, query: Rel)
      requires AcceptsFrom(name, 0)
      ensures Valid() && Apply(Nil, Added(name, query)) == Some(list)
      ensures Lines.Lines(ctesFormatted) == Lines.CteLines(list)
    {
      var block := IndentBlockLoop(Formatted(query), 4);
      CteTexts(Added(name, query));
      NameKept(name);
      ctes := name + " AS " + Bracketed(query);
      ctesFormatted := name + " AS (\n" + block + "\n)";
      cteNames := [name];
      list := Cons(CteOf(Added(name, query)), Nil);
      Lines.CtesByLine(Cons(CteOf(Added(name, query)), Nil));
    }

    method With(name: string, query: Rel) returns (ok: bool)
      requires Valid()
      modifies this
      ensures Valid() && ok == Apply(old(list), Added(name, query)).Some?
      ensures list == if ok then Apply(old(list), Added(name, query)).value else old(list)
      ensures Lines.Lines(ctesFormatted) == Lines.CteLines(list)
    {
      Lines.CtesByLine(list);
      AcceptsExact(name);
      ok := ValidateIdentifier(name);
      if !ok || name in cteNames {
        return false;
      }
      var block := IndentBlockLoop(Formatted(query), 4);
      AddedTexts(list, Added(name, query));
      ctes := ctes + (", " + (name + " AS " + Bracketed(query)));
      ctesFormatted := ctesFormatted + (",\n" + (name + " AS (\n" + block + "\n)"));
      cteNames := cteNames + [name];
      list := Snoc(list, CteOf(Added(name, query)));
    }

    /** Main of the C++ class: both texts of the finished query are those of the statement. */
    method Finish(query: Rel) returns (w: WithQuery)
      requires Valid()
      ensures QueryText(w) == RelText(Syntax.With(list, query))
      ensures QueryFormatted(w) == Formatted(Syntax.With(list, query))
      ensures Lines.Lines(QueryFormatted(w)) ==
        ["WITH"] + (Lines.Shift(Lines.CteLines(list), 4) + Lines.FormattedLines(query))
    {
      w := WithQuery(ctes, RelText(query), ctesFormatted, Formatted(query));
      Lines.FormattedByLine(Syntax.With(list, query));
      QueryTexts(list, query);
    }
  }

  /** The free function With, which starts a builder; null where it throws. */
  method StartWith(name: string, query: Rel) returns (b: WithBuilder?)
    ensures b == null <==> Apply(Nil, Added(name, query)) == None
    ensures b != null ==> fresh(b) && b.Valid() && Apply(Nil, Added(name, query)) == Some(b.list)
  {
    AcceptsExact(name);
    var ok := ValidateIdentifier(name);
    b := null;
    if ok { b := new WithBuilder(name, query); }
  }

  // ---- whole runs

  function CtesOf(calls: seq<Call>): List<Cte> {
    if calls == [] then Nil else Cons(CteOf(calls[0]), CtesOf(calls[1..]))
  }

  predicate AllAccepted(calls: seq<Call>) {
    forall i :: 0 <= i < |calls| ==> AcceptsFrom(calls[i].name, 0)
  }

  /** No two calls use the same name, nor one that is taken already. */
  predicate FreshNames(taken: seq<string>, calls: seq<Call>) {
    (forall i :: 0 <= i < |calls| ==> calls[i].name !in taken) &&
    forall i, j :: 0 <= i < j < |calls| ==> calls[i].name != calls[j].name
  }

  lemma {:induction false} FreshCons(taken: seq<string>, c: Call, rest: seq<Call>)
    ensures FreshNames(taken, [c] + rest) <==> c.name !in taken && FreshNames(taken + [c.name], rest)
  {
    var calls := [c] + rest;
    assert forall i :: 0 <= i < |rest| ==> rest[i] == calls[i + 1];
    if FreshNames(taken, calls) {
      assert calls[0] == c;
      forall i | 0 <= i < |rest| ensures rest[i].name !in taken + [c.name] {
        assert calls[i + 1].name !in taken && calls[0].name != calls[i + 1].name;
      }
      forall i, j | 0 <= i < j < |rest| ensures rest[i].name != rest[j].name {
        assert calls[i + 1].name != calls[j + 1].name;
      }
    }
    if c.name !in taken && FreshNames(taken + [c.name], rest) {
      forall i | 0 <= i < |calls| ensures calls[i].name !in taken {
        if i > 0 { assert rest[i - 1].name !in taken + [c.name]; }
      }
      forall i, j | 0 <= i < j < |calls| ensures calls[i].name != calls[j].name {
        assert rest[j - 1].name !in taken + [c.name];
        if i > 0 { assert rest[i - 1].name != rest[j - 1].name; }
      }
    }
  }

  /** A run throws exactly when a name is malformed or used twice, and otherwise keeps every
      pair in the order of the calls. */
  lemma {:induction false} RunExact(ctes: List<Cte>, calls: seq<Call>)
    ensures Run(ctes, calls).Some? <==> AllAccepted(calls) && FreshNames(NamesOf(ctes), calls)
    ensures Run(ctes, calls).Some? ==> Run(ctes, calls).value == App(ctes, CtesOf(calls))
    decreases |calls|
  {
    if calls == [] {
      AppNil(ctes);
    } else {
      var c, rest := calls[0], calls[1..];
      assert calls == [c] + rest;
      FreshCons(NamesOf(ctes), c, rest);
      assert AllAccepted(calls) <==> AcceptsFrom(c.name, 0) && AllAccepted(rest) by {
        assert forall i :: 0 <= i < |rest| ==> rest[i] == calls[i + 1];
        if AcceptsFrom(c.name, 0) && AllAccepted(rest) {
          forall i | 0 <= i < |calls| ensures AcceptsFrom(calls[i].name, 0) {
            if i > 0 { assert AcceptsFrom(rest[i - 1].name, 0); }
          }
        }
      }
      if Apply(ctes, c).Some? {
        NameKept(c.name);
        NamesSnoc(ctes, CteOf(c));
        RunExact(Snoc(ctes, CteOf(c)), rest);
        AppAssoc(ctes, Cons(CteOf(c), Nil), CtesOf(rest));
      }
    }
  }

  /** The one-line text of a run reads back as the calls, in order, and the main query; the
      indented text reads the same exactly when no token of a body spans lines. */
  lemma {:induction false} WithRoundTrip(d: Dialect, calls: seq<Call>, main: Rel)
    requires d.Valid() && AllAccepted(calls) && FreshNames([], calls)
    requires RelOk(Reading(d), With(CtesOf(calls), main))
    ensures Run(Nil, calls) == Some(CtesOf(calls))
    ensures var w := WithQuery(CtesText(CtesOf(calls)), RelText(main), CtesFormatted(CtesOf(calls)), Formatted(main));
            var r := With(CtesOf(calls), main);
            ParseRel(d, Lex(QueryText(w))) == Some(With(CtesMeaning(CtesOf(calls)), RelMeaning(main))) &&
            (Lex(QueryFormatted(w)) == Lex(QueryText(w)) <==> Formats.CteNewlines(r) == 0)
  {
    RunExact(Nil, calls);
    QueryTexts(CtesOf(calls), main);
    StatementRoundTrip(d, With(CtesOf(calls), main));
    Formats.LayoutsAgree(Reading(d), With(CtesOf(calls), main));
  }
}
