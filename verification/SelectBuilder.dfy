/** src/select_expr.cpp: the SELECT builder. `State` and `Apply` say what a builder has been
    told; the class holds the fields of the C++ class and is proved against them. */
module SelectBuilding {
  import opened Basics
  import opened Tokens
  import opened Lexer
  import opened Numerals
  import opened Syntax
  import opened Text
  import opened Phrases
  import opened Grammar
  import opened WellFormed
  import opened Render
  import opened RenderAll
  import Formats
  import opened RoundTrip
  import LexPrint
  import Lines
  import VirtualTables

  datatype State = State(
    from: Rel, distinct: bool, distinctOn: Option<List<Expr>>, select: Option<List<Item>>,
    where: Option<Expr>, group: Option<List<Expr>>, having: Option<Expr>,
    order: Option<List<OrderTerm>>, limit: Option<int>, offset: Option<int>)

  datatype Call =
    | SetDistinct
    | SetDistinctOn(exprs: List<Expr>)
    | SetSelect(items: List<Item>)
    | SetWhere(cond: Expr)
    | SetGroupBy(exprs: List<Expr>)
    | SetHaving(cond: Expr)
    | SetOrderBy(terms: List<OrderTerm>)
    | SetLimit(n: int)
    | SetOffset(n: int)

  function Start(tbl: Rel): State {
    State(tbl, false, None, None, None, None, None, None, None, None)
  }

  /** SetOnce lets the call through. Distinct may be called again. */
  predicate Free(s: State, c: Call) {
    match c
    case SetDistinct => true
    case SetDistinctOn(_) => s.distinctOn.None?
    case SetSelect(_) => s.select.None?
    case SetWhere(_) => s.where.None?
    case SetGroupBy(_) => s.group.None?
    case SetHaving(_) => s.having.None?
    case SetOrderBy(_) => s.order.None?
    case SetLimit(_) => s.limit.None?
    case SetOffset(_) => s.offset.None?
  }

  function Fill(s: State, c: Call): State {
    match c
    case SetDistinct => s.(distinct := true)
    case SetDistinctOn(es) => s.(distinctOn := Some(es))
    case SetSelect(items) => s.(select := Some(items))
    case SetWhere(e) => s.(where := Some(e))
    case SetGroupBy(es) => s.(group := Some(es))
    case SetHaving(e) => s.(having := Some(e))
    case SetOrderBy(ts) => s.(order := Some(ts))
    case SetLimit(n) => s.(limit := Some(n))
    case SetOffset(n) => s.(offset := Some(n))
  }

  /** One setter call; None where it throws. */
  function Apply(s: State, c: Call): Option<State> {
    if Free(s, c) then Some(Fill(s, c)) else None
  }

  function Run(s: State, calls: seq<Call>): Option<State>
    decreases |calls|
  {
    if calls == [] then Some(s)
    else if Free(s, calls[0]) then Run(Fill(s, calls[0]), calls[1..])
    else None
  }

  // ---- the text of a state

  function AsRel(s: State): Rel
    requires s.select.Some?
  {
    Select(if s.distinctOn.Some? then DistinctOn(s.distinctOn.value) else if s.distinct then Distinct else Plain,
           s.select.value, s.from, s.where, s.group, s.having, s.order, s.limit, s.offset)
  }

  /** EnsureValid returns normally. */
  predicate Complete(s: State) {
    s.select.Some? && RelText(s.from) != "" && !(s.distinct && s.distinctOn.Some?)
  }

  function Rendered(layout: Layout, s: State): Option<string> {
    if Complete(s) then Some(SelectText(layout, AsRel(s))) else None
  }

  // ---- the fragments of ToString and ToStringFormatted as written there

  /** A clause keyword with the white space around it. */
  function Opening(layout: Layout, kw: Keyword): string {
    Gap(layout) + (KwText(kw) + Lead(layout))
  }

  lemma {:induction false} OneLineOpenings()
    ensures Opening(OneLine, FROM) == " FROM " && Opening(OneLine, WHERE) == " WHERE "
    ensures Opening(OneLine, HAVING) == " HAVING "
    ensures Opening(OneLine, LIMIT) == " LIMIT " && Opening(OneLine, OFFSET) == " OFFSET "
  {
  }

  lemma {:induction false} PrettyOpenings()
    ensures Opening(Pretty, FROM) == "\nFROM\n    " && Opening(Pretty, WHERE) == "\nWHERE\n    "
    ensures Opening(Pretty, HAVING) == "\nHAVING\n    "
  {
  }

  lemma {:induction false} PrettyLimits()
    ensures Opening(Pretty, LIMIT) == "\nLIMIT\n    " && Opening(Pretty, OFFSET) == "\nOFFSET\n    "
  {
  }

  /** The two keywords of a list clause and the white space before and after them. */
  function ListOpening(layout: Layout, kw: Keyword): string {
    Gap(layout) + (KwText(kw) + (Phrase(W1(BY)) + Gap(layout)))
  }

  lemma {:induction false} OneLineLists()
    ensures ListOpening(OneLine, GROUP) == " GROUP BY " && ListOpening(OneLine, ORDER) == " ORDER BY "
  {
  }

  lemma {:induction false} PrettyLists()
    ensures ListOpening(Pretty, GROUP) == "\nGROUP BY\n" && ListOpening(Pretty, ORDER) == "\nORDER BY\n"
  {
  }

  function Joined(layout: Layout, items: seq<string>): string {
    if layout.OneLine? then JoinCsv(items) else JoinCsvIndented(items)
  }

  lemma {:induction false} ClauseIs(layout: Layout, kw: Keyword, e: Expr)
    ensures Opening(layout, kw) + ToString(e) == ClauseText(layout, kw, Some(e))
  {
    Assoc3(Gap(layout), KwText(kw), Lead(layout), ToString(e));
  }

  lemma {:induction false} IntClauseIs(layout: Layout, kw: Keyword, n: int)
    ensures Opening(layout, kw) + IntText(n) == IntClauseText(layout, kw, Some(n))
  {
    Assoc3(Gap(layout), KwText(kw), Lead(layout), IntText(n));
  }

  lemma {:induction false} CsvIs(layout: Layout, items: seq<string>)
    ensures Gap(layout) + Joined(layout, items) == Csv(layout, items)
  {
  }

  lemma {:induction false} GroupIs(layout: Layout, es: List<Expr>)
    ensures ListOpening(layout, GROUP) + Joined(layout, ExprTexts(es)) == GroupText(layout, Some(es))
  {
    CsvIs(layout, ExprTexts(es));
    Assoc4(Gap(layout), KwText(GROUP), Phrase(W1(BY)), Gap(layout), Joined(layout, ExprTexts(es)));
  }

  lemma {:induction false} OrderIs(layout: Layout, ts: List<OrderTerm>)
    ensures ListOpening(layout, ORDER) + Joined(layout, TermTexts(ts)) == OrderByText(layout, Some(ts))
  {
    CsvIs(layout, TermTexts(ts));
    Assoc4(Gap(layout), KwText(ORDER), Phrase(W1(BY)), Gap(layout), Joined(layout, TermTexts(ts)));
  }

  // ---- each clause as the two renderers write it

  lemma {:induction false} WhereLines(e: Expr)
    ensures " WHERE " + ToString(e) == ClauseText(OneLine, WHERE, Some(e))
    ensures "\nWHERE\n    " + ToString(e) == ClauseText(Pretty, WHERE, Some(e))
  {
    OneLineOpenings();
    PrettyOpenings();
    ClauseIs(OneLine, WHERE, e);
    ClauseIs(Pretty, WHERE, e);
  }

  lemma {:induction false} HavingLines(e: Expr)
    ensures " HAVING " + ToString(e) == ClauseText(OneLine, HAVING, Some(e))
    ensures "\nHAVING\n    " + ToString(e) == ClauseText(Pretty, HAVING, Some(e))
  {
    OneLineOpenings();
    PrettyOpenings();
    ClauseIs(OneLine, HAVING, e);
    ClauseIs(Pretty, HAVING, e);
  }

  lemma {:induction false} LimitLines(n: int)
    ensures " LIMIT " + IntText(n) == IntClauseText(OneLine, LIMIT, Some(n))
    ensures "\nLIMIT\n    " + IntText(n) == IntClauseText(Pretty, LIMIT, Some(n))
  {
    OneLineOpenings();
    PrettyLimits();
    IntClauseIs(OneLine, LIMIT, n);
    IntClauseIs(Pretty, LIMIT, n);
  }

  lemma {:induction false} OffsetLines(n: int)
    ensures " OFFSET " + IntText(n) == IntClauseText(OneLine, OFFSET, Some(n))
    ensures "\nOFFSET\n    " + IntText(n) == IntClauseText(Pretty, OFFSET, Some(n))
  {
    OneLineOpenings();
    PrettyLimits();
    IntClauseIs(OneLine, OFFSET, n);
    IntClauseIs(Pretty, OFFSET, n);
  }

  lemma {:induction false} GroupLines(ts: List<Expr>)
    ensures " GROUP BY " + JoinCsv(ExprTexts(ts)) == GroupText(OneLine, Some(ts))
    ensures "\nGROUP BY\n" + JoinCsvIndented(ExprTexts(ts)) == GroupText(Pretty, Some(ts))
  {
    OneLineLists();
    PrettyLists();
    GroupIs(OneLine, ts);
    GroupIs(Pretty, ts);
  }

  lemma {:induction false} OrderLines(ts: List<OrderTerm>)
    ensures " ORDER BY " + JoinCsv(TermTexts(ts)) == OrderByText(OneLine, Some(ts))
    ensures "\nORDER BY\n" + JoinCsvIndented(TermTexts(ts)) == OrderByText(Pretty, Some(ts))
  {
    OneLineLists();
    PrettyLists();
    OrderIs(OneLine, ts);
    OrderIs(Pretty, ts);
  }

  /** SELECT and its DISTINCT form, up to the select list. */
  lemma {:induction false} HeaderIs(layout: Layout)
    ensures "SELECT" + Gap(layout) == DistinctText(Plain) + Gap(layout)
    ensures "SELECT DISTINCT" + Gap(layout) == DistinctText(Distinct) + Gap(layout)
  {
  }

  lemma {:induction false} HeaderOnIs(layout: Layout, es: List<Expr>, csv: string)
    requires csv == JoinCsv(ExprTexts(es))
    ensures "SELECT DISTINCT ON (" + csv + (")" + Gap(layout)) == DistinctText(DistinctOn(es)) + Gap(layout)
  {
    HeaderOnWords();
    Assoc3(KwText(SELECT), Phrase(W2(DISTINCT, ON)), " (", csv + ")");
    Assoc(KwText(SELECT) + (Phrase(W2(DISTINCT, ON)) + " ("), csv, ")");
    Assoc("SELECT DISTINCT ON (" + csv, ")", Gap(layout));
  }

  lemma {:induction false} HeaderOnWords()
    ensures KwText(SELECT) + (Phrase(W2(DISTINCT, ON)) + " (") == "SELECT DISTINCT ON ("
  {
  }

  /** Everything up to the FROM item. */
  function HeadText(layout: Layout, r: Rel): string
    requires r.Select?
  {
    DistinctText(r.distinct) + Gap(layout) +
      (Joined(layout, ItemTexts(r.items)) + Opening(layout, FROM) + RelText(r.from))
  }

  /** The clauses appended in the order of the C++ code make the text behind the FROM item. */
  lemma {:induction false} ClausesFold(layout: Layout, r: Rel, s0: string, s1: string, s2: string, s3: string,
                                       s4: string, s5: string, s6: string)
    requires r.Select?
    requires s1 == s0 + ClauseText(layout, WHERE, r.where)
    requires s2 == s1 + GroupText(layout, r.group)
    requires s3 == s2 + ClauseText(layout, HAVING, r.having)
    requires s4 == s3 + OrderByText(layout, r.order)
    requires s5 == s4 + IntClauseText(layout, LIMIT, r.limit)
    requires s6 == s5 + IntClauseText(layout, OFFSET, r.offset)
    ensures s6 == s0 + ClausesText(layout, r)
  {
    var w, g, h := ClauseText(layout, WHERE, r.where), GroupText(layout, r.group), ClauseText(layout, HAVING, r.having);
    var o := OrderByText(layout, r.order);
    var l, f := IntClauseText(layout, LIMIT, r.limit), IntClauseText(layout, OFFSET, r.offset);
    Assoc(s4, l, f);
    Assoc(s3, o, l + f);
    Assoc(s2, h, o + (l + f));
    Assoc(s1, g, h + (o + (l + f)));
    Assoc(s0, w, g + (h + (o + (l + f))));
  }

  /** The clauses as ToString appends them. */
  lemma {:induction false} OneLineFold(r: Rel, s0: string, s1: string, s2: string, s3: string, s4: string,
                                      s5: string, s6: string)
    requires r.Select?
    requires s1 == if r.where.Some? then s0 + (" WHERE " + ToString(r.where.value)) else s0
    requires s2 == if r.group.Some? then s1 + (" GROUP BY " + JoinCsv(ExprTexts(r.group.value))) else s1
    requires s3 == if r.having.Some? then s2 + (" HAVING " + ToString(r.having.value)) else s2
    requires s4 == if r.order.Some? then s3 + (" ORDER BY " + JoinCsv(TermTexts(r.order.value))) else s3
    requires s5 == if r.limit.Some? then s4 + (" LIMIT " + IntText(r.limit.value)) else s4
    requires s6 == if r.offset.Some? then s5 + (" OFFSET " + IntText(r.offset.value)) else s5
    ensures s6 == s0 + ClausesText(OneLine, r)
  {
    assert s1 == s0 + ClauseText(OneLine, WHERE, r.where) by { if r.where.Some? { WhereLines(r.where.value); } }
    assert s2 == s1 + GroupText(OneLine, r.group) by { if r.group.Some? { GroupLines(r.group.value); } }
    assert s3 == s2 + ClauseText(OneLine, HAVING, r.having) by { if r.having.Some? { HavingLines(r.having.value); } }
    assert s4 == s3 + OrderByText(OneLine, r.order) by { if r.order.Some? { OrderLines(r.order.value); } }
    assert s5 == s4 + IntClauseText(OneLine, LIMIT, r.limit) by { if r.limit.Some? { LimitLines(r.limit.value); } }
    assert s6 == s5 + IntClauseText(OneLine, OFFSET, r.offset) by { if r.offset.Some? { OffsetLines(r.offset.value); } }
    ClausesFold(OneLine, r, s0, s1, s2, s3, s4, s5, s6);
  }

  /** The clauses as ToStringFormatted appends them. */
  lemma {:induction false} PrettyFold(r: Rel, s0: string, s1: string, s2: string, s3: string, s4: string,
                                      s5: string, s6: string)
    requires r.Select?
    requires s1 == if r.where.Some? then s0 + ("\nWHERE\n    " + ToString(r.where.value)) else s0
    requires s2 == if r.group.Some? then s1 + ("\nGROUP BY\n" + JoinCsvIndented(ExprTexts(r.group.value))) else s1
    requires s3 == if r.having.Some? then s2 + ("\nHAVING\n    " + ToString(r.having.value)) else s2
    requires s4 == if r.order.Some? then s3 + ("\nORDER BY\n" + JoinCsvIndented(TermTexts(r.order.value))) else s3
    requires s5 == if r.limit.Some? then s4 + ("\nLIMIT\n    " + IntText(r.limit.value)) else s4
    requires s6 == if r.offset.Some? then s5 + ("\nOFFSET\n    " + IntText(r.offset.value)) else s5
    ensures s6 == s0 + ClausesText(Pretty, r)
  {
    assert s1 == s0 + ClauseText(Pretty, WHERE, r.where) by { if r.where.Some? { WhereLines(r.where.value); } }
    assert s2 == s1 + GroupText(Pretty, r.group) by { if r.group.Some? { GroupLines(r.group.value); } }
    assert s3 == s2 + ClauseText(Pretty, HAVING, r.having) by { if r.having.Some? { HavingLines(r.having.value); } }
    assert s4 == s3 + OrderByText(Pretty, r.order) by { if r.order.Some? { OrderLines(r.order.value); } }
    assert s5 == s4 + IntClauseText(Pretty, LIMIT, r.limit) by { if r.limit.Some? { LimitLines(r.limit.value); } }
    assert s6 == s5 + IntClauseText(Pretty, OFFSET, r.offset) by { if r.offset.Some? { OffsetLines(r.offset.value); } }
    ClausesFold(Pretty, r, s0, s1, s2, s3, s4, s5, s6);
  }

  lemma {:induction false} HeadFold(layout: Layout, r: Rel, k: string)
    requires r.Select? && k == ClausesText(layout, r)
    ensures HeadText(layout, r) + k == SelectText(layout, r)
  {
    var items := ItemTexts(r.items);
    var list := Joined(layout, items);
    var opening := Opening(layout, FROM);
    var dis := DistinctText(r.distinct);
    var from := RelText(r.from);
    CsvIs(layout, items);
    Assoc(list, opening, from);
    Assoc(dis, Gap(layout), list + (opening + from));
    Assoc(Gap(layout), list, opening + from);
    Assoc3(dis, Gap(layout) + list, opening + from, k);
    Assoc(opening, from, k);
    Assoc3(Gap(layout), KwText(FROM), Lead(layout), from + k);
    Assoc(dis, Gap(layout) + list + (opening + from), k);
    Assoc(Gap(layout) + list, opening + from, k);
  }

  class SelectExpr {
    var distinct: bool
    var distinctOn: Option<List<Expr>>
    var from: string
    var select: Option<List<Item>>
    var where: Option<Expr>
    var group: Option<List<Expr>>
    var having: Option<Expr>
    var order: Option<List<OrderTerm>>
    var limit: Option<int>
    var offset: Option<int>
    ghost var table: Rel

    ghost predicate Valid()
      reads this
    {
      from == RelText(table) && IsFromItem(table)
    }

    ghost function Told(): State
      reads this
    {
      State(table, distinct, distinctOn, select, where, group, having, order, limit, offset)
    }

    constructor (tbl: Rel)
      requires IsFromItem(tbl)
      ensures Valid() && Told() == Start(tbl)
    {
      distinct, distinctOn, from, select := false, None, RelText(tbl), None;
      where, group, having, order, limit, offset := None, None, None, None, None, None;
      table := tbl;
    }

    method Distinct()
      requires Valid()
      modifies this
      ensures Valid() && Some(Told()) == Apply(old(Told()), SetDistinct)
    {
      distinct := true;
    }

    method DistinctOn(exprs: List<Expr>) returns (ok: bool)
      requires Valid()
      modifies this
      ensures Valid() && ok == Apply(old(Told()), SetDistinctOn(exprs)).Some?
      ensures Told() == if ok then Apply(old(Told()), SetDistinctOn(exprs)).value else old(Told())
    {
      ok := distinctOn.None?;
      if ok { distinctOn := Some(exprs); }
    }

    method Select(items: List<Item>) returns (ok: bool)
      requires Valid()
      modifies this
      ensures Valid() && ok == Apply(old(Told()), SetSelect(items)).Some?
      ensures Told() == if ok then Apply(old(Told()), SetSelect(items)).value else old(Told())
    {
      ok := select.None?;
      if ok { select := Some(items); }
    }

    method Where(cond: Expr) returns (ok: bool)
      requires Valid()
      modifies this
      ensures Valid() && ok == Apply(old(Told()), SetWhere(cond)).Some?
      ensures Told() == if ok then Apply(old(Told()), SetWhere(cond)).value else old(Told())
    {
      ok := where.None?;
      if ok { where := Some(cond); }
    }

    method GroupBy(exprs: List<Expr>) returns (ok: bool)
      requires Valid()
      modifies this
      ensures Valid() && ok == Apply(old(Told()), SetGroupBy(exprs)).Some?
      ensures Told() == if ok then Apply(old(Told()), SetGroupBy(exprs)).value else old(Told())
    {
      ok := group.None?;
      if ok { group := Some(exprs); }
    }

    method Having(cond: Expr) returns (ok: bool)
      requires Valid()
      modifies this
      ensures Valid() && ok == Apply(old(Told()), SetHaving(cond)).Some?
      ensures Told() == if ok then Apply(old(Told()), SetHaving(cond)).value else old(Told())
    {
      ok := having.None?;
      if ok { having := Some(cond); }
    }

    method OrderBy(terms: List<OrderTerm>) returns (ok: bool)
      requires Valid()
      modifies this
      ensures Valid() && ok == Apply(old(Told()), SetOrderBy(terms)).Some?
      ensures Told() == if ok then Apply(old(Told()), SetOrderBy(terms)).value else old(Told())
    {
      ok := order.None?;
      if ok { order := Some(terms); }
    }

    method Limit(n: int) returns (ok: bool)
      requires Valid()
      modifies this
      ensures Valid() && ok == Apply(old(Told()), SetLimit(n)).Some?
      ensures Told() == if ok then Apply(old(Told()), SetLimit(n)).value else old(Told())
    {
      ok := limit.None?;
      if ok { limit := Some(n); }
    }

    method Offset(n: int) returns (ok: bool)
      requires Valid()
      modifies this
      ensures Valid() && ok == Apply(old(Told()), SetOffset(n)).Some?
      ensures Told() == if ok then Apply(old(Told()), SetOffset(n)).value else old(Told())
    {
      ok := offset.None?;
      if ok { offset := Some(n); }
    }

    method EnsureValid() returns (ok: bool)
      requires Valid()
      ensures ok == Complete(Told())
    {
      ok := select.Some? && from != "" && !(distinct && distinctOn.Some?);
    }

    /** ToString up to the FROM item. */
    method Head() returns (s: string)
      requires Valid() && Complete(Told())
      ensures s == HeadText(OneLine, AsRel(Told()))
    {
      HeaderIs(OneLine);
      OneLineOpenings();
      if distinctOn.Some? {
        var on := RenderExprs(distinctOn.value);
        var csv := JoinCsvLoop(on);
        s := "SELECT DISTINCT ON (" + csv + ") ";
        HeaderOnIs(OneLine, distinctOn.value, csv);
        assert ")" + Gap(OneLine) == ") ";
      } else if distinct {
        s := "SELECT DISTINCT ";
        assert "SELECT DISTINCT" + Gap(OneLine) == s;
      } else {
        s := "SELECT ";
        assert "SELECT" + Gap(OneLine) == s;
      }
      assert s == DistinctText(AsRel(Told()).distinct) + Gap(OneLine);
      var items := RenderItems(select.value);
      var list := JoinCsvLoop(items);
      s := s + (list + " FROM " + from);
    }

    /** The optional clauses of ToString, behind `head`. */
    method Clauses(head: string) returns (s: string)
      requires Valid() && select.Some?
      ensures s == head + ClausesText(OneLine, AsRel(Told()))
    {
      ghost var rel := AsRel(Told());
      var w, g, h, o, l, f := where, group, having, order, limit, offset;
      s := head;
      ghost var s0 := s;
      if w.Some? {
        s := s + (" WHERE " + Render.ToString(w.value));
      }
      ghost var s1 := s;
      if g.Some? {
        var texts := RenderExprs(g.value);
        var csv := JoinCsvLoop(texts);
        s := s + (" GROUP BY " + csv);
      }
      ghost var s2 := s;
      if h.Some? {
        s := s + (" HAVING " + Render.ToString(h.value));
      }
      ghost var s3 := s;
      if o.Some? {
        var texts := RenderTerms(o.value);
        var csv := JoinCsvLoop(texts);
        s := s + (" ORDER BY " + csv);
      }
      ghost var s4 := s;
      if l.Some? {
        s := s + (" LIMIT " + IntText(l.value));
      }
      ghost var s5 := s;
      if f.Some? {
        s := s + (" OFFSET " + IntText(f.value));
      }
      OneLineFold(rel, s0, s1, s2, s3, s4, s5, s);
    }

    /** None where EnsureValid throws. */
    method ToString() returns (r: Option<string>)
      requires Valid()
      ensures r == Rendered(OneLine, Told())
    {
      var complete := EnsureValid();
      if !complete {
        return None;
      }
      var s := Head();
      s := Clauses(s);
      HeadFold(OneLine, AsRel(Told()), ClausesText(OneLine, AsRel(Told())));
      r := Some(s);
    }

    /** ToStringFormatted up to the FROM item. */
    method HeadFormatted() returns (s: string)
      requires Valid() && Complete(Told())
      ensures s == HeadText(Pretty, AsRel(Told()))
    {
      HeaderIs(Pretty);
      PrettyOpenings();
      if distinctOn.Some? {
        var on := RenderExprs(distinctOn.value);
        var csv := JoinCsvLoop(on);
        s := "SELECT DISTINCT ON (" + csv + ")\n";
        HeaderOnIs(Pretty, distinctOn.value, csv);
        assert ")" + Gap(Pretty) == ")\n";
      } else if distinct {
        s := "SELECT DISTINCT\n";
        assert "SELECT DISTINCT" + Gap(Pretty) == s;
      } else {
        s := "SELECT\n";
        assert "SELECT" + Gap(Pretty) == s;
      }
      assert s == DistinctText(AsRel(Told()).distinct) + Gap(Pretty);
      var items := RenderItems(select.value);
      var list := JoinCsvIndentedLoop(items);
      s := s + (list + "\nFROM\n    " + from);
    }

    /** The optional clauses of ToStringFormatted, behind `head`. */
    method ClausesFormatted(head: string) returns (s: string)
      requires Valid() && select.Some?
      ensures s == head + ClausesText(Pretty, AsRel(Told()))
    {
      ghost var rel := AsRel(Told());
      var w, g, h, o, l, f := where, group, having, order, limit, offset;
      s := head;
      ghost var s0 := s;
      if w.Some? {
        s := s + ("\nWHERE\n    " + Render.ToString(w.value));
      }
      ghost var s1 := s;
      if g.Some? {
        var texts := RenderExprs(g.value);
        var csv := JoinCsvIndentedLoop(texts);
        s := s + ("\nGROUP BY\n" + csv);
      }
      ghost var s2 := s;
      if h.Some? {
        s := s + ("\nHAVING\n    " + Render.ToString(h.value));
      }
      ghost var s3 := s;
      if o.Some? {
        var texts := RenderTerms(o.value);
        var csv := JoinCsvIndentedLoop(texts);
        s := s + ("\nORDER BY\n" + csv);
      }
      ghost var s4 := s;
      if l.Some? {
        s := s + ("\nLIMIT\n    " + IntText(l.value));
      }
      ghost var s5 := s;
      if f.Some? {
        s := s + ("\nOFFSET\n    " + IntText(f.value));
      }
      PrettyFold(rel, s0, s1, s2, s3, s4, s5, s);
    }

    method ToStringFormatted() returns (r: Option<string>)
      requires Valid()
      ensures r == Rendered(Pretty, Told())
    {
      var complete := EnsureValid();
      if !complete {
        return None;
      }
      var s := HeadFormatted();
      s := ClausesFormatted(s);
      HeadFold(Pretty, AsRel(Told()), ClausesText(Pretty, AsRel(Told())));
      r := Some(s);
    }
  }

  /** The free function From; null where the table value needs an alias first. */
  method From(tbl: Rel) returns (b: SelectExpr?)
    ensures b == null <==> VirtualTables.AsFromItem(tbl) == None
    ensures b != null ==> fresh(b) && b.Valid() && b.Told() == Start(tbl)
  {
    b := null;
    if VirtualTables.AsFromItem(tbl).Some? {
      b := new SelectExpr(tbl);
    }
  }

  // ---- whole runs

  predicate SameClause(a: Call, b: Call) {
    match a
    case SetDistinct => false
    case SetDistinctOn(_) => b.SetDistinctOn?
    case SetSelect(_) => b.SetSelect?
    case SetWhere(_) => b.SetWhere?
    case SetGroupBy(_) => b.SetGroupBy?
    case SetHaving(_) => b.SetHaving?
    case SetOrderBy(_) => b.SetOrderBy?
    case SetLimit(_) => b.SetLimit?
    case SetOffset(_) => b.SetOffset?
  }

  /** Some set-once clause is set by two of the calls. */
  predicate SetsTwice(calls: seq<Call>) {
    exists i, j :: 0 <= i < j < |calls| && SameClause(calls[i], calls[j])
  }

  lemma {:induction false} FillCloses(s: State, c: Call, other: Call)
    ensures Free(Fill(s, c), other) <==> Free(s, other) && !SameClause(c, other)
  {
  }

  /** A run from any state throws exactly when a call meets a clause that is set already, or
      two calls set the same clause. */
  lemma {:induction false} RunFails(s: State, calls: seq<Call>)
    ensures Run(s, calls).Some? <==>
      (forall i :: 0 <= i < |calls| ==> Free(s, calls[i])) && !SetsTwice(calls)
    decreases |calls|
  {
    if calls != [] && Free(s, calls[0]) {
      var c, rest := calls[0], calls[1..];
      var s1 := Fill(s, c);
      RunFails(s1, rest);
      forall i | 0 <= i < |rest| ensures Free(s1, rest[i]) <==> Free(s, rest[i]) && !SameClause(c, rest[i]) {
        FillCloses(s, c, rest[i]);
      }
      assert forall i :: 0 <= i < |rest| ==> rest[i] == calls[i + 1];
      if Run(s1, rest).Some? {
        forall i, j | 0 <= i < j < |calls| ensures !SameClause(calls[i], calls[j]) {
          if i > 0 { assert !SameClause(rest[i - 1], rest[j - 1]); }
          assert calls[j] == rest[j - 1];
        }
      }
      if (forall i :: 0 <= i < |calls| ==> Free(s, calls[i])) && !SetsTwice(calls) {
        forall i | 0 <= i < |rest| ensures Free(s1, rest[i]) {
          assert !SameClause(calls[0], calls[i + 1]);
        }
        forall i, j | 0 <= i < j < |rest| ensures !SameClause(rest[i], rest[j]) {
          assert !SameClause(calls[i + 1], calls[j + 1]);
        }
      }
    }
  }

  /** A fresh builder rejects a run exactly when it sets a set-once clause twice; only
      Distinct may be called again. */
  lemma {:induction false} RunFailsFresh(tbl: Rel, calls: seq<Call>)
    ensures Run(Start(tbl), calls) == None <==>
      exists i, j :: 0 <= i < j < |calls| &&
        match calls[i] {
          case SetDistinct => false
          case SetDistinctOn(_) => calls[j].SetDistinctOn?
          case SetSelect(_) => calls[j].SetSelect?
          case SetWhere(_) => calls[j].SetWhere?
          case SetGroupBy(_) => calls[j].SetGroupBy?
          case SetHaving(_) => calls[j].SetHaving?
          case SetOrderBy(_) => calls[j].SetOrderBy?
          case SetLimit(_) => calls[j].SetLimit?
          case SetOffset(_) => calls[j].SetOffset?
        }
  {
    RunFails(Start(tbl), calls);
    forall c: Call ensures Free(Start(tbl), c) {
      match c
      case SetDistinct =>
      case _ =>
    }
  }

  lemma {:induction false} Swap(s: State, a: Call, b: Call, rest: seq<Call>)
    ensures Run(s, [a, b] + rest) == Run(s, [b, a] + rest)
  {
  }

  /** A call may be made first instead. */
  lemma {:induction false} MoveFront(s: State, calls: seq<Call>, i: nat)
    requires i < |calls|
    ensures Run(s, calls) == Run(s, [calls[i]] + calls[..i] + calls[i + 1..])
    decreases i
  {
    if i == 0 {
      assert [calls[0]] + calls[..0] + calls[1..] == calls;
    } else {
      var c, rest := calls[0], calls[1..];
      var tail := rest[..i - 1] + rest[i..];
      assert rest[i - 1] == calls[i];
      assert [rest[i - 1]] + rest[..i - 1] + rest[i..] == [calls[i]] + tail;
      assert calls[..i] == [c] + rest[..i - 1] && calls[i + 1..] == rest[i..];
      assert [calls[i]] + calls[..i] + calls[i + 1..] == [calls[i], c] + tail;
      assert ([c, calls[i]] + tail)[1..] == [calls[i]] + tail;
      if Free(s, c) {
        MoveFront(Fill(s, c), rest, i - 1);
      }
      Swap(s, c, calls[i], tail);
    }
  }

  lemma {:induction false} SameRest(c: Call, x: seq<Call>, y: seq<Call>, z: seq<Call>)
    requires multiset([c] + x) == multiset(y + [c] + z)
    ensures multiset(x) == multiset(y + z)
  {
    assert multiset([c] + x) == multiset{c} + multiset(x);
    assert multiset(y + [c] + z) == multiset(y) + multiset{c} + multiset(z);
    assert multiset(y + z) == multiset(y) + multiset(z);
    assert multiset(x) == multiset([c] + x) - multiset{c};
  }

  /** Only which calls are made matters, not their order: same outcome, same text. */
  lemma {:induction false} OrderIrrelevant(s: State, a: seq<Call>, b: seq<Call>)
    requires multiset(a) == multiset(b)
    ensures Run(s, a) == Run(s, b)
    decreases |a|
  {
    if a == [] {
      assert |multiset(b)| == 0;
    } else {
      var c, rest := a[0], a[1..];
      assert a == [c] + rest;
      assert c in multiset(b);
      var i :| 0 <= i < |b| && b[i] == c;
      var others := b[..i] + b[i + 1..];
      assert b == b[..i] + [c] + b[i + 1..];
      SameRest(c, rest, b[..i], b[i + 1..]);
      MoveFront(s, b, i);
      assert [c] + b[..i] + b[i + 1..] == [c] + others;
      assert ([c] + others)[1..] == others;
      if Free(s, c) {
        OrderIrrelevant(Fill(s, c), rest, others);
      }
    }
  }

  // ---- which runs can be printed

  /** Some call gave the select list, and not both DISTINCT forms were asked for. */
  predicate Printable(calls: seq<Call>) {
    (exists c :: c in calls && c.SetSelect?) && !(SetDistinct in calls && exists c :: c in calls && c.SetDistinctOn?)
  }

  /** What the fields say about the calls of a run. */
  lemma {:induction false} RunFills(s: State, calls: seq<Call>)
    requires Run(s, calls).Some?
    ensures var t := Run(s, calls).value;
            t.from == s.from &&
            (t.select.Some? <==> s.select.Some? || exists c :: c in calls && c.SetSelect?) &&
            (t.distinct <==> s.distinct || SetDistinct in calls) &&
            (t.distinctOn.Some? <==> s.distinctOn.Some? || exists c :: c in calls && c.SetDistinctOn?)
    decreases |calls|
  {
    if calls != [] {
      RunFills(Fill(s, calls[0]), calls[1..]);
      assert calls == [calls[0]] + calls[1..];
      assert calls[0] in calls && forall c :: c in calls[1..] ==> c in calls;
    }
  }

  /** EnsureValid over whole programs: a builder that went through its calls prints, in
      either layout, exactly when it has a select list and one DISTINCT form at most. */
  lemma {:induction false} PrintsExact(m: Strict, tbl: Rel, calls: seq<Call>, layout: Layout)
    requires RelOk(m, tbl) && Run(Start(tbl), calls).Some?
    ensures Rendered(layout, Run(Start(tbl), calls).value).Some? <==>
      (exists c :: c in calls && c.SetSelect?) && !(SetDistinct in calls && exists c :: c in calls && c.SetDistinctOn?)
  {
    RunFills(Start(tbl), calls);
    LexPrint.RelNonEmpty(m, tbl);
  }

  /** The two texts are those the statement has as a table value: in a WITH query, a set
      operation or a subquery the same characters appear, and the lines of the multi-line
      text are the keywords and items of the statement. */
  lemma {:induction false} TextsOfValue(s: State)
    requires s.select.Some? && Rendered(Pretty, s).Some?
    ensures Rendered(OneLine, s) == Some(RelText(AsRel(s))) && Rendered(Pretty, s) == Some(Formatted(AsRel(s)))
    ensures Lines.Lines(Rendered(Pretty, s).value) == Lines.SelectLines(AsRel(s))
  {
    Lines.FormattedByLine(AsRel(s));
  }

  // ---- what the text says about the calls

  /** The clause `c` sets holds its argument. */
  predicate Holds(s: State, c: Call) {
    match c
    case SetDistinct => s.distinct
    case SetDistinctOn(es) => s.distinctOn == Some(es)
    case SetSelect(items) => s.select == Some(items)
    case SetWhere(e) => s.where == Some(e)
    case SetGroupBy(es) => s.group == Some(es)
    case SetHaving(e) => s.having == Some(e)
    case SetOrderBy(ts) => s.order == Some(ts)
    case SetLimit(n) => s.limit == Some(n)
    case SetOffset(n) => s.offset == Some(n)
  }

  lemma {:induction false} HoldsOn(s: State, calls: seq<Call>, c: Call)
    requires Run(s, calls).Some? && Holds(s, c)
    ensures Holds(Run(s, calls).value, c)
    decreases |calls|
  {
    if calls != [] {
      assert Holds(Fill(s, calls[0]), c) by { KeepsHolding(s, calls[0], c); }
      HoldsOn(Fill(s, calls[0]), calls[1..], c);
    }
  }

  lemma {:induction false} KeepsHolding(s: State, a: Call, c: Call)
    requires Free(s, a) && Holds(s, c)
    ensures Holds(Fill(s, a), c)
  {
  }

  /** Nothing a successful run was told is lost. */
  lemma {:induction false} RunHolds(s: State, calls: seq<Call>, i: nat)
    requires Run(s, calls).Some? && i < |calls|
    ensures Holds(Run(s, calls).value, calls[i])
    decreases |calls|
  {
    var s1 := Fill(s, calls[0]);
    if i == 0 {
      assert Holds(s1, calls[0]);
      HoldsOn(s1, calls[1..], calls[0]);
    } else {
      RunHolds(s1, calls[1..], i - 1);
    }
  }

  /** Nothing is set but what the run was told: a clause is open afterwards exactly when it
      was before and no call set it. */
  lemma {:induction false} RunAddsNothing(s: State, calls: seq<Call>, c: Call)
    requires Run(s, calls).Some?
    ensures Free(Run(s, calls).value, c) <==>
      Free(s, c) && forall i :: 0 <= i < |calls| ==> !SameClause(calls[i], c)
    ensures Run(s, calls).value.distinct <==> s.distinct || SetDistinct in calls
    decreases |calls|
  {
    if calls != [] {
      FillCloses(s, calls[0], c);
      RunAddsNothing(Fill(s, calls[0]), calls[1..], c);
      assert calls == [calls[0]] + calls[1..];
      assert forall i :: 0 < i < |calls| ==> calls[i] == calls[1..][i - 1];
      if forall i :: 0 <= i < |calls[1..]| ==> !SameClause(calls[1..][i], c) {
        forall i | 0 < i < |calls| ensures !SameClause(calls[i], c) {
          assert !SameClause(calls[1..][i - 1], c);
        }
      }
      if forall i :: 0 <= i < |calls| ==> !SameClause(calls[i], c) {
        forall i | 0 <= i < |calls[1..]| ensures !SameClause(calls[1..][i], c) {
          assert !SameClause(calls[i + 1], c);
        }
      }
    }
  }

  /** The clause `c` sets, as a parsed statement shows it. */
  predicate Shows(r: Rel, c: Call)
    requires r.Select?
  {
    match c
    case SetDistinct => r.distinct.Distinct?
    case SetDistinctOn(es) => r.distinct == DistinctOn(ListMeaning(es))
    case SetSelect(items) => r.items == ItemsMeaning(items)
    case SetWhere(e) => r.where == Some(Meaning(e))
    case SetGroupBy(es) => r.group == Some(ListMeaning(es))
    case SetHaving(e) => r.having == Some(Meaning(e))
    case SetOrderBy(ts) => r.order == Some(TermsMeaning(ts))
    case SetLimit(n) => r.limit == Some(n)
    case SetOffset(n) => r.offset == Some(n)
  }

  lemma {:induction false} ShownOnes(s: State, c: Call)
    requires Complete(s) && Holds(s, c)
    ensures RelMeaning(AsRel(s)).Select? && Shows(RelMeaning(AsRel(s)), c)
  {
  }

  /** No clause shows but those some call set. */
  predicate ShowsOnly(r: Rel, calls: seq<Call>)
    requires r.Select?
  {
    (r.distinct.DistinctOn? ==> exists c :: c in calls && c.SetDistinctOn?) &&
    (r.distinct.Distinct? ==> SetDistinct in calls) &&
    (r.where.Some? ==> exists c :: c in calls && c.SetWhere?) &&
    (r.group.Some? ==> exists c :: c in calls && c.SetGroupBy?) &&
    (r.having.Some? ==> exists c :: c in calls && c.SetHaving?) &&
    (r.order.Some? ==> exists c :: c in calls && c.SetOrderBy?) &&
    (r.limit.Some? ==> exists c :: c in calls && c.SetLimit?) &&
    (r.offset.Some? ==> exists c :: c in calls && c.SetOffset?)
  }

  /** A clause that is set was set by a call. */
  lemma {:induction false} SetByCall(tbl: Rel, calls: seq<Call>, c: Call) returns (maker: Call)
    requires Run(Start(tbl), calls).Some? && !Free(Run(Start(tbl), calls).value, c)
    ensures maker in calls && SameClause(maker, c)
  {
    RunAddsNothing(Start(tbl), calls, c);
    assert exists i :: 0 <= i < |calls| && SameClause(calls[i], c);
    var i :| 0 <= i < |calls| && SameClause(calls[i], c);
    maker := calls[i];
  }

  lemma {:induction false} MeaningShape(s: State)
    requires s.select.Some?
    ensures var r := RelMeaning(AsRel(s));
            r.Select? && (r.distinct.DistinctOn? <==> s.distinctOn.Some?) && (r.distinct.Distinct? ==> s.distinct) &&
            (r.where.Some? <==> s.where.Some?) && (r.group.Some? <==> s.group.Some?) &&
            (r.having.Some? <==> s.having.Some?) && (r.order.Some? <==> s.order.Some?) &&
            (r.limit.Some? <==> s.limit.Some?) && (r.offset.Some? <==> s.offset.Some?)
  {
  }

  lemma {:induction false} RunShowsOnly(tbl: Rel, calls: seq<Call>)
    requires Run(Start(tbl), calls).Some? && Complete(Run(Start(tbl), calls).value)
    ensures ShowsOnly(RelMeaning(AsRel(Run(Start(tbl), calls).value)), calls)
  {
    var s := Run(Start(tbl), calls).value;
    MeaningShape(s);
    RunAddsNothing(Start(tbl), calls, SetDistinct);
    assert s.distinct ==> SetDistinct in calls;
    if s.distinctOn.Some? {
      var maker := SetByCall(tbl, calls, SetDistinctOn(Nil));
      assert maker in calls && maker.SetDistinctOn?;
    }
    if s.where.Some? {
      var maker := SetByCall(tbl, calls, SetWhere(s.where.value));
      assert maker in calls && maker.SetWhere?;
    }
    if s.group.Some? {
      var maker := SetByCall(tbl, calls, SetGroupBy(Nil));
      assert maker in calls && maker.SetGroupBy?;
    }
    if s.having.Some? {
      var maker := SetByCall(tbl, calls, SetHaving(s.having.value));
      assert maker in calls && maker.SetHaving?;
    }
    if s.order.Some? {
      var maker := SetByCall(tbl, calls, SetOrderBy(Nil));
      assert maker in calls && maker.SetOrderBy?;
    }
    if s.limit.Some? {
      var maker := SetByCall(tbl, calls, SetLimit(0));
      assert maker in calls && maker.SetLimit?;
    }
    if s.offset.Some? {
      var maker := SetByCall(tbl, calls, SetOffset(0));
      assert maker in calls && maker.SetOffset?;
    }
  }

  /** Whatever order the calls came in, both layouts of the finished statement read back as
      a SELECT from that table in which every call shows, and nothing else does. */
  lemma {:induction false} SelectRoundTrip(d: Dialect, tbl: Rel, calls: seq<Call>, layout: Layout)
    requires d.Valid() && RelOk(Reading(d), tbl) && Run(Start(tbl), calls).Some? && Printable(calls)
    requires var s := Run(Start(tbl), calls).value; s.select.Some? ==> RelOk(Reading(d), AsRel(s))
    ensures var text := Rendered(layout, Run(Start(tbl), calls).value);
            text.Some? &&
            var read := ParseRel(d, Lex(text.value));
            read.Some? && read.value.Select? && read.value.from == RelMeaning(tbl) &&
            (forall c :: c in calls ==> Shows(read.value, c)) && ShowsOnly(read.value, calls)
  {
    var s := Run(Start(tbl), calls).value;
    PrintsExact(Reading(d), tbl, calls, layout);
    RunFills(Start(tbl), calls);
    StatementRoundTrip(d, AsRel(s));
    FormattedRoundTrip(d, AsRel(s));
    RunShowsOnly(tbl, calls);
    forall c | c in calls ensures Shows(RelMeaning(AsRel(s)), c) {
      var i :| 0 <= i < |calls| && calls[i] == c;
      RunHolds(Start(tbl), calls, i);
      ShownOnes(s, c);
    }
  }
}
