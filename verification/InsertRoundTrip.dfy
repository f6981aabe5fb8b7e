/** The text of an INSERT statement read back. */
module InsertRoundTrip {
  import opened Basics
  import opened Tokens
  import opened Lexer
  import opened Syntax
  import opened Text
  import opened Phrases
  import opened Printer
  import opened Grammar
  import opened WellFormed
  import opened Render
  import opened LexPrint
  import opened Inserts
  import opened InsertBuilding
  import Builder = InsertBuilding

  /** The texts the builder is left with by one column list, one list of rows, and the last
      conflict clause and RETURNING. */
  function TextOf(i: Insert): string {
    InsertText(Bracketed(i.into), State(ExprTexts(i.columns), RowTexts(i.rows)), ConflictClause(i.conflict),
               ReturnedText(i.returning))
  }

  // ---- the words of the statement are words to the lexer

  lemma {:induction false} FreeWord(w: string)
    requires Capitals(w) && KeywordOf(w).None?
    ensures IsFreeName(w)
  {
    CapitalsAreWords(w);
  }

  lemma {:induction false} InsertWord()
    ensures IsFreeName("INSERT")
  {
    FreeWord("INSERT");
  }

  lemma {:induction false} IntoWord()
    ensures IsFreeName("INTO")
  {
    FreeWord("INTO");
  }

  lemma {:induction false} ValuesWord()
    ensures IsFreeName("VALUES")
  {
    FreeWord("VALUES");
  }

  lemma {:induction false} ReturningWord()
    ensures IsFreeName("RETURNING")
  {
    FreeWord("RETURNING");
  }

  lemma {:induction false} ConflictWord()
    ensures IsFreeName("CONFLICT")
  {
    FreeWord("CONFLICT");
  }

  lemma {:induction false} NothingWord()
    ensures IsFreeName("NOTHING")
  {
    FreeWord("NOTHING");
  }

  lemma {:induction false} UpdateWord()
    ensures IsFreeName("UPDATE")
  {
    FreeWord("UPDATE");
  }

  lemma {:induction false} DoWord()
    ensures IsFreeName("DO")
  {
    FreeWord("DO");
  }

  lemma {:induction false} SetWord()
    ensures IsFreeName("SET")
  {
    FreeWord("SET");
  }

  lemma {:induction false} LexFree(w: string, k: string)
    requires IsFreeName(w)
    ensures Lex((w + " ") + k) == Cons(Word(w), Lex(k))
  {
    LexThenSpace(Word(w), k);
  }

  // ---- the fragments

  /** A word of the statement, with the space behind it. */
  lemma {:induction false} LexFreeText(w: string, text: string, k: string)
    requires IsFreeName(w) && text == w + " "
    ensures Lex(text + k) == Cons(Word(w), Lex(k))
  {
    LexFree(w, k);
  }

  lemma {:induction false} LexInto(k: string)
    ensures Lex("INTO " + k) == Cons(Word("INTO"), Lex(k))
  {
    IntoWord();
    LexFreeText("INTO", "INTO ", k);
  }

  lemma {:induction false} LexInsertInto(k: string)
    ensures Lex("INSERT INTO " + k) == Cons(Word("INSERT"), Cons(Word("INTO"), Lex(k)))
  {
    LexInto(k);
    InsertWord();
    LexFreeText("INSERT", "INSERT ", "INTO " + k);
    assert "INSERT INTO " == "INSERT " + "INTO ";
    Assoc("INSERT ", "INTO ", k);
  }

  lemma {:induction false} LexValues(k: string)
    ensures Lex(") VALUES " + k) == Cons(RParen, Cons(Word("VALUES"), Lex(k))) && Delimits(") VALUES " + k)
  {
    ValuesWord();
    LexFreeText("VALUES", "VALUES ", k);
    LexClose("VALUES " + k);
    assert ") VALUES " == ") " + "VALUES ";
    Assoc(") ", "VALUES ", k);
  }

  lemma {:induction false} LexClose(k: string)
    ensures Lex(") " + k) == Cons(RParen, Lex(k)) && Delimits(") " + k)
  {
    LexSpace(' ', k);
    LexOne(')', " " + k);
    assert ") " == ")" + " ";
    Assoc(")", " ", k);
  }

  lemma {:induction false} LexOpen(k: string)
    ensures Lex(" (" + k) == Cons(LParen, Lex(k)) && Delimits(" (" + k)
  {
    LexOne('(', k);
    LexSpace(' ', ['('] + k);
    assert " (" == " " + ['('];
    Assoc(" ", ['('], k);
  }

  lemma {:induction false} LexReturning(k: string)
    ensures Lex(" RETURNING " + k) == Cons(Word("RETURNING"), Lex(k))
  {
    ReturningWord();
    LexFreeText("RETURNING", "RETURNING ", k);
    LexSpace(' ', "RETURNING " + k);
    assert " RETURNING " == " " + "RETURNING ";
    Assoc(" ", "RETURNING ", k);
  }

  lemma {:induction false} LexConflict(k: string)
    ensures Lex("CONFLICT " + k) == Cons(Word("CONFLICT"), Lex(k))
  {
    ConflictWord();
    LexFreeText("CONFLICT", "CONFLICT ", k);
  }

  lemma {:induction false} OnSpelling()
    ensures Phrase(W1(ON)) + " " == " ON "
  {
  }

  lemma {:induction false} LexOnConflict(k: string)
    ensures Lex(" ON CONFLICT " + k) == Cons(Kw(ON), Cons(Word("CONFLICT"), Lex(k)))
  {
    LexConflict(k);
    OnSpelling();
    LexWords(W1(ON), "CONFLICT " + k);
    assert PhraseTokens(W1(ON), Lex("CONFLICT " + k)) == Cons(Kw(ON), Lex("CONFLICT " + k));
    assert " ON CONFLICT " == " ON " + "CONFLICT ";
    Assoc(" ON ", "CONFLICT ", k);
  }

  lemma {:induction false} LexDo(k: string)
    ensures Lex("DO " + k) == Cons(Word("DO"), Lex(k))
  {
    DoWord();
    LexFreeText("DO", "DO ", k);
  }

  lemma {:induction false} LexDoNothing(k: string)
    requires k == "" || k[0] == ' '
    ensures Lex("DO NOTHING" + k) == Cons(Word("DO"), Cons(Word("NOTHING"), Lex(k)))
  {
    NothingWord();
    LexSpell(Word("NOTHING"), k);
    LexDo("NOTHING" + k);
    assert "DO NOTHING" == "DO " + "NOTHING";
    Assoc("DO ", "NOTHING", k);
  }

  lemma {:induction false} LexSet(k: string)
    ensures Lex("SET " + k) == Cons(Word("SET"), Lex(k))
  {
    SetWord();
    LexFreeText("SET", "SET ", k);
  }

  lemma {:induction false} LexUpdateSet(k: string)
    ensures Lex("UPDATE SET " + k) == Cons(Word("UPDATE"), Cons(Word("SET"), Lex(k)))
  {
    LexSet(k);
    UpdateWord();
    LexFreeText("UPDATE", "UPDATE ", "SET " + k);
    assert "UPDATE SET " == "UPDATE " + "SET ";
    Assoc("UPDATE ", "SET ", k);
  }

  lemma {:induction false} LexDoUpdate(k: string)
    ensures Lex(") DO UPDATE SET " + k) ==
      Cons(RParen, Cons(Word("DO"), Cons(Word("UPDATE"), Cons(Word("SET"), Lex(k)))))
    ensures Delimits(") DO UPDATE SET " + k)
  {
    LexUpdateSet(k);
    LexDo("UPDATE SET " + k);
    LexClose("DO " + ("UPDATE SET " + k));
    DoUpdateText(k);
  }

  lemma {:induction false} DoUpdateText(k: string)
    ensures ") DO UPDATE SET " + k == ") " + ("DO " + ("UPDATE SET " + k))
  {
    assert ") DO UPDATE SET " == ") " + ("DO " + "UPDATE SET ");
    Assoc3(") ", "DO ", "UPDATE SET ", k);
  }

  // ---- the lists

  lemma {:induction false} RowLexes(m: Strict, row: List<Expr>, k: string)
    requires row.Cons? && ListOk(m, row)
    ensures Lex(("(" + JoinCsv(ExprTexts(row)) + ")") + k) == Cons(LParen, PrintList(row, Cons(RParen, Lex(k))))
  {
    var csv := JoinCsv(ExprTexts(row));
    LexOne(')', k);
    JoinedLex(m, row, ")" + k);
    LexOne('(', csv + (")" + k));
    Assoc("(" + csv, ")", k);
    Assoc("(", csv, ")" + k);
  }

  lemma {:induction false} RowsLex(m: Strict, rows: List<List<Expr>>, k: string)
    requires rows.Cons? && RowsOk(m, rows)
    ensures Lex(Intercalate(", ", ParenTexts(RowTexts(rows))) + k) == PrintRows(rows, Lex(k))
    decreases rows
  {
    var first := "(" + JoinCsv(ExprTexts(rows.head)) + ")";
    var rest := ParenTexts(RowTexts(rows.tail));
    assert RowTexts(rows)[1..] == RowTexts(rows.tail);
    assert ParenTexts(RowTexts(rows)) == [first] + rest;
    if rows.tail.Nil? {
      assert Intercalate(", ", [first]) == first;
      RowLexes(m, rows.head, k);
    } else {
      var t := Intercalate(", ", rest);
      RowsLex(m, rows.tail, k);
      LexComma(t + k);
      RowLexes(m, rows.head, ", " + (t + k));
      IntercalateCons(first, rest);
      Assoc(first, ", " + t, k);
      Assoc(", ", t, k);
    }
  }

  lemma {:induction false} PairLexes(m: Strict, p: Assignment, k: string)
    requires PairOk(m, p) && Delimits(k)
    ensures Lex((ToString(p.column) + " = " + ToString(p.value)) + k) == PrintPair(p, Lex(k))
  {
    var value := ToString(p.value) + k;
    StringLexes(m, p.value, k);
    LexThenSpace(Op("="), value);
    LexSpace(' ', "= " + value);
    assert "= " == Spell(Op("=")) + " ";
    assert " = " == " " + "= ";
    StringLexes(m, p.column, " = " + value);
    Assoc(" ", "= ", value);
    Assoc(ToString(p.column) + " = ", ToString(p.value), k);
    Assoc(ToString(p.column), " = ", value);
  }

  lemma {:induction false} PairsLex(m: Strict, pairs: List<Assignment>, k: string)
    requires pairs.Cons? && PairsOk(m, pairs) && Delimits(k)
    ensures Lex(Intercalate(", ", AssignmentTexts(pairs)) + k) == PrintPairs(pairs, Lex(k))
    decreases pairs
  {
    var first := ToString(pairs.head.column) + " = " + ToString(pairs.head.value);
    var rest := AssignmentTexts(pairs.tail);
    if pairs.tail.Nil? {
      assert Intercalate(", ", [first]) == first;
      PairLexes(m, pairs.head, k);
    } else {
      var t := Intercalate(", ", rest);
      PairsLex(m, pairs.tail, k);
      LexComma(t + k);
      PairLexes(m, pairs.head, ", " + (t + k));
      IntercalateCons(first, rest);
      Assoc(first, ", " + t, k);
      Assoc(", ", t, k);
    }
  }

  lemma {:induction false} NothingText(k: string)
    ensures ConflictText(ConflictClause(DoNothing)) + k == " ON CONFLICT " + ("DO NOTHING" + k)
  {
    NothingLiteral();
    Assoc(" ", "ON CONFLICT ", "DO NOTHING");
    Assoc(" ON CONFLICT ", "DO NOTHING", k);
  }

  lemma {:induction false} NothingLiteral()
    ensures "ON CONFLICT DO NOTHING" == "ON CONFLICT " + "DO NOTHING" && " ON CONFLICT " == " " + "ON CONFLICT "
  {
  }

  lemma {:induction false} ConflictLexes(m: Strict, c: Conflict, k: string)
    requires ConflictOk(m, c) && (k == "" || k[0] == ' ')
    ensures Lex(ConflictText(ConflictClause(c)) + k) == PrintConflict(c, Lex(k))
    ensures Delimits(ConflictText(ConflictClause(c)) + k)
  {
    match c
    case NoConflict => assert "" + k == k;
    case DoNothing =>
      NothingText(k);
      LexDoNothing(k);
      LexOnConflict("DO NOTHING" + k);
    case DoUpdate(target, pairs) => UpdateLexes(m, target, pairs, k);
  }

  lemma {:induction false} UpdateLexes(m: Strict, target: List<Expr>, pairs: List<Assignment>, k: string)
    requires target.Cons? && ListOk(m, target) && pairs.Cons? && PairsOk(m, pairs) && Delimits(k)
    ensures var text := ConflictText(ConflictClause(DoUpdate(target, pairs)));
            Lex(text + k) == PrintConflict(DoUpdate(target, pairs), Lex(k)) && Delimits(text + k)
  {
    var csv, updates := JoinCsv(ExprTexts(target)), JoinCsv(AssignmentTexts(pairs));
    var t := ") DO UPDATE SET " + (updates + k);
    JoinCsvNonEmpty(AssignmentTexts(pairs));
    PairsLex(m, pairs, k);
    LexDoUpdate(updates + k);
    JoinedLex(m, target, t);
    LexOne('(', csv + t);
    LexOnConflict("(" + (csv + t));
    UpdateText(csv, updates, k);
  }

  lemma {:induction false} UpdateText(csv: string, updates: string, k: string)
    ensures (" " + ("ON CONFLICT (" + csv + ") DO UPDATE SET " + updates)) + k
         == " ON CONFLICT " + ("(" + (csv + (") DO UPDATE SET " + (updates + k))))
  {
    var t := ") DO UPDATE SET " + (updates + k);
    assert " " + "ON CONFLICT (" == " ON CONFLICT " + "(";
    Assoc("ON CONFLICT (" + csv, ") DO UPDATE SET ", updates);
    Assoc("ON CONFLICT (", csv, ") DO UPDATE SET " + updates);
    Assoc(" ", "ON CONFLICT (", csv + (") DO UPDATE SET " + updates));
    Assoc(" ON CONFLICT ", "(", csv + (") DO UPDATE SET " + updates));
    Assoc4(" ON CONFLICT ", "(", csv, ") DO UPDATE SET " + updates, k);
    Assoc(") DO UPDATE SET ", updates, k);
  }

  lemma {:induction false} ReturningLexes(m: Strict, o: Option<List<Item>>)
    requires o.Some? ==> o.value.Cons? && ItemsOk(m, o.value)
    ensures var items := if o.Some? then JoinCsv(ItemTexts(o.value)) else "";
            Lex(ReturningText(items)) == PrintReturning(o, Nil) &&
            (ReturningText(items) == "" || ReturningText(items)[0] == ' ')
  {
    if o.Some? {
      var csv := JoinCsv(ItemTexts(o.value));
      ItemsLex(m, OneLine, o.value, "");
      assert Csv(OneLine, ItemTexts(o.value)) + "" == [' '] + csv;
      LexSpace(' ', csv);
      LexReturning(csv);
      ItemsNonEmpty(m, o.value);
    }
  }

  lemma {:induction false} ItemsNonEmpty(m: Strict, items: List<Item>)
    requires items.Cons? && ItemsOk(m, items)
    ensures JoinCsv(ItemTexts(items)) != ""
  {
    NonEmpty(m, items.head.e);
    JoinCsvNonEmpty(ItemTexts(items));
  }

  /** The characters of an INSERT are read as its printed tokens. */
  lemma {:induction false} InsertLexes(m: Strict, i: Insert)
    requires InsertOk(m, i)
    ensures Lex(TextOf(i)) == PrintInsert(i)
  {
    var returning := ReturningText(if i.returning.Some? then JoinCsv(ItemTexts(i.returning.value)) else "");
    var conflict := ConflictText(ConflictClause(i.conflict));
    var rows := Intercalate(", ", ParenTexts(RowTexts(i.rows)));
    var csv := JoinCsv(ExprTexts(i.columns));
    var t3 := rows + (conflict + returning);
    var t2 := ") VALUES " + t3;
    var t1 := " (" + (csv + t2);
    ReturningLexes(m, i.returning);
    ConflictLexes(m, i.conflict, returning);
    RowsLex(m, i.rows, conflict + returning);
    LexValues(t3);
    JoinedLex(m, i.columns, t2);
    LexOpen(csv + t2);
    RelLexes(m, i.into, t1);
    LexInsertInto(RelText(i.into) + t1);
    TextSplit(Bracketed(i.into), csv, rows, conflict, returning);
  }

  lemma {:induction false} TextSplit(into: string, csv: string, rows: string, conflict: string, returning: string)
    ensures "INSERT INTO " + into + " (" + csv + ") VALUES " + rows + conflict + returning
         == "INSERT INTO " + (into + (" (" + (csv + (") VALUES " + (rows + (conflict + returning))))))
  {
    var t := rows + (conflict + returning);
    Assoc("INSERT INTO " + into + " (" + csv + ") VALUES " + rows, conflict, returning);
    Assoc("INSERT INTO " + into + " (" + csv + ") VALUES ", rows, conflict + returning);
    Assoc("INSERT INTO " + into + " (" + csv, ") VALUES ", t);
    Assoc("INSERT INTO " + into + " (", csv, ") VALUES " + t);
    Assoc("INSERT INTO " + into, " (", csv + (") VALUES " + t));
    Assoc("INSERT INTO ", into, " (" + (csv + (") VALUES " + t)));
  }

  /** InsertInto::ToString: reading the text gives back the table, the columns, every row,
      the conflict clause and RETURNING. */
  lemma {:induction false} TextRoundTrip(d: Dialect, i: Insert)
    requires d.Valid() && InsertOk(Reading(d), i)
    ensures ParseInsert(d, Lex(TextOf(i))) == Some(InsertMeaning(i))
  {
    InsertLexes(Reading(d), i);
    InsertReads(d, i);
  }

  // ---- whole runs of the builder

  /** Where the fields come from: each is as it was, or one call gave it whole. */
  lemma {:induction false} RunMade(cols0: List<Expr>, rows0: List<List<Expr>>, calls: seq<Call>)
      returns (cols: List<Expr>, rows: List<List<Expr>>)
    requires Builder.Run(State(ExprTexts(cols0), RowTexts(rows0)), calls).Some?
    ensures Builder.Run(State(ExprTexts(cols0), RowTexts(rows0)), calls).value == State(ExprTexts(cols), RowTexts(rows))
    ensures cols == cols0 || SetColumns(cols) in calls
    ensures rows == rows0 || exists c :: c in calls && !c.SetColumns? && RowsIn(c) == rows
    decreases |calls|
  {
    if calls == [] {
      return cols0, rows0;
    }
    var c, rest := calls[0], calls[1..];
    var cols1 := if c.SetColumns? then c.columns else cols0;
    var rows1 := if c.SetColumns? then rows0 else RowsIn(c);
    var s, s1 := State(ExprTexts(cols0), RowTexts(rows0)), State(ExprTexts(cols1), RowTexts(rows1));
    if c.SetValues? { OneRow(c.values); }
    if Apply(s, c).None? { RunFails(s, calls); }
    assert Step(s, c) == s1;
    RunFirst(s, calls, s1);
    cols, rows := RunMade(cols1, rows1, rest);
    assert c in calls;
  }

  predicate ListsOk(m: Rules, rows: List<List<Expr>>) {
    match rows
    case Nil => true
    case Cons(row, rest) => ListOk(m, row) && ListsOk(m, rest)
  }

  predicate CallOk(m: Rules, c: Call) {
    match c
    case SetColumns(cols) => ListOk(m, cols)
    case SetValues(vals) => ListOk(m, vals)
    case SetRows(rows) => ListsOk(m, rows)
  }

  /** The arity check leaves no row empty. */
  lemma {:induction false} RowsFilled(m: Rules, rows: List<List<Expr>>, n: nat)
    requires ListsOk(m, rows) && n > 0 && forall row :: row in RowTexts(rows) ==> |row| == n
    ensures RowsOk(m, rows)
  {
    if rows.Cons? {
      assert ExprTexts(rows.head) in RowTexts(rows);
      assert forall row :: row in RowTexts(rows.tail) ==> row in RowTexts(rows);
      RowsFilled(m, rows.tail, n);
    }
  }

  function ReturnedText(o: Option<List<Item>>): string {
    if o.Some? then JoinCsv(ItemTexts(o.value)) else ""
  }

  /** Whatever calls the builder was given, what it prints is read back as the columns and
      rows of one call each, with the clauses given last. */
  lemma {:induction false} RunRoundTrip(d: Dialect, into: Rel, calls: seq<Call>, conflict: Conflict,
                                        returned: Option<List<Item>>) returns (i: Insert)
    requires d.Valid() && (into.Table? || into.Alias?) && RelOk(Reading(d), into)
    requires Builder.Run(START, calls).Some?
    requires exists c :: c in calls && c.SetColumns? && c.columns.Cons?
    requires exists c :: c in calls && (c.SetValues? || (c.SetRows? && c.rows.Cons?))
    requires forall c :: c in calls ==> CallOk(Reading(d), c)
    requires ConflictOk(Reading(d), conflict)
    requires returned.Some? ==> returned.value.Cons? && ItemsOk(Reading(d), returned.value)
    ensures i.into == into && i.conflict == conflict && i.returning == returned
    ensures SetColumns(i.columns) in calls && exists c :: c in calls && !c.SetColumns? && RowsIn(c) == i.rows
    ensures EachHas(i.rows, Len(i.columns)) && Complete(Builder.Run(START, calls).value)
    ensures var text := InsertText(Bracketed(into), Builder.Run(START, calls).value, ConflictClause(conflict),
                                   ReturnedText(returned));
            ParseInsert(d, Lex(text)) == Some(InsertMeaning(i))
  {
    var m := Reading(d);
    assert ExprTexts(Nil) == [] && RowTexts(Nil) == [];
    PrintsExact(calls);
    var cols, rows := RunMade(Nil, Nil, calls);
    i := Insert(into, cols, rows, conflict, returned);
    var c :| c in calls && !c.SetColumns? && RowsIn(c) == rows;
    assert CallOk(m, c) && CallOk(m, SetColumns(cols));
    TextsCounted(cols);
    RowsCounted(rows, Len(cols));
    RowsFilled(m, rows, Len(cols));
    TextRoundTrip(d, i);
  }
}
