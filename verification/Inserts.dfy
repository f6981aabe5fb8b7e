/** INSERT statements: their tokens, and a reader for them. INSERT, VALUES and their like are
    keywords of this statement only, so to the lexer they are words. */
module Inserts {
  import opened Basics
  import opened Precedence
  import opened Tokens
  import opened Syntax
  import opened Printer
  import opened Grammar
  import opened WellFormed
  import opened ReadBack

  /** One column and the value it is updated to. */
  datatype Assignment = Assignment(column: Expr, value: Expr)

  datatype Conflict = NoConflict | DoNothing | DoUpdate(target: List<Expr>, pairs: List<Assignment>)

  datatype Insert = Insert(into: Rel, columns: List<Expr>, rows: List<List<Expr>>, conflict: Conflict,
                           returning: Option<List<Item>>)

  // ---- tokens

  function PrintRows(rows: List<List<Expr>>, k: Tokens): Tokens {
    match rows
    case Nil => k
    case Cons(row, Nil) => Cons(LParen, PrintList(row, Cons(RParen, k)))
    case Cons(row, rest) => Cons(LParen, PrintList(row, Cons(RParen, Cons(Comma, PrintRows(rest, k)))))
  }

  function PrintPair(p: Assignment, k: Tokens): Tokens {
    PrintIn(p.column, kExtract, Cons(Op("="), PrintIn(p.value, kExtract, k)))
  }

  function PrintPairs(pairs: List<Assignment>, k: Tokens): Tokens {
    match pairs
    case Nil => k
    case Cons(p, rest) => PrintPair(p, if rest.Nil? then k else Cons(Comma, PrintPairs(rest, k)))
  }

  function PrintConflict(c: Conflict, k: Tokens): Tokens {
    match c
    case NoConflict => k
    case DoNothing => Cons(Kw(ON), Cons(Word("CONFLICT"), Cons(Word("DO"), Cons(Word("NOTHING"), k))))
    case DoUpdate(target, pairs) =>
      var update := Cons(Word("DO"), Cons(Word("UPDATE"), Cons(Word("SET"), PrintPairs(pairs, k))));
      Cons(Kw(ON), Cons(Word("CONFLICT"), Cons(LParen, PrintList(target, Cons(RParen, update)))))
  }

  function PrintReturning(o: Option<List<Item>>, k: Tokens): Tokens {
    match o
    case None => k
    case Some(items) => Cons(Word("RETURNING"), PrintItems(items, k))
  }

  function PrintInsert(i: Insert): Tokens {
    var k := PrintRows(i.rows, PrintConflict(i.conflict, PrintReturning(i.returning, Nil)));
    var list := PrintList(i.columns, Cons(RParen, Cons(Word("VALUES"), k)));
    Cons(Word("INSERT"), Cons(Word("INTO"), PrintRel(i.into, Cons(LParen, list))))
  }

  // ---- reading

  function Rows(d: Dialect, ts: Tokens): (r: Res<List<List<Expr>>>)
    ensures r.Ok? ==> Len(r.rest) < Len(ts)
    decreases Len(ts)
  {
    var (_, ts1) :- Skip(LParen, ts);
    var (row, ts2) :- ExprList(d, ts1);
    var (_, ts3) :- Skip(RParen, ts2);
    if At(ts3, Comma) then
      var (rows, ts4) :- Rows(d, ts3.tail);
      Ok(Cons(row, rows), ts4)
    else Ok(Cons(row, Nil), ts3)
  }

  /** A column to be set is one name. */
  function Pairs(d: Dialect, ts: Tokens): (r: Res<List<Assignment>>)
    ensures r.Ok? ==> Len(r.rest) < Len(ts)
    decreases Len(ts)
  {
    var (name, ts1) :- NameAt(ts);
    var (_, ts2) :- Skip(Op("="), ts1);
    var (value, ts3) :- Operand(d, kExtract, ts2);
    if At(ts3, Comma) then
      var (pairs, ts4) :- Pairs(d, ts3.tail);
      Ok(Cons(Assignment(Leaf(name), value), pairs), ts4)
    else Ok(Cons(Assignment(Leaf(name), value), Nil), ts3)
  }

  function ConflictAt(d: Dialect, ts: Tokens): (r: Res<Conflict>) {
    if !At(ts, Kw(ON)) then Ok(NoConflict, ts)
    else if At2(ts.tail, Word("CONFLICT"), LParen) then UpdateAt(d, ts.tail.tail.tail)
    else if At3(ts.tail, Word("CONFLICT"), Word("DO"), Word("NOTHING")) then Ok(DoNothing, ts.tail.tail.tail.tail)
    else Fail
  }

  function UpdateAt(d: Dialect, ts: Tokens): (r: Res<Conflict>) {
    var (target, ts1) :- ExprList(d, ts);
    var (_, ts2) :- Skip(RParen, ts1);
    if At3(ts2, Word("DO"), Word("UPDATE"), Word("SET")) then
      var (pairs, ts3) :- Pairs(d, ts2.tail.tail.tail);
      Ok(DoUpdate(target, pairs), ts3)
    else Fail
  }

  function ReturningAt(d: Dialect, ts: Tokens): (r: Res<Option<List<Item>>>) {
    if At(ts, Word("RETURNING")) then
      var (items, ts1) :- Items(d, ts.tail);
      Ok(Some(items), ts1)
    else Ok(None, ts)
  }

  function ReadInsert(d: Dialect, ts: Tokens): (r: Res<Insert>) {
    if At2(ts, Word("INSERT"), Word("INTO")) then
      var (into, ts1) :- RelOperand(d, ts.tail.tail);
      var (_, ts2) :- Skip(LParen, ts1);
      InsertColumns(d, into, ts2)
    else Fail
  }

  function InsertColumns(d: Dialect, into: Rel, ts: Tokens): (r: Res<Insert>) {
    var (columns, ts1) :- ExprList(d, ts);
    if At2(ts1, RParen, Word("VALUES")) then InsertValues(d, into, columns, ts1.tail.tail) else Fail
  }

  function InsertValues(d: Dialect, into: Rel, columns: List<Expr>, ts: Tokens): (r: Res<Insert>) {
    var (rows, ts1) :- Rows(d, ts);
    var (conflict, ts2) :- ConflictAt(d, ts1);
    var (returning, ts3) :- ReturningAt(d, ts2);
    Ok(Insert(into, columns, rows, conflict, returning), ts3)
  }

  function ParseInsert(d: Dialect, ts: Tokens): Option<Insert> {
    match ReadInsert(d, ts)
    case Ok(i, Nil) => Some(i)
    case _ => None
  }

  // ---- well-formed statements and their meaning

  predicate RowsOk(m: Rules, rows: List<List<Expr>>) {
    match rows
    case Nil => true
    case Cons(row, rest) => row.Cons? && ListOk(m, row) && RowsOk(m, rest)
  }

  predicate PairOk(m: Rules, p: Assignment) {
    p.column.Leaf? && IsName(p.column.tok) && ExprOk(m, p.column) && ExprOk(m, p.value)
  }

  predicate PairsOk(m: Rules, pairs: List<Assignment>) {
    match pairs
    case Nil => true
    case Cons(p, rest) => PairOk(m, p) && PairsOk(m, rest)
  }

  predicate ConflictOk(m: Rules, c: Conflict) {
    c.DoUpdate? ==> c.target.Cons? && ListOk(m, c.target) && c.pairs.Cons? && PairsOk(m, c.pairs)
  }

  predicate InsertOk(m: Rules, i: Insert) {
    (i.into.Table? || i.into.Alias?) && RelOk(m, i.into) && i.columns.Cons? && ListOk(m, i.columns) &&
    i.rows.Cons? && RowsOk(m, i.rows) && ConflictOk(m, i.conflict) &&
    (i.returning.Some? ==> i.returning.value.Cons? && ItemsOk(m, i.returning.value))
  }

  function RowsMeaning(rows: List<List<Expr>>): List<List<Expr>> {
    match rows
    case Nil => Nil
    case Cons(row, rest) => Cons(ListMeaning(row), RowsMeaning(rest))
  }

  function PairsMeaning(pairs: List<Assignment>): List<Assignment> {
    match pairs
    case Nil => Nil
    case Cons(p, rest) => Cons(Assignment(Meaning(p.column), Meaning(p.value)), PairsMeaning(rest))
  }

  function ConflictMeaning(c: Conflict): Conflict {
    match c
    case DoUpdate(target, pairs) => DoUpdate(ListMeaning(target), PairsMeaning(pairs))
    case _ => c
  }

  function InsertMeaning(i: Insert): Insert {
    Insert(RelMeaning(i.into), ListMeaning(i.columns), RowsMeaning(i.rows), ConflictMeaning(i.conflict),
           if i.returning.Some? then Some(ItemsMeaning(i.returning.value)) else None)
  }

  // ---- reading back

  lemma {:induction false} RowsRead(d: Dialect, rows: List<List<Expr>>, k: Tokens)
    requires d.Valid() && rows.Cons? && RowsOk(Reading(d), rows) && !At(k, Comma)
    ensures Rows(d, PrintRows(rows, k)) == Ok(RowsMeaning(rows), k)
    decreases rows
  {
    var k1 := if rows.tail.Nil? then k else Cons(Comma, PrintRows(rows.tail, k));
    ListReads(d, rows.head, Cons(RParen, k1));
    if rows.tail.Cons? { RowsRead(d, rows.tail, k); }
    RowsStep(d, PrintList(rows.head, Cons(RParen, k1)), ListMeaning(rows.head), k1);
  }

  lemma {:induction false} RowsStep(d: Dialect, ts: Tokens, row: List<Expr>, k: Tokens)
    requires ExprList(d, ts) == Ok(row, Cons(RParen, k))
    ensures !At(k, Comma) ==> Rows(d, Cons(LParen, ts)) == Ok(Cons(row, Nil), k)
    ensures At(k, Comma) && Rows(d, k.tail).Ok? ==>
      Rows(d, Cons(LParen, ts)) == Ok(Cons(row, Rows(d, k.tail).value), Rows(d, k.tail).rest)
  {
  }

  /** What may follow the last value of SET. */
  predicate Ends(d: Dialect, k: Tokens) {
    ContAt(d, k) == NoCont && !At(k, LParen) && !At(k, Comma)
  }

  lemma {:induction false} PairsRead(d: Dialect, pairs: List<Assignment>, k: Tokens)
    requires d.Valid() && pairs.Cons? && PairsOk(Reading(d), pairs) && Ends(d, k)
    ensures Pairs(d, PrintPairs(pairs, k)) == Ok(PairsMeaning(pairs), k)
    decreases pairs
  {
    if pairs.tail.Nil? {
      PairReads(d, pairs.head, k);
    } else {
      CommaStops(d, PrintPairs(pairs.tail, k));
      PairReads(d, pairs.head, Cons(Comma, PrintPairs(pairs.tail, k)));
      PairsRead(d, pairs.tail, k);
    }
  }

  lemma {:induction false} CommaStops(d: Dialect, k: Tokens)
    ensures ContAt(d, Cons(Comma, k)) == NoCont
  {
  }

  lemma {:induction false} PairReads(d: Dialect, p: Assignment, k: Tokens)
    requires d.Valid() && PairOk(Reading(d), p) && ContAt(d, k) == NoCont && !At(k, LParen)
    ensures var r := Pairs(d, PrintPair(p, k));
            var q := Assignment(Meaning(p.column), Meaning(p.value));
            (!At(k, Comma) ==> r == Ok(Cons(q, Nil), k)) &&
            (At(k, Comma) && Pairs(d, k.tail).Ok? ==>
               r == Ok(Cons(q, Pairs(d, k.tail).value), Pairs(d, k.tail).rest))
  {
    var ts := PrintIn(p.value, kExtract, k);
    StoppedReads(d, p.value, k);
    LeafPrints(p.column, Cons(Op("="), ts));
    PairsStep(d, p.column.tok, ts, Meaning(p.value), k);
  }

  lemma {:induction false} LeafPrints(e: Expr, k: Tokens)
    requires e.Leaf?
    ensures PrintIn(e, kExtract, k) == Cons(e.tok, k) && Meaning(e) == Leaf(e.tok)
  {
  }

  lemma {:induction false} PairsStep(d: Dialect, name: Token, ts: Tokens, value: Expr, k: Tokens)
    requires IsName(name) && Operand(d, kExtract, ts) == Ok(value, k)
    ensures var r := Pairs(d, Cons(name, Cons(Op("="), ts)));
            var p := Assignment(Leaf(name), value);
            (!At(k, Comma) ==> r == Ok(Cons(p, Nil), k)) &&
            (At(k, Comma) && Pairs(d, k.tail).Ok? ==>
               r == Ok(Cons(p, Pairs(d, k.tail).value), Pairs(d, k.tail).rest))
  {
  }

  lemma {:induction false} ConflictReads(d: Dialect, c: Conflict, k: Tokens)
    requires d.Valid() && ConflictOk(Reading(d), c) && Ends(d, k) && !At(k, Kw(ON))
    ensures ConflictAt(d, PrintConflict(c, k)) == Ok(ConflictMeaning(c), k)
    ensures !At(PrintConflict(c, k), Comma)
  {
    if c.DoUpdate? {
      var ts := PrintPairs(c.pairs, k);
      var update := Cons(Word("DO"), Cons(Word("UPDATE"), Cons(Word("SET"), ts)));
      ListReads(d, c.target, Cons(RParen, update));
      PairsRead(d, c.pairs, k);
      UpdateStep(d, PrintList(c.target, Cons(RParen, update)), ListMeaning(c.target), ts, PairsMeaning(c.pairs), k);
    }
  }

  lemma {:induction false} UpdateStep(d: Dialect, ts: Tokens, target: List<Expr>, ts1: Tokens,
                                      pairs: List<Assignment>, k: Tokens)
    requires ExprList(d, ts) == Ok(target, Cons(RParen, Cons(Word("DO"), Cons(Word("UPDATE"), Cons(Word("SET"), ts1)))))
    requires Pairs(d, ts1) == Ok(pairs, k)
    ensures ConflictAt(d, Cons(Kw(ON), Cons(Word("CONFLICT"), Cons(LParen, ts)))) == Ok(DoUpdate(target, pairs), k)
  {
    UpdateReads(d, ts, target, ts1, pairs, k);
    ConflictUpdate(d, ts);
  }

  lemma {:induction false} UpdateReads(d: Dialect, ts: Tokens, target: List<Expr>, ts1: Tokens,
                                       pairs: List<Assignment>, k: Tokens)
    requires ExprList(d, ts) == Ok(target, Cons(RParen, Cons(Word("DO"), Cons(Word("UPDATE"), Cons(Word("SET"), ts1)))))
    requires Pairs(d, ts1) == Ok(pairs, k)
    ensures UpdateAt(d, ts) == Ok(DoUpdate(target, pairs), k)
  {
  }

  lemma {:induction false} ConflictUpdate(d: Dialect, ts: Tokens)
    ensures ConflictAt(d, Cons(Kw(ON), Cons(Word("CONFLICT"), Cons(LParen, ts)))) == UpdateAt(d, ts)
  {
  }

  lemma {:induction false} ReturningReads(d: Dialect, o: Option<List<Item>>)
    requires d.Valid() && (o.Some? ==> o.value.Cons? && ItemsOk(Reading(d), o.value))
    ensures ReturningAt(d, PrintReturning(o, Nil)) ==
      Ok(if o.Some? then Some(ItemsMeaning(o.value)) else None, Nil)
    ensures Ends(d, PrintReturning(o, Nil)) && !At(PrintReturning(o, Nil), Kw(ON))
  {
    if o.Some? {
      ItemsRead(d, o.value, Nil);
      ReturningStep(d, PrintItems(o.value, Nil), ItemsMeaning(o.value), Nil);
      WordStops(d, "RETURNING", PrintItems(o.value, Nil));
    }
  }

  lemma {:induction false} WordStops(d: Dialect, name: string, k: Tokens)
    ensures Ends(d, Cons(Word(name), k))
  {
  }

  lemma {:induction false} ReturningStep(d: Dialect, ts: Tokens, items: List<Item>, k: Tokens)
    requires Items(d, ts) == Ok(items, k)
    ensures ReturningAt(d, Cons(Word("RETURNING"), ts)) == Ok(Some(items), k)
  {
  }

  lemma {:induction false} InsertStep(d: Dialect, ts: Tokens, into: Rel, ts1: Tokens)
    requires RelOperand(d, ts) == Ok(into, Cons(LParen, ts1))
    ensures ReadInsert(d, Cons(Word("INSERT"), Cons(Word("INTO"), ts))) == InsertColumns(d, into, ts1)
  {
  }

  lemma {:induction false} ColumnsStep(d: Dialect, into: Rel, ts: Tokens, columns: List<Expr>, ts1: Tokens)
    requires ExprList(d, ts) == Ok(columns, Cons(RParen, Cons(Word("VALUES"), ts1)))
    ensures InsertColumns(d, into, ts) == InsertValues(d, into, columns, ts1)
  {
  }

  lemma {:induction false} ValuesStep(d: Dialect, into: Rel, columns: List<Expr>, ts: Tokens, rows: List<List<Expr>>,
                                      ts1: Tokens, c: Conflict, ts2: Tokens, o: Option<List<Item>>)
    requires Rows(d, ts) == Ok(rows, ts1) && ConflictAt(d, ts1) == Ok(c, ts2) && ReturningAt(d, ts2) == Ok(o, Nil)
    ensures InsertValues(d, into, columns, ts) == Ok(Insert(into, columns, rows, c, o), Nil)
  {
  }

  lemma {:induction false} InsertPrints(i: Insert)
    ensures var ts2 := PrintRows(i.rows, PrintConflict(i.conflict, PrintReturning(i.returning, Nil)));
            var ts1 := PrintList(i.columns, Cons(RParen, Cons(Word("VALUES"), ts2)));
            PrintInsert(i) == Cons(Word("INSERT"), Cons(Word("INTO"), PrintRel(i.into, Cons(LParen, ts1))))
  {
  }

  lemma {:induction false} ValuesRead(d: Dialect, i: Insert)
    requires d.Valid() && InsertOk(Reading(d), i)
    ensures var m := InsertMeaning(i);
            var ts := PrintRows(i.rows, PrintConflict(i.conflict, PrintReturning(i.returning, Nil)));
            InsertValues(d, m.into, m.columns, ts) == Ok(m, Nil)
  {
    var ts2 := PrintReturning(i.returning, Nil);
    var ts1 := PrintConflict(i.conflict, ts2);
    ReturningReads(d, i.returning);
    ConflictReads(d, i.conflict, ts2);
    RowsRead(d, i.rows, ts1);
    var m := InsertMeaning(i);
    ValuesStep(d, m.into, m.columns, PrintRows(i.rows, ts1), m.rows, ts1, m.conflict, ts2, m.returning);
  }

  lemma {:induction false} ColumnsRead(d: Dialect, i: Insert)
    requires d.Valid() && InsertOk(Reading(d), i)
    ensures var ts2 := PrintRows(i.rows, PrintConflict(i.conflict, PrintReturning(i.returning, Nil)));
            var ts1 := PrintList(i.columns, Cons(RParen, Cons(Word("VALUES"), ts2)));
            InsertColumns(d, RelMeaning(i.into), ts1) == Ok(InsertMeaning(i), Nil)
  {
    var ts2 := PrintRows(i.rows, PrintConflict(i.conflict, PrintReturning(i.returning, Nil)));
    var ts1 := PrintList(i.columns, Cons(RParen, Cons(Word("VALUES"), ts2)));
    ListReads(d, i.columns, Cons(RParen, Cons(Word("VALUES"), ts2)));
    ColumnsStep(d, RelMeaning(i.into), ts1, ListMeaning(i.columns), ts2);
    ValuesRead(d, i);
  }

  /** Token level: an INSERT is read back with its columns, rows and clauses. */
  lemma {:induction false} InsertReads(d: Dialect, i: Insert)
    requires d.Valid() && InsertOk(Reading(d), i)
    ensures ParseInsert(d, PrintInsert(i)) == Some(InsertMeaning(i))
  {
    var ts2 := PrintRows(i.rows, PrintConflict(i.conflict, PrintReturning(i.returning, Nil)));
    var ts1 := PrintList(i.columns, Cons(RParen, Cons(Word("VALUES"), ts2)));
    NamedReads(d, i.into, Cons(LParen, ts1));
    InsertPrints(i);
    InsertStep(d, PrintRel(i.into, Cons(LParen, ts1)), RelMeaning(i.into), ts1);
    ColumnsRead(d, i);
  }
}
