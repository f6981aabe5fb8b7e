/** src/insert_into.cpp: the INSERT builder and its arity checks. */
module InsertBuilding {
  import opened Basics
  import opened Syntax
  import opened Text
  import opened Render
  import opened RenderAll
  import opened Inserts

  /** Column and value texts as rendered so far; an empty list still counts as unset. */
  datatype State = State(columns: seq<string>, rows: seq<seq<string>>)

  const START := State([], [])

  datatype Call =
    | SetColumns(columns: List<Expr>)
    | SetValues(values: List<Expr>)
    | SetRows(rows: List<List<Expr>>)

  function RowTexts(rows: List<List<Expr>>): seq<seq<string>> {
    match rows
    case Nil => []
    case Cons(row, rest) => [ExprTexts(row)] + RowTexts(rest)
  }

  lemma {:induction false} OneRow(vals: List<Expr>)
    ensures RowTexts(Cons(vals, Nil)) == [ExprTexts(vals)]
  {
    assert RowTexts(Nil) == [];
  }

  lemma {:induction false} PushRow(texts: seq<seq<string>>, rows: List<List<Expr>>)
    requires rows.Cons?
    ensures texts + RowTexts(rows) == (texts + [ExprTexts(rows.head)]) + RowTexts(rows.tail)
  {
    Regroup(texts, [ExprTexts(rows.head)], RowTexts(rows.tail));
  }

  /** Nothing to compare yet, or every row has one value for each column. */
  predicate SameArity(s: State) {
    s.columns == [] || s.rows == [] || forall row :: row in s.rows ==> |row| == |s.columns|
  }

  /** The fields after one call, whether it returns or throws. */
  function Step(s: State, c: Call): State {
    match c
    case SetColumns(cols) => if s.columns != [] then s else s.(columns := ExprTexts(cols))
    case SetValues(vals) => if s.rows != [] then s else s.(rows := [ExprTexts(vals)])
    case SetRows(rows) => if s.rows != [] then s else s.(rows := RowTexts(rows))
  }

  predicate IsSet(s: State, c: Call) {
    if c.SetColumns? then s.columns != [] else s.rows != []
  }

  /** One call; None where it throws. */
  function Apply(s: State, c: Call): Option<State> {
    if !IsSet(s, c) && SameArity(Step(s, c)) then Some(Step(s, c)) else None
  }

  function Run(s: State, calls: seq<Call>): Option<State>
    decreases |calls|
  {
    if calls == [] then Some(s)
    else match Apply(s, calls[0])
         case None => None
         case Some(s1) => Run(s1, calls[1..])
  }

  // ---- the text

  predicate Complete(s: State) {
    s.columns != [] && s.rows != [] && SameArity(s)
  }

  function ParenTexts(rows: seq<seq<string>>): seq<string> {
    if rows == [] then [] else ["(" + JoinCsv(rows[0]) + ")"] + ParenTexts(rows[1..])
  }

  function ConflictText(conflict: string): string {
    if conflict == "" then "" else " " + conflict
  }

  function ReturningText(returning: string): string {
    if returning == "" then "" else " RETURNING " + returning
  }

  function InsertText(into: string, s: State, conflict: string, returning: string): string {
    "INSERT INTO " + into + " (" + JoinCsv(s.columns) + ") VALUES " + Intercalate(", ", ParenTexts(s.rows)) +
    ConflictText(conflict) + ReturningText(returning)
  }

  lemma {:induction false} ParenAt(rows: seq<seq<string>>, i: nat)
    requires i < |rows|
    ensures |ParenTexts(rows)| == |rows| && ParenTexts(rows)[i] == "(" + JoinCsv(rows[i]) + ")"
  {
    if |rows| > 1 { ParenAt(rows[1..], if i > 0 then i - 1 else 0); }
  }

  /** The loop over rows, one step: `s` holds the rows before it. */
  lemma {:induction false} RowStep(s: string, sep: string, row: seq<string>, rest: seq<seq<string>>)
    ensures (s + sep + ("(" + JoinCsv(row) + ")")) + After(", ", ParenTexts(rest))
         == s + (sep + ("(" + JoinCsv(row) + ")") + After(", ", ParenTexts(rest)))
    ensures ParenTexts([row] + rest) == ["(" + JoinCsv(row) + ")"] + ParenTexts(rest)
  {
  }

  method EnsureSameArity(columns: seq<string>, rows: seq<seq<string>>) returns (ok: bool)
    ensures ok <==> columns == [] || rows == [] || forall row :: row in rows ==> |row| == |columns|
  {
    if columns == [] || rows == [] {
      return true;
    }
    for i := 0 to |rows|
      invariant forall j :: 0 <= j < i ==> |rows[j]| == |columns|
    {
      if |rows[i]| != |columns| {
        assert rows[i] in rows;
        return false;
      }
    }
    ok := true;
  }

  /** RenderBinary with the equals sign. */
  function AssignmentTexts(pairs: List<Assignment>): seq<string> {
    match pairs
    case Nil => []
    case Cons(p, rest) => [ToString(p.column) + " = " + ToString(p.value)] + AssignmentTexts(rest)
  }

  /** The text of the field on_conflict_. */
  function ConflictClause(c: Conflict): string {
    match c
    case NoConflict => ""
    case DoNothing => "ON CONFLICT DO NOTHING"
    case DoUpdate(target, pairs) =>
      "ON CONFLICT (" + JoinCsv(ExprTexts(target)) + ") DO UPDATE SET " + JoinCsv(AssignmentTexts(pairs))
  }

  /** The loop of Rows. */
  method RenderRows(more: List<List<Expr>>) returns (rows: seq<seq<string>>)
    ensures rows == RowTexts(more)
  {
    rows := [];
    var rest := more;
    while rest.Cons?
      invariant rows + RowTexts(rest) == RowTexts(more)
      decreases rest
    {
      var row := RenderExprs(rest.head);
      PushRow(rows, rest);
      rows := rows + [row];
      rest := rest.tail;
    }
  }

  /** The rows, in brackets and separated, behind `head`. */
  method AppendRows(head: string, rows: seq<seq<string>>) returns (s: string)
    requires rows != []
    ensures s == head + Intercalate(", ", ParenTexts(rows))
  {
    s := head;
    for i := 0 to |rows|
      invariant i == 0 ==> s == head
      invariant i > 0 ==> s + After(", ", ParenTexts(rows[i..])) == head + Intercalate(", ", ParenTexts(rows))
    {
      RowStep(s, if i == 0 then "" else ", ", rows[i], rows[i + 1..]);
      assert rows[i..] == [rows[i]] + rows[i + 1..];
      if i != 0 {
        s := s + ", ";
      }
      var row := JoinCsvLoop(rows[i]);
      s := s + ("(" + row + ")");
    }
  }

  class InsertInto {
    var into: string
    var columns: seq<string>
    var rows: seq<seq<string>>
    var onConflict: string
    var returning: string

    ghost function Told(): State
      reads this
    {
      State(columns, rows)
    }

    constructor (tbl: Rel)
      ensures into == Bracketed(tbl) && Told() == START && onConflict == "" && returning == ""
    {
      into, columns, rows, onConflict, returning := Bracketed(tbl), [], [], "", "";
    }

    /** The fields are assigned before the arity is checked. */
    method Columns(cols: List<Expr>) returns (ok: bool)
      modifies `columns
      ensures ok == Apply(old(Told()), SetColumns(cols)).Some? && Told() == Step(old(Told()), SetColumns(cols))
      ensures ok <==>
        old(columns) == [] && (columns == [] || rows == [] || forall row :: row in rows ==> |row| == |columns|)
    {
      if columns != [] {
        return false;
      }
      columns := RenderExprs(cols);
      ok := EnsureSameArity(columns, rows);
    }

    method Values(vals: List<Expr>) returns (ok: bool)
      modifies `rows
      ensures ok == Apply(old(Told()), SetValues(vals)).Some? && Told() == Step(old(Told()), SetValues(vals))
      ensures ok <==>
        old(rows) == [] && (columns == [] || rows == [] || forall row :: row in rows ==> |row| == |columns|)
    {
      if rows != [] {
        return false;
      }
      var row := RenderExprs(vals);
      rows := [row];
      ok := EnsureSameArity(columns, rows);
    }

    method Rows(more: List<List<Expr>>) returns (ok: bool)
      modifies `rows
      ensures ok == Apply(old(Told()), SetRows(more)).Some? && Told() == Step(old(Told()), SetRows(more))
      ensures ok <==>
        old(rows) == [] && (columns == [] || rows == [] || forall row :: row in rows ==> |row| == |columns|)
    {
      if rows != [] {
        return false;
      }
      rows := RenderRows(more);
      ok := EnsureSameArity(columns, rows);
    }

    method Returning(items: List<Item>) returns (ok: bool)
      modifies `returning
      ensures ok == (old(returning) == "")
      ensures returning == if ok then JoinCsv(ItemTexts(items)) else old(returning)
    {
      if returning != "" {
        return false;
      }
      var texts := RenderItems(items);
      returning := JoinCsvLoop(texts);
      ok := true;
    }

    method OnConflictDoNothing()
      modifies `onConflict
      ensures onConflict == ConflictClause(DoNothing)
    {
      onConflict := "ON CONFLICT DO NOTHING";
    }

    /** A later call replaces what an earlier one set. */
    method OnConflictDoUpdate(target: List<Expr>, pairs: List<Assignment>) returns (ok: bool)
      modifies `onConflict
      ensures ok == pairs.Cons?
      ensures onConflict == if ok then ConflictClause(DoUpdate(target, pairs)) else old(onConflict)
    {
      if pairs.Nil? {
        return false;
      }
      var updates, rest := "", pairs;
      while rest.Cons?
        invariant JoinFrom(updates, AssignmentTexts(rest)) == JoinCsv(AssignmentTexts(pairs))
        decreases rest
      {
        assert AssignmentTexts(rest)[1..] == AssignmentTexts(rest.tail);
        if updates != "" {
          updates := updates + ", ";
        }
        updates := updates + (Render.ToString(rest.head.column) + " = " + Render.ToString(rest.head.value));
        rest := rest.tail;
      }
      var texts := RenderExprs(target);
      var csv := JoinCsvLoop(texts);
      onConflict := "ON CONFLICT (" + csv + ") DO UPDATE SET " + updates;
      ok := true;
    }

    /** None where it throws: only rectangular data is ever printed. */
    method ToString() returns (r: Option<string>)
      ensures r.Some? <==> Complete(Told())
      ensures r.Some? <==> columns != [] && rows != [] && forall row :: row in rows ==> |row| == |columns|
      ensures r.Some? ==> r.value == InsertText(into, Told(), onConflict, returning)
    {
      if columns == [] || rows == [] {
        return None;
      }
      var ok := EnsureSameArity(columns, rows);
      if !ok {
        return None;
      }
      var csv := JoinCsvLoop(columns);
      var s := "INSERT INTO " + into + " (" + csv + ") VALUES ";
      s := AppendRows(s, rows);
      if onConflict != "" {
        s := s + (" " + onConflict);
      }
      if returning != "" {
        s := s + (" RETURNING " + returning);
      }
      r := Some(s);
    }
  }

  // ---- whole runs

  lemma {:induction false} RunFirst(s: State, calls: seq<Call>, s1: State)
    requires calls != [] && Apply(s, calls[0]) == Some(s1)
    ensures Run(s, calls) == Run(s1, calls[1..])
  {
  }

  lemma {:induction false} RunFails(s: State, calls: seq<Call>)
    requires calls != [] && Apply(s, calls[0]).None?
    ensures Run(s, calls) == None
  {
  }

  /** After any calls that returned normally, there are no columns, or no rows, or every row
      has a value for each column and no more. */
  lemma {:induction false} RunRectangular(calls: seq<Call>)
    requires Run(START, calls).Some?
    ensures var s := Run(START, calls).value;
            s.columns == [] || s.rows == [] || forall row :: row in s.rows ==> |row| == |s.columns|
  {
    RunKeepsArity(START, calls);
  }

  lemma {:induction false} RunKeepsArity(s: State, calls: seq<Call>)
    requires SameArity(s) && Run(s, calls).Some?
    ensures SameArity(Run(s, calls).value)
    decreases |calls|
  {
    if calls != [] { RunKeepsArity(Apply(s, calls[0]).value, calls[1..]); }
  }

  /** Giving the columns first or the rows first succeeds or fails alike. */
  lemma {:induction false} EitherOrder(s: State, cols: List<Expr>, c: Call)
    requires SameArity(s) && !c.SetColumns?
    ensures Run(s, [SetColumns(cols), c]) == Run(s, [c, SetColumns(cols)])
  {
  }

  lemma {:induction false} RunTwo(s: State, a: Call, b: Call)
    ensures Run(s, [a, b]) ==
      if Apply(s, a).Some? then Apply(Apply(s, a).value, b) else None
  {
    assert [a, b][1..] == [b];
    if Apply(s, a).Some? {
      var s1 := Apply(s, a).value;
      assert [b][1..] == [];
      assert Run(s1, [b]) == if Apply(s1, b).Some? then Run(Apply(s1, b).value, []) else None;
    }
  }

  // ---- what is accepted, in terms of the arguments

  predicate EachHas(rows: List<List<Expr>>, n: nat) {
    match rows
    case Nil => true
    case Cons(row, rest) => Len(row) == n && EachHas(rest, n)
  }

  /** An empty list fits whatever there is on the other side. */
  predicate Fits(cols: List<Expr>, rows: List<List<Expr>>) {
    cols.Nil? || rows.Nil? || EachHas(rows, Len(cols))
  }

  lemma {:induction false} TextsCounted(es: List<Expr>)
    ensures |ExprTexts(es)| == Len(es)
  {
    if es.Cons? { TextsCounted(es.tail); }
  }

  lemma {:induction false} RowsCounted(rows: List<List<Expr>>, n: nat)
    ensures |RowTexts(rows)| == Len(rows)
    ensures EachHas(rows, n) <==> forall row :: row in RowTexts(rows) ==> |row| == n
  {
    if rows.Cons? {
      TextsCounted(rows.head);
      RowsCounted(rows.tail, n);
      assert RowTexts(rows) == [ExprTexts(rows.head)] + RowTexts(rows.tail);
    }
  }

  function StateOf(cols: List<Expr>, rows: List<List<Expr>>): State {
    State(ExprTexts(cols), RowTexts(rows))
  }

  lemma {:induction false} ArityExact(cols: List<Expr>, rows: List<List<Expr>>)
    ensures SameArity(StateOf(cols, rows)) <==> Fits(cols, rows)
  {
    TextsCounted(cols);
    RowsCounted(rows, Len(cols));
  }

  function RowsIn(c: Call): List<List<Expr>> {
    match c
    case SetColumns(_) => Nil
    case SetValues(vals) => Cons(vals, Nil)
    case SetRows(rows) => rows
  }

  /** A call with an empty list leaves its field unset. */
  predicate Gives(c: Call) {
    (c.SetColumns? && c.columns.Cons?) || RowsIn(c).Cons?
  }

  /** No call for a field that an earlier call has set. */
  predicate SetOnce(calls: seq<Call>) {
    forall i, j :: 0 <= i < j < |calls| && Gives(calls[i]) ==> calls[i].SetColumns? != calls[j].SetColumns?
  }

  predicate AllFit(calls: seq<Call>) {
    forall a, b :: a in calls && b in calls && a.SetColumns? && !b.SetColumns? ==> Fits(a.columns, RowsIn(b))
  }

  /** `calls` go through behind calls that gave `cols` and `rows`. */
  predicate Allows(cols: List<Expr>, rows: List<List<Expr>>, calls: seq<Call>) {
    SetOnce(calls) && AllFit(calls) &&
    forall c :: c in calls ==>
      if c.SetColumns? then cols.Nil? && Fits(c.columns, rows) else rows.Nil? && Fits(cols, RowsIn(c))
  }

  lemma {:induction false} OnceCons(c: Call, rest: seq<Call>)
    ensures SetOnce([c] + rest) <==>
      SetOnce(rest) && (Gives(c) ==> forall x :: x in rest ==> x.SetColumns? != c.SetColumns?)
  {
    var calls := [c] + rest;
    assert calls[0] == c && forall i :: 0 <= i < |rest| ==> rest[i] == calls[i + 1];
    if SetOnce(calls) {
      forall i, j | 0 <= i < j < |rest| && Gives(rest[i]) ensures rest[i].SetColumns? != rest[j].SetColumns? {
        assert Gives(calls[i + 1]) && calls[i + 1].SetColumns? != calls[j + 1].SetColumns?;
      }
      forall x | x in rest && Gives(c) ensures x.SetColumns? != c.SetColumns? {
        var i :| 0 <= i < |rest| && rest[i] == x;
        assert calls[0].SetColumns? != calls[i + 1].SetColumns?;
      }
    }
    if SetOnce(rest) && (Gives(c) ==> forall x :: x in rest ==> x.SetColumns? != c.SetColumns?) {
      forall i, j | 0 <= i < j < |calls| && Gives(calls[i]) ensures calls[i].SetColumns? != calls[j].SetColumns? {
        assert rest[j - 1] in rest;
        if i > 0 { assert Gives(rest[i - 1]) && rest[i - 1].SetColumns? != rest[j - 1].SetColumns?; }
      }
    }
  }

  lemma {:induction false} FitCons(c: Call, rest: seq<Call>)
    ensures AllFit([c] + rest) <==> AllFit(rest) && forall x :: x in rest ==>
      (c.SetColumns? && !x.SetColumns? ==> Fits(c.columns, RowsIn(x))) &&
      (!c.SetColumns? && x.SetColumns? ==> Fits(x.columns, RowsIn(c)))
  {
    var calls := [c] + rest;
    assert c in calls && forall x :: x in rest ==> x in calls;
    assert forall x :: x in calls ==> x == c || x in rest;
  }

  /** One call in front: the field it sets was open and its list fits. */
  lemma {:induction false} AllowsCons(cols: List<Expr>, rows: List<List<Expr>>, c: Call, rest: seq<Call>)
    requires Fits(cols, rows)
    ensures Allows(cols, rows, [c] + rest) <==>
      if c.SetColumns? then cols.Nil? && Fits(c.columns, rows) && Allows(c.columns, rows, rest)
      else rows.Nil? && Fits(cols, RowsIn(c)) && Allows(cols, RowsIn(c), rest)
  {
    var calls := [c] + rest;
    assert c in calls && (forall x :: x in rest ==> x in calls) && forall x :: x in calls ==> x == c || x in rest;
    OnceCons(c, rest);
    FitCons(c, rest);
  }

  lemma {:induction false} StepGiven(cols: List<Expr>, rows: List<List<Expr>>, c: Call)
    requires if c.SetColumns? then cols.Nil? else rows.Nil?
    ensures !IsSet(StateOf(cols, rows), c)
    ensures Step(StateOf(cols, rows), c) ==
      if c.SetColumns? then StateOf(c.columns, rows) else StateOf(cols, RowsIn(c))
  {
    assert ExprTexts(Nil) == [] && RowTexts(Nil) == [];
    if c.SetValues? { OneRow(c.values); }
  }

  lemma {:induction false} RunAllows(cols: List<Expr>, rows: List<List<Expr>>, calls: seq<Call>)
    requires Fits(cols, rows)
    ensures Run(StateOf(cols, rows), calls).Some? <==> Allows(cols, rows, calls)
    decreases |calls|
  {
    if calls != [] {
      var s, c, rest := StateOf(cols, rows), calls[0], calls[1..];
      assert calls == [c] + rest;
      AllowsCons(cols, rows, c, rest);
      if c.SetColumns? && cols.Nil? {
        StepGiven(cols, rows, c);
        ArityExact(c.columns, rows);
        if Fits(c.columns, rows) { RunAllows(c.columns, rows, rest); }
      } else if !c.SetColumns? && rows.Nil? {
        StepGiven(cols, rows, c);
        ArityExact(cols, RowsIn(c));
        if Fits(cols, RowsIn(c)) { RunAllows(cols, RowsIn(c), rest); }
      } else {
        TextsCounted(cols);
        RowsCounted(rows, 0);
        assert IsSet(s, c);
      }
    }
  }

  /** A run of a new builder goes through exactly when no field is given again after a list
      that is not empty, and every row given has as many values as there are columns. */
  lemma {:induction false} RunExact(calls: seq<Call>)
    ensures Run(START, calls).Some? <==> SetOnce(calls) && AllFit(calls)
  {
    assert StateOf(Nil, Nil) == START;
    RunAllows(Nil, Nil, calls);
  }

  lemma {:induction false} StepFills(s: State, c: Call)
    requires !IsSet(s, c)
    ensures var t := Step(s, c);
            (t.columns != [] <==> s.columns != [] || (c.SetColumns? && Gives(c))) &&
            (t.rows != [] <==> s.rows != [] || (!c.SetColumns? && Gives(c)))
  {
    match c
    case SetColumns(cols) => TextsCounted(cols);
    case SetValues(vals) =>
    case SetRows(rows) => RowsCounted(rows, 0);
  }

  lemma {:induction false} RunFills(s: State, calls: seq<Call>)
    requires Run(s, calls).Some?
    ensures var t := Run(s, calls).value;
            (t.columns != [] <==> s.columns != [] || exists c :: c in calls && c.SetColumns? && Gives(c)) &&
            (t.rows != [] <==> s.rows != [] || exists c :: c in calls && !c.SetColumns? && Gives(c))
    decreases |calls|
  {
    if calls != [] {
      StepFills(s, calls[0]);
      RunFills(Step(s, calls[0]), calls[1..]);
      assert calls == [calls[0]] + calls[1..];
      assert calls[0] in calls && forall c :: c in calls[1..] ==> c in calls;
    }
  }

  /** What ToString asks for, over whole programs: after calls that went through there is a
      text exactly when one call gave columns and one gave rows. */
  lemma {:induction false} PrintsExact(calls: seq<Call>)
    requires Run(START, calls).Some?
    ensures Complete(Run(START, calls).value) <==>
      (exists c :: c in calls && c.SetColumns? && c.columns.Cons?) &&
      (exists c :: c in calls && (c.SetValues? || (c.SetRows? && c.rows.Cons?)))
  {
    RunFills(START, calls);
    RunKeepsArity(START, calls);
    forall c: Call ensures !c.SetColumns? && Gives(c) <==> c.SetValues? || (c.SetRows? && c.rows.Cons?) {}
  }

  /** One column list with one list of rows, or with one row, in either order: accepted
      exactly when one side is empty or all have the same length, and then kept as given. */
  lemma {:induction false} PairExact(cols: List<Expr>, rows: List<List<Expr>>, vals: List<Expr>)
    ensures var ok := cols.Nil? || rows.Nil? || EachHas(rows, Len(cols));
            var kept := if ok then Some(State(ExprTexts(cols), RowTexts(rows))) else None;
            Run(START, [SetColumns(cols), SetRows(rows)]) == kept &&
            Run(START, [SetRows(rows), SetColumns(cols)]) == kept
    ensures var ok := cols.Nil? || Len(vals) == Len(cols);
            var kept := if ok then Some(State(ExprTexts(cols), [ExprTexts(vals)])) else None;
            Run(START, [SetColumns(cols), SetValues(vals)]) == kept &&
            Run(START, [SetValues(vals), SetColumns(cols)]) == kept
  {
    PairKept(cols, SetRows(rows));
    PairKept(cols, SetValues(vals));
    OneRow(vals);
    assert EachHas(Cons(vals, Nil), Len(cols)) <==> Len(vals) == Len(cols) && EachHas(Nil, Len(cols));
  }

  lemma {:induction false} PairKept(cols: List<Expr>, c: Call)
    requires !c.SetColumns?
    ensures var kept := if Fits(cols, RowsIn(c)) then Some(StateOf(cols, RowsIn(c))) else None;
            Run(START, [SetColumns(cols), c]) == kept && Run(START, [c, SetColumns(cols)]) == kept
  {
    assert StateOf(Nil, Nil) == START;
    StepGiven(Nil, Nil, SetColumns(cols));
    StepGiven(cols, Nil, c);
    ArityExact(cols, Nil);
    ArityExact(cols, RowsIn(c));
    RunTwo(START, SetColumns(cols), c);
    EitherOrder(START, cols, c);
  }
}
