/** src/join.cpp: a join and the ON or USING clause it may be given. */
module JoinBuilding {
  import opened Basics
  import opened Tokens
  import opened Lexer
  import opened Syntax
  import opened Text
  import opened Phrases
  import opened Fragments
  import opened Printer
  import opened Grammar
  import opened WellFormed
  import opened Render
  import opened RenderAll
  import opened LexPrint
  import opened RoundTrip

  // ---- ON and USING

  /** What a join has been given. A clause whose text is empty still counts as unset. */
  datatype State = State(natural: bool, on: Option<Expr>, columns: Option<List<Expr>>)

  datatype Call = CallOn(cond: Expr) | CallUsing(columns: List<Expr>)

  datatype Outcome = Done | LogicError | InvalidArgument

  function TryCall(s: State, c: Call): Outcome {
    match c
    case CallOn(_) => if s.natural || s.columns.Some? || s.on.Some? then LogicError else Done
    case CallUsing(cols) =>
      if s.natural || s.on.Some? then LogicError
      else if cols.Nil? then InvalidArgument
      else if s.columns.Some? then LogicError
      else Done
  }

  function CallText(c: Call): string {
    match c
    case CallOn(e) => ToString(e)
    case CallUsing(cols) => JoinCsv(ExprTexts(cols))
  }

  function Apply(s: State, c: Call): State {
    if TryCall(s, c) != Done || CallText(c) == "" then s
    else match c
         case CallOn(e) => s.(on := Some(e))
         case CallUsing(cols) => s.(columns := Some(cols))
  }

  /** At most one qualifier, and none on a natural join. */
  predicate Exclusive(s: State) {
    (s.on.None? || s.columns.None?) && (s.natural ==> s.on.None? && s.columns.None?)
  }

  function QualifierOf(s: State): Qualifier {
    if s.on.Some? then OnCond(s.on.value) else if s.columns.Some? then UsingCols(s.columns.value) else NoQualifier
  }

  lemma {:induction false} JoinText(kind: JoinKind, left: Rel, right: Rel, q: Qualifier)
    ensures Bracketed(left) + " " + JoinName(kind) + " JOIN " + Bracketed(right) + QualifierText(q)
         == RelText(Join(kind, left, right, q))
  {
    var a, b, k := Bracketed(left), Bracketed(right), JoinName(kind);
    var u := b + QualifierText(q);
    Assoc(a + " " + k + " JOIN ", b, QualifierText(q));
    Assoc(a + " " + k, " JOIN ", u);
    Assoc(a + " ", k, " JOIN " + u);
    Assoc(a, " ", k + (" JOIN " + u));
  }

  lemma {:induction false} QualifierTexts(q: Qualifier)
    ensures q.OnCond? ==> QualifierText(q) == " ON " + ToString(q.cond)
    ensures q.UsingCols? ==> QualifierText(q) == " USING (" + JoinCsv(ExprTexts(q.cols)) + ")"
  {
    if q.OnCond? {
      assert Phrase(W1(ON)) + " " == " ON ";
      Assoc(Phrase(W1(ON)), " ", ToString(q.cond));
    } else if q.UsingCols? {
      var csv := JoinCsv(ExprTexts(q.cols));
      assert Phrase(W1(USING)) + " (" == " USING (";
      Assoc(" USING (", csv, ")");
      Assoc(Phrase(W1(USING)), " (", csv + ")");
    }
  }

  class JoinBuilder {
    var a: string
    var b: string
    var kind: string
    var natural: bool
    var on: string
    var columns: string
    ghost var left: Rel
    ghost var right: Rel
    ghost var joinKind: JoinKind
    ghost var state: State

    ghost predicate Valid()
      reads this
    {
      a == Bracketed(left) && b == Bracketed(right) && kind == JoinName(joinKind) &&
      natural == Natural(joinKind) == state.natural && Exclusive(state) &&
      on == (if state.on.Some? then ToString(state.on.value) else "") &&
      columns == (if state.columns.Some? then JoinCsv(ExprTexts(state.columns.value)) else "") &&
      (state.on.Some? ==> on != "") && (state.columns.Some? ==> columns != "")
    }

    constructor (l: Rel, r: Rel, k: JoinKind)
      ensures Valid() && left == l && right == r && joinKind == k && state == State(Natural(k), None, None)
      ensures natural <==> SaysNatural(k)
    {
      NaturalExact(k);
      a, b, kind, natural, on, columns := Bracketed(l), Bracketed(r), JoinName(k), Natural(k), "", "";
      left, right, joinKind, state := l, r, k, State(Natural(k), None, None);
    }

    method On(cond: Expr) returns (outcome: Outcome)
      requires Valid()
      modifies this
      ensures Valid() && left == old(left) && right == old(right) && joinKind == old(joinKind)
      ensures outcome == TryCall(old(state), CallOn(cond)) && state == Apply(old(state), CallOn(cond))
      ensures SaysNatural(joinKind) ==> outcome == LogicError
    {
      NaturalExact(joinKind);
      if natural || columns != "" || on != "" {
        return LogicError;
      }
      on := ToString(cond);
      state := Apply(state, CallOn(cond));
      outcome := Done;
    }

    method Using(cols: List<Expr>) returns (outcome: Outcome)
      requires Valid()
      modifies this
      ensures Valid() && left == old(left) && right == old(right) && joinKind == old(joinKind)
      ensures outcome == TryCall(old(state), CallUsing(cols)) && state == Apply(old(state), CallUsing(cols))
      ensures SaysNatural(joinKind) ==> outcome == LogicError
    {
      NaturalExact(joinKind);
      if natural || on != "" {
        return LogicError;
      }
      if cols.Nil? {
        return InvalidArgument;
      }
      if columns != "" {
        return LogicError;
      }
      var texts := RenderExprs(cols);
      columns := JoinCsvLoop(texts);
      state := Apply(state, CallUsing(cols));
      outcome := Done;
    }

    /** The text of a join with the qualifier it was given. */
    method Text() returns (s: string)
      requires Valid()
      ensures s == RelText(Join(joinKind, left, right, QualifierOf(state)))
    {
      s := a + " " + kind + " JOIN " + b;
      ghost var s0 := s;
      if on != "" {
        s := s + (" ON " + on);
      }
      if columns != "" {
        s := s + (" USING (" + columns + ")");
      }
      QualifierTexts(QualifierOf(state));
      assert s == s0 + QualifierText(QualifierOf(state));
      JoinText(joinKind, left, right, QualifierOf(state));
    }
  }

  // ---- whole runs

  function Run(s: State, calls: seq<Call>): Option<State>
    decreases |calls|
  {
    if calls == [] then Some(s)
    else if TryCall(s, calls[0]) == Done then Run(Apply(s, calls[0]), calls[1..])
    else None
  }

  /** The text between the operands begins with NATURAL. */
  predicate SaysNatural(kind: JoinKind) {
    At(Lex(" " + JoinName(kind) + " JOIN "), Kw(NATURAL))
  }

  /** IsNatural holds for exactly the kinds whose text says so. */
  lemma {:induction false} NaturalExact(kind: JoinKind)
    ensures Lex(" " + JoinName(kind) + " JOIN ") == JoinTokens(kind, Nil)
    ensures Natural(kind) <==> SaysNatural(kind)
  {
    JoinSpelling(kind);
    LexPhrase(JoinWords(kind), " ");
    LexSpace(' ', "");
    JoinWordsTokens(kind, Nil);
    assert " JOIN " == " JOIN" + " ";
    Assoc(" " + JoinName(kind), " JOIN", " ");
  }

  /** Every clause that would be accepted has a text. */
  predicate HaveTexts(calls: seq<Call>) {
    forall c :: c in calls ==> (c.CallUsing? ==> c.columns.Cons?) ==> CallText(c) != ""
  }

  /** A run from a new join goes through exactly when it is one call at most, of a join whose
      text has no NATURAL, with some column for USING. */
  lemma {:induction false} RunExact(kind: JoinKind, calls: seq<Call>)
    requires HaveTexts(calls)
    ensures Run(State(Natural(kind), None, None), calls).Some? <==>
      calls == [] ||
      (|calls| == 1 && !SaysNatural(kind) && (calls[0].CallUsing? ==> calls[0].columns.Cons?))
  {
    NaturalExact(kind);
    if calls != [] {
      RunOne(State(Natural(kind), None, None), calls[0], calls[1..]);
      assert calls == [calls[0]] + calls[1..];
    }
  }

  lemma {:induction false} RunOne(s: State, c: Call, rest: seq<Call>)
    requires s.on.None? && s.columns.None? && ((c.CallUsing? ==> c.columns.Cons?) ==> CallText(c) != "")
    ensures Run(s, [c] + rest).Some? <==> rest == [] && TryCall(s, c) == Done
  {
    assert ([c] + rest)[0] == c && ([c] + rest)[1..] == rest;
    if TryCall(s, c) == Done && rest != [] {
      assert TryCall(Apply(s, c), rest[0]) != Done;
    }
  }

  /** What a further call answers after a run: nothing is added to a natural join or to a join
      that has a qualifier, and USING without columns is told apart unless ON or NATURAL comes
      before it. */
  lemma {:induction false} OutcomeExact(kind: JoinKind, calls: seq<Call>, c: Call)
    requires HaveTexts(calls) && Run(State(Natural(kind), None, None), calls).Some?
    ensures var s := Run(State(Natural(kind), None, None), calls).value;
            (TryCall(s, c) == Done <==>
               !SaysNatural(kind) && calls == [] && (c.CallUsing? ==> c.columns.Cons?)) &&
            (TryCall(s, c) == InvalidArgument <==>
               !SaysNatural(kind) && c.CallUsing? && c.columns.Nil? && forall b :: b in calls ==> b.CallUsing?)
  {
    RunExact(kind, calls);
    NaturalExact(kind);
    var s := State(Natural(kind), None, None);
    if calls != [] {
      assert calls == [calls[0]] && calls[0] in calls;
      assert forall b :: b in calls ==> b == calls[0];
      assert Run(s, calls) == Run(Apply(s, calls[0]), calls[1..]);
    }
  }

  lemma {:induction false} ApplyExclusive(s: State, c: Call)
    requires Exclusive(s)
    ensures Exclusive(Apply(s, c))
  {
  }

  /** A qualified join reads back with the one qualifier it was given. */
  lemma {:induction false} JoinRoundTrip(d: Dialect, kind: JoinKind, left: Rel, right: Rel, c: Call)
    requires d.Valid() && RelOk(Reading(d), left) && RelOk(Reading(d), right) && !SaysNatural(kind)
    requires if c.CallOn? then ExprOk(Reading(d), c.cond) else c.columns.Cons? && ListOk(Reading(d), c.columns)
    ensures var s := Run(State(false, None, None), [c]);
            var q := if c.CallOn? then OnCond(Meaning(c.cond)) else UsingCols(ListMeaning(c.columns));
            s.Some? && ParseRel(d, Lex(RelText(Join(kind, left, right, QualifierOf(s.value)))))
                    == Some(Join(kind, RelMeaning(left), RelMeaning(right), q))
  {
    TextGiven(d, c);
    var s := Apply(State(false, None, None), c);
    assert Run(s, [c][1..]) == Some(s);
    StatementRoundTrip(d, Join(kind, left, right, QualifierOf(s)));
  }

  lemma {:induction false} TextGiven(d: Dialect, c: Call)
    requires if c.CallOn? then ExprOk(Reading(d), c.cond) else c.columns.Cons? && ListOk(Reading(d), c.columns)
    ensures CallText(c) != ""
  {
    if c.CallOn? {
      NonEmpty(Reading(d), c.cond);
    } else {
      NonEmpty(Reading(d), c.columns.head);
      JoinCsvText(ExprTexts(c.columns));
    }
  }
}
