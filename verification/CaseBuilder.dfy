/** src/case_builder.cpp: the When/Then/Else/End state machine. */
module CaseBuilding {
  import opened Basics
  import opened Tokens
  import opened Lexer
  import opened Text
  import opened Phrases
  import opened Syntax
  import opened Grammar
  import opened WellFormed
  import opened Render
  import opened LexPrint
  import opened RoundTrip

  lemma {:induction false} WhensTextSnoc(ws: List<When>, w: When)
    ensures WhensText(Snoc(ws, w)) == WhensText(ws) + WhensText(Cons(w, Nil))
  {
    match ws
    case Nil => assert "" + WhensText(Cons(w, Nil)) == WhensText(Cons(w, Nil));
    case Cons(x, rest) =>
      WhensTextSnoc(rest, w);
      WhensTextCons(x, rest, WhensText(Cons(w, Nil)));
      WhensTextCons(x, Snoc(rest, w), "");
      assert WhensText(Snoc(ws, w)) + "" == WhensText(Snoc(ws, w));
      assert WhensText(Snoc(rest, w)) + "" == WhensText(Snoc(rest, w));
  }

  /** What a builder has been told: completed pairs, the open WHEN, the last ELSE. */
  datatype State = State(pairs: List<When>, pending: Option<Expr>, els: Option<Expr>)

  const START := State(Nil, None, None)

  datatype Call = CallWhen(cond: Expr) | CallThen(result: Expr) | CallElse(result: Expr)

  /** One call; None where it throws. */
  function Apply(s: State, c: Call): Option<State> {
    match c
    case CallWhen(e) => if s.pending.Some? then None else Some(s.(pending := Some(e)))
    case CallThen(e) =>
      if s.pending.None? then None
      else Some(s.(pairs := Snoc(s.pairs, When(s.pending.value, e)), pending := None))
    case CallElse(e) => Some(s.(els := Some(e)))
  }

  /** The runs accepted from state `s`, and where they lead. */
  function Run(s: State, calls: seq<Call>): Option<State>
    decreases |calls|
  {
    if calls == [] then Some(s)
    else match Apply(s, calls[0])
         case None => None
         case Some(s1) => Run(s1, calls[1..])
  }

  /** End skips an ELSE whose text is empty. */
  function PrintedElse(els: Option<Expr>): Option<Expr> {
    if els.Some? && ToString(els.value) == "" then None else els
  }

  /** The text of the CASE expression; None where End throws. */
  function EndResult(s: State): Option<string> {
    if s.pairs.Nil? then None else Some(ToString(Case(s.pairs, PrintedElse(s.els))))
  }

  /** The text members of the C++ class, each tied to the calls made so far. */
  class CaseBuilder {
    var whens: string
    var pendingWhen: string
    var els: string
    var hasPendingWhen: bool
    ghost var state: State

    ghost predicate Valid()
      reads this
    {
      whens == WhensText(state.pairs) &&
      hasPendingWhen == state.pending.Some? &&
      (state.pending.Some? ==> pendingWhen == ToString(state.pending.value)) &&
      els == (if state.els.Some? then ToString(state.els.value) else "")
    }

    constructor ()
      ensures Valid() && state == START
    {
      whens, pendingWhen, els, hasPendingWhen := "", "", "", false;
      state := START;
    }

    method When(cond: Expr) returns (ok: bool)
      requires Valid()
      modifies this
      ensures Valid()
      ensures ok == Apply(old(state), CallWhen(cond)).Some?
      ensures state == if ok then Apply(old(state), CallWhen(cond)).value else old(state)
    {
      if hasPendingWhen {
        return false;
      }
      pendingWhen := ToString(cond);
      hasPendingWhen := true;
      state := state.(pending := Some(cond));
      ok := true;
    }

    method Then(result: Expr) returns (ok: bool)
      requires Valid()
      modifies this
      ensures Valid()
      ensures ok == Apply(old(state), CallThen(result)).Some?
      ensures state == if ok then Apply(old(state), CallThen(result)).value else old(state)
    {
      if !hasPendingWhen {
        return false;
      }
      ghost var w := Syntax.When(state.pending.value, result);
      var fragment := "WHEN ";
      fragment := fragment + pendingWhen;
      fragment := fragment + " THEN ";
      fragment := fragment + ToString(result);
      fragment := fragment + " ";
      FragmentText(pendingWhen, ToString(result), w);
      WhensTextSnoc(state.pairs, w);
      whens := whens + fragment;
      hasPendingWhen := false;
      state := state.(pairs := Snoc(state.pairs, w), pending := None);
      ok := true;
    }

    method Else(result: Expr)
      requires Valid()
      modifies this
      ensures Valid() && Apply(old(state), CallElse(result)) == Some(state)
    {
      els := ToString(result);
      state := state.(els := Some(result));
    }

    method End() returns (r: Option<string>)
      requires Valid()
      ensures r == EndResult(state)
    {
      if whens == "" {
        WhensEmpty(state.pairs);
        return None;
      }
      var s := "CASE " + whens;
      if els != "" {
        s := s + "ELSE " + els + " ";
      }
      s := s + "END";
      EndText(whens, els, s, Case(state.pairs, PrintedElse(state.els)));
      r := Some(s);
    }
  }

  lemma {:induction false} FragmentText(cond: string, result: string, w: When)
    requires cond == ToString(w.cond) && result == ToString(w.result)
    ensures "WHEN " + cond + " THEN " + result + " " == WhensText(Cons(w, Nil))
  {
    assert KwText(WHEN) + " " == "WHEN ";
    assert Phrase(W1(THEN)) + " " == " THEN ";
    WhensTextCons(w, Nil, "");
    assert WhensText(Cons(w, Nil)) + "" == WhensText(Cons(w, Nil));
    assert WhensText(Nil) + "" == "";
    Assoc("WHEN ", cond, " THEN ");
    Assoc("WHEN ", cond + " THEN ", result);
    Assoc("WHEN ", cond + " THEN " + result, " ");
    Assoc(cond + " THEN ", result, " ");
    Assoc(cond, " THEN ", result + " ");
  }

  lemma {:induction false} WhensEmpty(ws: List<When>)
    ensures WhensText(ws) == "" <==> ws.Nil?
  {
    KeywordText(WHEN);
  }

  lemma {:induction false} EndText(whens: string, els: string, s: string, e: Expr)
    requires e.Case? && whens == WhensText(e.whens) && whens != ""
    requires els == (if e.els.Some? then ToString(e.els.value) else "") && (e.els.Some? ==> els != "")
    requires s == (if els != "" then "CASE " + whens + "ELSE " + els + " " else "CASE " + whens) + "END"
    ensures s == ToString(e) && e.whens.Cons?
  {
    BareLeaf(e, CaseText(e), "");
    assert CaseText(e) + "" == CaseText(e);
    CaseTextSplit(e, "");
    assert KwText(CASE) + " " == "CASE ";
    assert KwText(END) + "" == "END";
    ElseFragment(els, e.els);
    if els != "" {
      Assoc("CASE " + whens, "ELSE ", els);
      Assoc("CASE " + whens, "ELSE " + els, " ");
      Assoc("CASE " + whens, "ELSE " + els + " ", "END");
      Assoc("CASE ", whens, "ELSE " + els + " " + "END");
    } else {
      Assoc("CASE ", whens, "END");
    }
  }

  lemma {:induction false} ElseFragment(els: string, e: Option<Expr>)
    requires els == (if e.Some? then ToString(e.value) else "") && (e.Some? ==> els != "")
    ensures els != "" ==> ElseText(e) == "ELSE " + els + " "
    ensures els == "" ==> ElseText(e) + "END" == "END"
  {
  }

  // ---- whole runs

  function WithoutElse(calls: seq<Call>): seq<Call> {
    if calls == [] then []
    else (if calls[0].CallElse? then [] else [calls[0]]) + WithoutElse(calls[1..])
  }

  /** WHEN and THEN strictly alternate, WHEN first unless one is open already. */
  predicate Alternates(open: bool, calls: seq<Call>) {
    forall i :: 0 <= i < |calls| ==> (calls[i].CallWhen? <==> (i % 2 == 0) == !open)
  }

  function LastElse(els: Option<Expr>, calls: seq<Call>): Option<Expr>
    decreases |calls|
  {
    if calls == [] then els
    else LastElse(if calls[0].CallElse? then Some(calls[0].result) else els, calls[1..])
  }

  lemma {:induction false} NoElseLeft(calls: seq<Call>)
    ensures forall i :: 0 <= i < |WithoutElse(calls)| ==> !WithoutElse(calls)[i].CallElse?
  {
    if calls != [] { NoElseLeft(calls[1..]); }
  }

  lemma {:induction false} Parity(i: int)
    requires i > 0
    ensures (i % 2 == 0) <==> !((i - 1) % 2 == 0)
  {
  }

  lemma {:induction false} AlternatesCons(open: bool, c: Call, rest: seq<Call>)
    ensures Alternates(open, [c] + rest) <==> (c.CallWhen? <==> !open) && Alternates(!open, rest)
  {
    var calls := [c] + rest;
    if Alternates(open, calls) {
      assert calls[0] == c;
      forall i | 0 <= i < |rest| ensures rest[i].CallWhen? <==> (i % 2 == 0) == open {
        assert calls[i + 1] == rest[i];
        Parity(i + 1);
      }
    }
    if (c.CallWhen? <==> !open) && Alternates(!open, rest) {
      forall i | 0 <= i < |calls| ensures calls[i].CallWhen? <==> (i % 2 == 0) == !open {
        if i > 0 {
          assert calls[i] == rest[i - 1];
          Parity(i);
        }
      }
    }
  }

  /** A run is accepted exactly when its WHEN and THEN calls alternate; a WHEN is left open
      exactly when their number is odd, and the last ELSE is the one that stays. */
  lemma {:induction false} RunAccepted(s: State, calls: seq<Call>)
    ensures Run(s, calls).Some? <==> Alternates(s.pending.Some?, WithoutElse(calls))
    ensures Run(s, calls).Some? ==>
      Run(s, calls).value.els == LastElse(s.els, calls) &&
      (Run(s, calls).value.pending.Some? <==> (|WithoutElse(calls)| % 2 == 0) == s.pending.Some?)
    decreases |calls|
  {
    if calls != [] {
      var rest := WithoutElse(calls[1..]);
      if calls[0].CallElse? {
        assert WithoutElse(calls) == rest;
      } else {
        AlternatesCons(s.pending.Some?, calls[0], rest);
      }
      if Apply(s, calls[0]).Some? {
        RunAccepted(Apply(s, calls[0]).value, calls[1..]);
      }
    }
  }

  function PairsOf(calls: seq<Call>): List<When>
    requires Alternates(false, calls) && forall i :: 0 <= i < |calls| ==> !calls[i].CallElse?
    decreases |calls|
  {
    if |calls| < 2 then Nil
    else
      assert calls[0].CallWhen? && calls[1].CallThen?;
      assert forall i :: 0 <= i < |calls[2..]| ==> calls[2..][i] == calls[i + 2];
      Cons(When(calls[0].cond, calls[1].result), PairsOf(calls[2..]))
  }

  /** The calls that remain of a run when a WHEN is already open. */
  function Opened(s: State, calls: seq<Call>): seq<Call> {
    (if s.pending.Some? then [CallWhen(s.pending.value)] else []) + WithoutElse(calls)
  }

  lemma {:induction false} OpenedOk(s: State, calls: seq<Call>)
    requires Run(s, calls).Some?
    ensures Alternates(false, Opened(s, calls))
    ensures forall i :: 0 <= i < |Opened(s, calls)| ==> !Opened(s, calls)[i].CallElse?
  {
    RunAccepted(s, calls);
    NoElseLeft(calls);
    if s.pending.Some? {
      AlternatesCons(false, CallWhen(s.pending.value), WithoutElse(calls));
    } else {
      assert Opened(s, calls) == WithoutElse(calls);
    }
  }

  /** The completed pairs are the WHEN and THEN arguments taken two by two, in order. */
  lemma {:induction false} RunPairs(s: State, calls: seq<Call>)
    requires Run(s, calls).Some?
    ensures Alternates(false, Opened(s, calls)) &&
            forall i :: 0 <= i < |Opened(s, calls)| ==> !Opened(s, calls)[i].CallElse?
    ensures Run(s, calls).value.pairs == App(s.pairs, PairsOf(Opened(s, calls)))
    decreases |calls|
  {
    OpenedOk(s, calls);
    if calls == [] {
      AppNil(s.pairs);
    } else {
      var s1 := Apply(s, calls[0]).value;
      RunPairs(s1, calls[1..]);
      match calls[0]
      case CallElse(_) => assert Opened(s1, calls[1..]) == Opened(s, calls);
      case CallWhen(_) => assert Opened(s1, calls[1..]) == Opened(s, calls);
      case CallThen(e) =>
        var w := When(s.pending.value, e);
        assert Opened(s, calls)[2..] == Opened(s1, calls[1..]);
        AppAssoc(s.pairs, Cons(w, Nil), PairsOf(Opened(s1, calls[1..])));
  }
  }

  /** What End prints after a run reads back as exactly those pairs and that ELSE; a WHEN
      still open at the end leaves no trace. */
  lemma {:induction false} CaseRoundTrip(d: Dialect, calls: seq<Call>)
    requires d.Valid() && Run(START, calls).Some?
    requires var s := Run(START, calls).value; WhensOk(Reading(d), s.pairs) && OptionOk(Reading(d), s.els)
    ensures Alternates(false, WithoutElse(calls)) && forall c :: c in WithoutElse(calls) ==> !c.CallElse?
    ensures var text := EndResult(Run(START, calls).value);
            text == None <==> |WithoutElse(calls)| < 2
    ensures var text := EndResult(Run(START, calls).value);
            var read := Case(WhensMeaning(PairsOf(WithoutElse(calls))), OptionMeaning(LastElse(None, calls)));
            text.Some? ==> ParseExpr(d, Lex(text.value)) == Some(read)
  {
    var s := Run(START, calls).value;
    RunAccepted(START, calls);
    NoElseLeft(calls);
    RunPairs(START, calls);
    assert Opened(START, calls) == WithoutElse(calls);
    if s.pairs.Cons? {
      if s.els.Some? { NonEmpty(Reading(d), s.els.value); }
      ExprRoundTrip(d, Case(s.pairs, s.els));
    }
  }
}
