/** Rendered lists split back into their elements at the commas outside brackets. */
module Splitting {
  import opened Basics
  import opened Precedence
  import opened Tokens
  import opened Lexer
  import opened Syntax
  import opened Text
  import opened Printer
  import opened WellFormed
  import opened Render
  import opened LexPrint
  import opened Balance
  import opened Layout
  import opened Formats

  /** The brackets open behind `t`; a token that does not fit changes nothing. */
  function Opened(t: Token, open: List<Token>): List<Token> {
    var next := Step(t, open);
    if next.Some? then next.value else open
  }

  /** The pieces between the commas outside brackets. */
  function Split(ts: Tokens, open: List<Token>): (pieces: List<Tokens>)
    ensures pieces.Cons?
    decreases ts
  {
    match ts
    case Nil => Cons(Nil, Nil)
    case Cons(t, rest) =>
      if t == Comma && open.Nil? then Cons(Nil, Split(rest, Nil))
      else
        var more := Split(rest, Opened(t, open));
        Cons(Cons(t, more.head), more.tail)
  }

  /** What stands before the bracket that closes the innermost open one. */
  function Inside(ts: Tokens, open: List<Token>): Tokens
    decreases ts
  {
    match ts
    case Nil => Nil
    case Cons(t, rest) =>
      if Opened(t, open).Nil? then Nil else Cons(t, Inside(rest, Opened(t, open)))
  }

  /** Pieces with commas between them. */
  function Commas(pieces: List<Tokens>): Tokens {
    match pieces
    case Nil => Nil
    case Cons(p, Nil) => p
    case Cons(p, rest) => App(p, Cons(Comma, Commas(rest)))
  }

  predicate AllBalanced(pieces: List<Tokens>) {
    match pieces
    case Nil => true
    case Cons(p, rest) => Balanced(p) && AllBalanced(rest)
  }

  lemma {:induction false} SplitPiece(p: Tokens, open: List<Token>, k: Tokens)
    requires Scan(p, open) == Some(Nil)
    ensures Split(p, open) == Cons(p, Nil)
    ensures Split(App(p, Cons(Comma, k)), open) == Cons(p, Split(k, Nil))
    decreases p
  {
    if p.Cons? { SplitPiece(p.tail, Step(p.head, open).value, k); }
  }

  /** Splitting undoes joining, for pieces that are balanced. */
  lemma {:induction false} SplitCommas(pieces: List<Tokens>)
    requires pieces.Cons? && AllBalanced(pieces)
    ensures Split(Commas(pieces), Nil) == pieces
  {
    SplitPiece(pieces.head, Nil, Commas(pieces.tail));
    if pieces.tail.Cons? { SplitCommas(pieces.tail); }
  }

  /** Inside a bracket, a balanced piece is passed over whole. */
  lemma {:induction false} InsidePiece(p: Tokens, open: List<Token>, k: Tokens)
    requires Scan(p, open) == Some(Nil)
    ensures Inside(App(p, k), App(open, Cons(RParen, Nil))) == App(p, Inside(k, Cons(RParen, Nil)))
    decreases p
  {
    if p.Cons? {
      var next := Step(p.head, open).value;
      StepBelow(p.head, open, RParen);
      InsidePiece(p.tail, next, k);
    }
  }

  lemma {:induction false} StepBelow(t: Token, open: List<Token>, last: Token)
    requires Step(t, open).Some?
    ensures Step(t, App(open, Cons(last, Nil))) == Some(App(Step(t, open).value, Cons(last, Nil)))
  {
  }

  lemma {:induction false} InsideCommas(pieces: List<Tokens>, k: Tokens)
    requires AllBalanced(pieces)
    ensures Inside(App(Commas(pieces), Cons(RParen, k)), Cons(RParen, Nil)) == Commas(pieces)
  {
    var inner := Cons(RParen, Nil);
    match pieces
    case Nil =>
    case Cons(p, Nil) =>
      InsidePiece(p, Nil, Cons(RParen, k));
      AppNil(p);
    case Cons(p, rest) =>
      var k1 := App(Commas(rest), Cons(RParen, k));
      InsideCommas(rest, k);
      InsidePiece(p, Nil, Cons(Comma, k1));
      AppAssoc(p, Cons(Comma, Commas(rest)), Cons(RParen, k));
  }

  // ---- JoinCsv of readable texts

  function LexAll(items: seq<string>): List<Tokens> {
    if items == [] then Nil else Cons(Lex(items[0]), LexAll(items[1..]))
  }

  /** Balanced outside: every item may have brackets, quotes and commas, but it closes the
      brackets it opens and keeps its commas inside them. */
  predicate ItemsBalanced(items: seq<string>) {
    forall i :: 0 <= i < |items| ==> Balanced(Lex(items[i]))
  }

  lemma {:induction false} ItemsAllBalanced(items: seq<string>)
    requires ItemsBalanced(items)
    ensures AllBalanced(LexAll(items))
  {
    if items != [] { ItemsAllBalanced(items[1..]); }
  }

  lemma {:induction false} IntercalateLexes(items: seq<string>)
    requires ItemsBalanced(items)
    ensures Lex(Intercalate(", ", items)) == Commas(LexAll(items))
    decreases |items|
  {
    if items != [] {
      var first, rest := items[0], items[1..];
      if rest == [] {
        assert Intercalate(", ", items) == first;
      } else {
        var t := Intercalate(", ", rest);
        IntercalateCons(first, rest);
        IntercalateLexes(rest);
        ScanNoBad(Lex(first), Nil);
        LexConcat(first, ", " + t);
        LexComma(t);
        assert LexAll(rest).Cons?;
      }
    }
  }

  /** Splitting undoes JoinCsv, once the empty items at the front are dropped. */
  lemma {:induction false} SplitJoined(items: seq<string>)
    requires ItemsBalanced(items) && DropEmpty(items) != []
    ensures Split(Lex(JoinCsv(items)), Nil) == LexAll(DropEmpty(items))
  {
    DropBalanced(items);
    JoinCsvText(items);
    IntercalateLexes(DropEmpty(items));
    ItemsAllBalanced(DropEmpty(items));
    SplitCommas(LexAll(DropEmpty(items)));
  }

  lemma {:induction false} DropBalanced(items: seq<string>)
    requires ItemsBalanced(items)
    ensures ItemsBalanced(DropEmpty(items))
  {
    if items != [] && items[0] == "" { DropBalanced(items[1..]); }
  }

  // ---- lists of expressions

  /** The text of an expression is balanced, and its commas are inside brackets, whatever
      precedences its operators were given and whatever its leaves hide. */
  lemma {:induction false} ExprBalanced(m: Strict, e: Expr)
    requires ExprOk(m, e)
    ensures Balanced(Lex(ToString(e)))
  {
    TextLexes(m, e);
    PrintScans(m, e, Nil, Nil);
  }

  /** The text of a table value leaves the brackets around it as they were. */
  lemma {:induction false} RelBalanced(m: Strict, r: Rel)
    requires RelOk(m, r)
    ensures Scan(Lex(RelText(r)), Cons(RParen, Nil)) == Some(Cons(RParen, Nil))
  {
    RelLexes(m, r, "");
    assert RelText(r) + "" == RelText(r);
    RelScans(m, r, Cons(RParen, Nil), Nil);
  }

  lemma {:induction false} ListBalanced(m: Strict, es: List<Expr>)
    requires ListOk(m, es)
    ensures ItemsBalanced(ExprTexts(es)) && (es.Cons? ==> DropEmpty(ExprTexts(es)) == ExprTexts(es) != [])
    decreases es
  {
    if es.Cons? {
      var texts := ExprTexts(es);
      ListBalanced(m, es.tail);
      ExprBalanced(m, es.head);
      NonEmpty(m, es.head);
      assert texts[1..] == ExprTexts(es.tail);
      forall i | 0 <= i < |texts| ensures Balanced(Lex(texts[i])) {
        if i > 0 { assert texts[i] == ExprTexts(es.tail)[i - 1]; }
      }
    }
  }

  /** A clause of expressions splits back into them. */
  lemma {:induction false} ClauseSplits(m: Strict, es: List<Expr>)
    requires es.Cons? && ListOk(m, es)
    ensures Split(Lex(JoinCsv(ExprTexts(es))), Nil) == LexAll(ExprTexts(es))
  {
    ListBalanced(m, es);
    SplitJoined(ExprTexts(es));
  }

  lemma {:induction false} PrintedCommas(m: Strict, es: List<Expr>, s: string)
    requires es.Cons? && ListOk(m, es)
    ensures PrintList(es, Cons(RParen, Lex(s))) == App(Commas(LexAll(ExprTexts(es))), Cons(RParen, Lex(s)))
  {
    var texts := ExprTexts(es);
    JoinedTokens(m, es);
    SpacedClose(s);
    JoinedLex(m, es, " )" + s);
    LexConcat(JoinCsv(texts), " )" + s);
  }

  lemma {:induction false} SpacedClose(s: string)
    ensures Lex(" )" + s) == Cons(RParen, Lex(s)) && Cuts(" )" + s)
  {
    LexOne(')', s);
    LexSpace(' ', ")" + s);
    assert " )" + s == [' '] + (")" + s);
  }

  lemma {:induction false} JoinedTokens(m: Strict, es: List<Expr>)
    requires es.Cons? && ListOk(m, es)
    ensures var ts := Commas(LexAll(ExprTexts(es)));
            Lex(JoinCsv(ExprTexts(es))) == ts && NoBad(ts)
  {
    var texts := ExprTexts(es);
    ListBalanced(m, es);
    JoinCsvText(texts);
    IntercalateLexes(texts);
    ItemsAllBalanced(texts);
    CommasNoBad(LexAll(texts));
  }

  lemma {:induction false} CommasNoBad(pieces: List<Tokens>)
    requires AllBalanced(pieces)
    ensures NoBad(Commas(pieces))
  {
    if pieces.Cons? {
      ScanNoBad(pieces.head, Nil);
      CommasNoBad(pieces.tail);
      AppNoBad(pieces.head, Cons(Comma, Commas(pieces.tail)));
    }
  }

  /** The list between two brackets splits back into its elements, whatever follows. */
  lemma {:induction false} ListSplits(m: Strict, es: List<Expr>, s: string)
    requires es.Cons? && ListOk(m, es)
    ensures Split(Inside(PrintList(es, Cons(RParen, Lex(s))), Cons(RParen, Nil)), Nil) == LexAll(ExprTexts(es))
  {
    var pieces := LexAll(ExprTexts(es));
    ListBalanced(m, es);
    ItemsAllBalanced(ExprTexts(es));
    PrintedCommas(m, es, s);
    InsideCommas(pieces, Lex(s));
    SplitCommas(pieces);
  }

  /** The arguments of a call, behind its name, its bracket and DISTINCT. */
  lemma {:induction false} CallSplits(m: Strict, e: Expr)
    requires ExprOk(m, e) && e.Call? && e.args.Cons?
    ensures var list := PrintList(e.args, Cons(RParen, Nil));
            var args := if e.distinct then Cons(Kw(DISTINCT), list) else list;
            Lex(ToString(e)) == QualTokens(e.quals, Cons(Word(e.name), Cons(LParen, args))) &&
            Split(Inside(list, Cons(RParen, Nil)), Nil) == LexAll(ExprTexts(e.args))
  {
    TextLexes(m, e);
    ListSplits(m, e.args, "");
  }

  /** The values of an IN list, behind its operand and IN or NOT IN. */
  lemma {:induction false} InListSplits(m: Strict, e: Expr)
    requires ExprOk(m, e) && e.Suffix? && e.sop.InOp? && e.body.Exprs?
    ensures var list := PrintList(e.body.es, Cons(RParen, Nil));
            Lex(ToString(e)) == PrintIn(e.a, kBetween, SuffixTokens(e.sop, list)) &&
            Split(Inside(list, Cons(RParen, Nil)), Nil) == LexAll(ExprTexts(e.body.es))
  {
    TextLexes(m, e);
    ListSplits(m, e.body.es, "");
  }
}
