/** The main results: the rendered text, read as characters under the grammar, means the
    tree that was built. */
module RoundTrip {
  import opened Basics
  import opened Precedence
  import opened Tokens
  import opened Lexer
  import opened Syntax
  import opened Node
  import opened Text
  import opened Printer
  import opened Grammar
  import opened WellFormed
  import opened ReadBack
  import opened Render
  import opened LexPrint
  import opened Formats
  import L = Layout

  /** Expr::ToString and Condition::ToString: reading the text gives back the tree. */
  lemma {:induction false} ExprRoundTrip(d: Dialect, e: Expr)
    requires d.Valid() && ExprOk(Reading(d), e)
    ensures ParseExpr(d, Lex(ToString(e))) == Some(Meaning(e))
  {
    StringLexes(Reading(d), e, "");
    assert ToString(e) + "" == ToString(e);
    DelimitedReads(d, e, Nil);
  }

  /** Expr::Extract and Condition::Extract: in front of any text that neither glues to the
      operand nor continues it, the operand is read back and that text is left untouched. */
  lemma {:induction false} OperandRoundTrip(d: Dialect, e: Expr, c: Prec, k: string)
    requires d.Valid() && ExprOk(Reading(d), e) && kSymbol < c
    requires CharFollows(e, c, k) && Follows(d, Lex(k), c) && Fits(d, e, c, c, Lex(k))
    ensures Operand(d, c, Lex(TextIn(Build(e), c) + k)) == Ok(Meaning(e), Lex(k))
  {
    PartAppends(Child(Build(e), c), k);
    SlotLexes(Reading(d), e, c, k);
    OperandEnds(d, e, c, Lex(k));
  }

  /** Texts with different meanings are different. */
  lemma {:induction false} ExprTextsDiffer(d: Dialect, e1: Expr, e2: Expr)
    requires d.Valid() && ExprOk(Reading(d), e1) && ExprOk(Reading(d), e2) && Meaning(e1) != Meaning(e2)
    ensures ToString(e1) != ToString(e2)
  {
    ExprRoundTrip(d, e1);
    ExprRoundTrip(d, e2);
  }

  /** The AND of a BETWEEN is never taken for a logical AND, nor the other way round: next to
      any condition, on either side, with any operands inside, the text splits as built. */
  lemma {:induction false} BetweenSplits(d: Dialect, between: Expr, op: InfixOp, c: Expr)
    requires d.Valid() && between.Between? && ExprOk(Reading(d), between) && ExprOk(Reading(d), c)
    requires op.AndOp? || op.OrOp?
    ensures var inner := Between(between.neg, Meaning(between.a), Meaning(between.lo), Meaning(between.hi));
            ParseExpr(d, Lex(ToString(Infix(op, between, c)))) == Some(Infix(op, inner, Meaning(c))) &&
            ParseExpr(d, Lex(ToString(Infix(op, c, between)))) == Some(Infix(op, Meaning(c), inner))
  {
    EdgeBound(between, InfixRank(op));
    EdgeBound(c, InfixRank(op));
    ExprRoundTrip(d, Infix(op, between, c));
    ExprRoundTrip(d, Infix(op, c, between));
  }

  /** VirtualTable::ToString of every statement, join, set operation and WITH query:
      reading the text gives back every clause. */
  lemma {:induction false} StatementRoundTrip(d: Dialect, r: Rel)
    requires d.Valid() && RelOk(Reading(d), r)
    ensures ParseRel(d, Lex(RelText(r))) == Some(RelMeaning(r))
  {
    RelLexes(Reading(d), r, "");
    assert RelText(r) + "" == RelText(r);
    RelReads(d, r, Nil);
  }

  /** VirtualTable::ToStringFormatted means the same statement, whenever no token inside a
      common table expression spans several lines. */
  lemma {:induction false} FormattedRoundTrip(d: Dialect, r: Rel)
    requires d.Valid() && RelOk(Reading(d), r) && CteNewlines(r) == 0
    ensures ParseRel(d, Lex(Formatted(r))) == Some(RelMeaning(r))
  {
    LayoutsAgree(Reading(d), r);
    StatementRoundTrip(d, r);
  }

  // ---- unary minus

  /** `-e` renders as a minus sign and its operand exactly when the operand's text does not
      begin with an operator character; otherwise the two are read as one operator. */
  lemma {:induction false} MinusExact(m: Strict, e: Expr)
    requires ExprOk(m, e)
    ensures Lex(ToString(Prefix(Minus, e))) == Cons(Op("-"), Lex(TextIn(Build(e), kUnaryPlus)))
        <==> !StartsWithOperator(e, kUnaryPlus)
  {
    var x := Slot(e, kUnaryPlus, "");
    BarePrefix(Minus, e, "");
    SlotStarts(m, e, kUnaryPlus, "");
    if StartsWithOperator(e, kUnaryPlus) {
      MinusGlues(x);
    } else {
      LexSpell(Op("-"), x);
    }
  }

  lemma {:induction false} MinusGlues(x: string)
    requires x != "" && IsOperatorChar(x[0])
    ensures Lex("-" + x).Cons? && Lex("-" + x).head != Op("-")
  {
  }

  /** Negating the integer literal -1 starts a comment instead of negating anything. */
  lemma {:induction false} MinusOfNegative(m: Strict)
    ensures ExprOk(m, NegNum("1")) && ToString(Prefix(Minus, NegNum("1"))) == "--1"
    ensures Lex("--1") != Cons(Op("-"), Lex("-1"))
  {
    var e := NegNum("1");
    BarePrefix(Minus, e, "");
    SlotBare(e, kUnaryPlus, "");
    assert "-" + "1" == "-1";
    BareLeaf(e, "-1", "");
    assert "-" + "-1" == "--1";
    MinusExact(m, e);
  }

  /** A member access is read as its operand, a dot and its member exactly when the operand
      is no number: a numeral runs through the dot. */
  lemma {:induction false} MemberExact(m: Strict, a: Expr, b: Expr)
    requires ExprOk(m, a) && ExprOk(m, b)
    ensures Lex(ToString(Infix(Member, a, b))) == PrintIn(a, kDot, Cons(Period, Lex(TextIn(Build(b), kDot))))
        <==> !IsNumeric(a)
  {
    var x := Slot(b, kDot, "");
    var k := "." + x;
    BareInfix(Member, a, b, "");
    LexOne('.', x);
    if IsNumeric(a) {
      SlotBare(a, kDot, k);
      NumberGlues(a, k);
    } else {
      SlotLexes(m, a, kDot, k);
    }
  }

  lemma {:induction false} NumberGlues(a: Expr, k: string)
    requires IsNumeric(a) && IsNumeral(if a.Leaf? then a.tok.digits else a.digits) && k != "" && k[0] == '.'
    ensures Lex(Bare(a, k)) != Print(a, Lex(k))
  {
    if a.Leaf? {
      BareLeaf(a, Spell(a.tok), k);
      NumeralGlues(a.tok.digits, k);
    } else {
      BareLeaf(a, "-" + a.digits, k);
      NumeralGlues(a.digits, k);
      Assoc("-", a.digits, k);
      LexSpell(Op("-"), a.digits + k);
    }
  }

  lemma {:induction false} NumeralGlues(digits: string, k: string)
    requires IsNumeral(digits) && k != "" && k[0] == '.'
    ensures Lex(digits + k).Cons? && Lex(digits + k).head != Num(digits)
  {
  }
}
