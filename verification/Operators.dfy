/** src/expr.cpp: the binary operators the library defines itself, with the precedence each
    one passes on, against PostgreSQL's own rows. */
module Operators {
  import opened Basics
  import opened Precedence
  import opened Tokens
  import opened Lexer
  import opened Syntax
  import opened Text
  import opened Fragments
  import opened Grammar
  import opened WellFormed
  import opened Render
  import opened Brackets
  import opened RoundTrip

  datatype LibraryOp =
    | Power | Times | Divide | Modulo | Add | Subtract | Concat
    | Less | LessEqual | Greater | GreaterEqual | Equal | NotEqual

  function OperatorOf(op: LibraryOp): InfixOp {
    match op
    case Power => Sym("^", kExp)
    case Times => Sym("*", kMul)
    case Divide => Sym("/", kMul)
    case Modulo => Sym("%", kMul)
    case Add => Sym("+", kPlus)
    case Subtract => Sym("-", kPlus)
    case Concat => Sym("||", kAnyOther)
    case Less => Sym("<", kCompare)
    case LessEqual => Sym("<=", kCompare)
    case Greater => Sym(">", kCompare)
    case GreaterEqual => Sym(">=", kCompare)
    case Equal => Sym("=", kCompare)
    case NotEqual => Sym("!=", kCompare)
  }

  /** The named operators of Table 4.2, with their rows; every other name is in row 10. */
  const Postgres := Dialect(
    map["^" := 7, "*" := 8, "/" := 8, "%" := 8, "+" := 9, "-" := 9,
        "<" := 12, ">" := 12, "=" := 12, "<=" := 12, ">=" := 12, "<>" := 12, "!=" := 12],
    map["+" := 4, "-" := 4])

  /** PostgreSQL knows every operator of the library by its name and reads it in the row the
      library brackets it for. */
  lemma {:induction false} OperatorKnown(op: LibraryOp)
    ensures Postgres.Valid() && InfixOk(Reading(Postgres), OperatorOf(op))
  {
    match op
    case Power | Times | Divide | Modulo => Arithmetic(op);
    case Add | Subtract | Concat => Arithmetic(op);
    case Less | LessEqual | Greater => Comparison(op);
    case GreaterEqual | Equal | NotEqual => Comparison(op);
  }

  lemma {:induction false} Arithmetic(op: LibraryOp)
    requires op.Power? || op.Times? || op.Divide? || op.Modulo? || op.Add? || op.Subtract? || op.Concat?
    ensures InfixOk(Reading(Postgres), OperatorOf(op))
  {
    assert IsOperatorName(OperatorOf(op).name);
  }

  lemma {:induction false} Comparison(op: LibraryOp)
    requires op.Less? || op.LessEqual? || op.Greater? || op.GreaterEqual? || op.Equal? || op.NotEqual?
    ensures InfixOk(Reading(Postgres), OperatorOf(op))
  {
    assert IsOperatorName(OperatorOf(op).name);
  }

  /** Hence whatever stands on its sides, PostgreSQL reads the operator as it was written. */
  lemma {:induction false} OperatorReads(op: LibraryOp, a: Expr, b: Expr)
    requires ExprOk(Reading(Postgres), a) && ExprOk(Reading(Postgres), b)
    requires LeftOk(a, InfixRank(OperatorOf(op))) && RightOk(b, InfixRank(OperatorOf(op)))
    ensures var e := Infix(OperatorOf(op), a, b);
            ParseExpr(Postgres, Lex(ToString(e))) == Some(Infix(OperatorOf(op), Meaning(a), Meaning(b)))
  {
    OperatorKnown(op);
    ExprRoundTrip(Postgres, Infix(OperatorOf(op), a, b));
  }

  /** In front of an operator of a row between, the default row of PrefixOp and row 10 make
      the same text of different trees. */
  lemma {:induction false} PrefixTextsMeet(name: string, op: InfixOp, a: Expr, b: Expr)
    requires kUnaryPlus < InfixRank(op) < 10 && Rank(a) < kUnaryPlus
    ensures ToString(Infix(op, Prefix(Custom(name, kUnaryPlus), a), b)) ==
      ToString(Prefix(Custom(name, 10), Infix(op, a, b)))
  {
    var near := Prefix(Custom(name, kUnaryPlus), a);
    InfixExact(op, near, b);
    InfixExact(op, a, b);
    BracketsExact(near);
    BracketsExact(Prefix(Custom(name, 10), Infix(op, a, b)));
    RankIsLevel(a);
    Assoc(name + " ", ToString(a), InfixText(op) + Wrapped(b, InfixLevel(op)));
  }

  /** PostgreSQL has every prefix operator but the signs in row 10. PrefixOp brackets for row
      4 by default, and so a product, sum or power behind such an operator is read as its
      operand. */
  lemma {:induction false} DefaultPrefixMisread(d: Dialect, name: string, op: InfixOp, a: Expr, b: Expr)
    requires d.Valid() && d.PrefixPrec(name) == 10
    requires kUnaryPlus < InfixRank(op) < 10 && Rank(a) < kUnaryPlus
    requires ExprOk(Reading(d), Prefix(Custom(name, 10), Infix(op, a, b)))
    ensures ParseExpr(d, Lex(ToString(Infix(op, Prefix(Custom(name, kUnaryPlus), a), b))))
         == Some(Prefix(Custom(name, 10), Infix(op, Meaning(a), Meaning(b))))
  {
    PrefixTextsMeet(name, op, a, b);
    ExprRoundTrip(d, Prefix(Custom(name, 10), Infix(op, a, b)));
  }
}
