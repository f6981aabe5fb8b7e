/** The literal fragments between operands, as src/expr.cpp, src/condition.cpp, src/join.cpp
    and src/set_op.cpp write them. */
module Fragments {
  import opened Lexer
  import opened Syntax

  function LikeText(neg: bool, kind: LikeKind): string {
    match kind
    case Like => if neg then " NOT LIKE " else " LIKE "
    case ILike => if neg then " NOT ILIKE " else " ILIKE "
    case SimilarTo => if neg then " NOT SIMILAR TO " else " SIMILAR TO "
  }

  function InfixText(op: InfixOp): string {
    match op
    case Sym(name, _) => " " + (name + " ")
    case Member => "."
    case AndOp => " AND "
    case OrOp => " OR "
    case LikeOp(neg, kind) => LikeText(neg, kind)
    case DistinctFrom(neg) => if neg then " IS NOT DISTINCT FROM " else " IS DISTINCT FROM "
  }

  function PrefixText(op: PrefixOp): string {
    match op
    case Minus => "-"
    case NotOp => "NOT "
    case Custom(name, _) => name + " "
  }

  function PostfixText(op: PostfixOp): string {
    match op
    case IsTrue => " IS TRUE"
    case IsFalse => " IS FALSE"
    case IsNull => " IS NULL"
    case IsNotNull => " IS NOT NULL"
    case CollateOp(c) => " COLLATE " + Spell(c)
  }

  function BetweenText(neg: bool): string {
    if neg then " NOT BETWEEN " else " BETWEEN "
  }

  /** The fragment before the delimited part, up to its opening bracket. */
  function SuffixText(op: SuffixOp): string {
    match op
    case Subscript => ""
    case InOp(neg) => if neg then " NOT IN " else " IN "
    case EqAny => " = ANY "
    case NeAll => " <> ALL "
  }

  function JoinName(kind: JoinKind): string {
    match kind
    case Inner => "INNER"
    case Cross => "CROSS"
    case LeftOuter => "LEFT OUTER"
    case RightOuter => "RIGHT OUTER"
    case FullOuter => "FULL OUTER"
    case NaturalInner => "NATURAL INNER"
    case NaturalLeftOuter => "NATURAL LEFT OUTER"
    case NaturalRightOuter => "NATURAL RIGHT OUTER"
    case NaturalFullOuter => "NATURAL FULL OUTER"
  }

  function SetName(kind: SetKind): string {
    match kind
    case Union => "UNION"
    case UnionAll => "UNION ALL"
    case Intersect => "INTERSECT"
    case Except => "EXCEPT"
  }
}
