/** What a caller builds: one constructor per shape of node the C++ operators create.
    Trees record the builder calls; `Meaning` is the SQL tree they stand for. */
module Syntax {
  import opened Basics
  import opened Precedence
  import opened Tokens

  datatype LikeKind = Like | ILike | SimilarTo

  /** `left op right`, both operands one level tighter than the operator. */
  datatype InfixOp =
    | Sym(name: string, prec: Prec)        // BinaryOp, CompareOp
    | Member                               // Dot
    | AndOp
    | OrOp
    | LikeOp(neg: bool, kind: LikeKind)
    | DistinctFrom(neg: bool)

  datatype PrefixOp =
    | Minus
    | NotOp
    | Custom(name: string, prec: Prec)     // PrefixOp

  datatype PostfixOp =
    | IsTrue | IsFalse | IsNull | IsNotNull
    | CollateOp(collation: Token)

  /** `left op inner close`, the inner part delimited by brackets. */
  datatype SuffixOp = Subscript | InOp(neg: bool) | EqAny | NeAll

  datatype Body = Exprs(es: List<Expr>) | Sub(query: Rel)

  datatype When = When(cond: Expr, result: Expr)

  datatype Expr =
    | Leaf(tok: Token)
    | NegNum(digits: string)               // Expr(-42): one leaf "-42"
    | Infix(iop: InfixOp, a: Expr, b: Expr)
    | Prefix(pop: PrefixOp, a: Expr)
    | Postfix(qop: PostfixOp, a: Expr)
    | Between(neg: bool, a: Expr, lo: Expr, hi: Expr)
    | Suffix(sop: SuffixOp, a: Expr, body: Body)
    | Call(quals: List<Token>, name: string, distinct: bool, args: List<Expr>)
    | Cast(a: Expr, typ: Token)
    | Case(whens: List<When>, els: Option<Expr>)
    | Exists(query: Rel)
    | NotExists(query: Rel)
    | Scalar(query: Rel)                   // VirtualTable::operator Expr

  datatype Distinctness = Plain | Distinct | DistinctOn(on: List<Expr>)

  datatype Item = Item(e: Expr, alias: Option<string>)

  datatype Nulls = NullsDefault | NullsFirst | NullsLast

  datatype OrderTerm = OrderTerm(e: Expr, desc: bool, nulls: Nulls)

  datatype JoinKind =
    | Inner | Cross | LeftOuter | RightOuter | FullOuter
    | NaturalInner | NaturalLeftOuter | NaturalRightOuter | NaturalFullOuter

  datatype Qualifier = NoQualifier | OnCond(cond: Expr) | UsingCols(cols: List<Expr>)

  datatype SetKind = Union | UnionAll | Intersect | Except

  datatype Cte = Cte(name: List<Token>, query: Rel)

  datatype Rel =
    | Table(path: List<Token>)
    | Alias(rel: Rel, alias: List<Token>)
    | Join(kind: JoinKind, left: Rel, right: Rel, qual: Qualifier)
    | Select(distinct: Distinctness, items: List<Item>, from: Rel,
             where: Option<Expr>, group: Option<List<Expr>>, having: Option<Expr>,
             order: Option<List<OrderTerm>>, limit: Option<int>, offset: Option<int>)
    | SetOp(setKind: SetKind, first: Rel, second: Rel)
    | With(ctes: List<Cte>, main: Rel)

  function InfixRank(op: InfixOp): Prec {
    match op
    case Sym(_, p) => p
    case Member => kDot
    case AndOp => kAnd
    case OrOp => kOr
    case LikeOp(_, _) => kBetween
    case DistinctFrom(_) => kIs
  }

  function PrefixRank(op: PrefixOp): Prec {
    match op
    case Minus => kUnaryPlus
    case NotOp => kNot
    case Custom(_, p) => p
  }

  function PostfixRank(op: PostfixOp): Prec {
    match op
    case CollateOp(_) => kCollate
    case _ => kIs
  }

  function SuffixRank(op: SuffixOp): Prec {
    match op
    case Subscript => kIndex
    case InOp(_) => kBetween
    case EqAny | NeAll => kCompare
  }

  /** The precedence tag each constructor puts on its node. */
  function Rank(e: Expr): Prec {
    match e
    case Infix(op, _, _) => InfixRank(op)
    case Prefix(op, _) => PrefixRank(op)
    case Postfix(op, _) => PostfixRank(op)
    case Between(_, _, _, _) => kBetween
    case Suffix(op, _, _) => SuffixRank(op)
    case Cast(_, _) => kTypecast
    case _ => kSymbol
  }

  /** Leaves tagged kSymbol whose text is a prefix operator and its operand, or a
      dotted call: the rank their text really has. */
  function HiddenRank(e: Expr): Prec {
    match e
    case NegNum(_) => kUnaryPlus
    case NotExists(_) => kNot
    case Call(Cons(_, _), _, _, _) => kDot
    case _ => kSymbol
  }

  predicate IsQuery(r: Rel) {
    r.Select? || r.SetOp? || r.With?
  }

  predicate IsFromItem(r: Rel) {
    r.Table? || r.Alias? || r.Join?
  }
}
