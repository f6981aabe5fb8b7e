/** Tokens of the SQL text the builders print. */
module Tokens {
  import opened Basics

  /** Every keyword that occurs in a printed fragment. */
  datatype Keyword =
    | AND | OR | NOT | BETWEEN | LIKE | ILIKE | SIMILAR | TO | IN | ANY | ALL
    | IS | TRUE | FALSE | NULL | DISTINCT | FROM | COLLATE | CAST | AS
    | CASE | WHEN | THEN | ELSE | END | EXISTS
    | SELECT | ON | WHERE | GROUP | BY | HAVING | ORDER | DESC | NULLS | FIRST | LAST
    | LIMIT | OFFSET | WITH | UNION | INTERSECT | EXCEPT
    | INNER | CROSS | LEFT | RIGHT | FULL | OUTER | NATURAL | JOIN | USING

  datatype Token =
    | Word(name: string)      // unquoted identifier that is no keyword
    | Kw(kw: Keyword)
    | Num(digits: string)
    | Str(value: string)      // 'value', quotes undoubled
    | Quoted(value: string)   // "value", quotes undoubled
    | Param(digits: string)   // $1
    | Op(name: string)
    | LParen | RParen | LBracket | RBracket | Comma | Period
    | Bad(text: string)       // no token of the printed language

  type Tokens = List<Token>

  /** Operand keywords: constants that stand where a leaf may stand. */
  predicate IsConstant(kw: Keyword) {
    kw == NULL || kw == TRUE || kw == FALSE
  }

  /** Tokens that are an operand by themselves; `*` is the select-all leaf. */
  predicate IsLeaf(tok: Token) {
    match tok
    case Word(_) | Num(_) | Str(_) | Quoted(_) | Param(_) => true
    case Kw(kw) => IsConstant(kw)
    case Op(name) => name == "*"
    case _ => false
  }

  predicate IsName(tok: Token) {
    tok.Word? || tok.Quoted?
  }
}
