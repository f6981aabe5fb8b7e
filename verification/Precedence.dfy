/** include/iron_query/operator_precedence.hpp: the order of the enumerators is
    the order of binding strength, tightest first. */
module Precedence {

  type Prec = n: nat | n <= 17

  const kSymbol: Prec := 0
  const kDot: Prec := 1
  const kTypecast: Prec := 2
  const kIndex: Prec := 3
  const kUnaryPlus: Prec := 4
  const kCollate: Prec := 5
  const kAt: Prec := 6
  const kExp: Prec := 7
  const kMul: Prec := 8
  const kPlus: Prec := 9
  const kAnyOther: Prec := 10
  const kBetween: Prec := 11
  const kCompare: Prec := 12
  const kIs: Prec := 13
  const kNot: Prec := 14
  const kAnd: Prec := 15
  const kOr: Prec := 16
  const kExtract: Prec := 17  // "no brackets"
}
