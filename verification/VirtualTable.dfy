/** src/virtual_table.cpp: what may stand in FROM, and aliases. */
module VirtualTables {
  import opened Basics
  import opened Tokens
  import opened Lexer
  import opened Syntax
  import opened Text
  import opened Phrases
  import opened Grammar
  import opened WellFormed
  import opened Render
  import opened Identifier
  import opened RoundTrip

  /** ToStringAsFromItem; None where it throws for want of an alias. */
  function AsFromItem(r: Rel): Option<string> {
    match r
    case Table(_) => Some(RelText(r))
    case Alias(_, _) => Some(RelText(r))
    case Join(_, _, _, _) => Some(RelText(r))
    case Select(_, _, _, _, _, _, _, _, _) => None
    case SetOp(_, _, _) => None
    case With(_, _) => None
  }

  /** A text is let into FROM exactly when it does not read as a query: no FROM item is a
      subquery without an alias. */
  lemma {:induction false} FromItemExact(d: Dialect, r: Rel)
    requires d.Valid() && RelOk(Reading(d), r)
    ensures ParseRel(d, Lex(RelText(r))).Some?
    ensures AsFromItem(r) == None <==> IsQuery(ParseRel(d, Lex(RelText(r))).value)
    ensures AsFromItem(r).Some? ==> AsFromItem(r).value == RelText(r) && IsFromItem(r)
  {
    StatementRoundTrip(d, r);
    assert IsQuery(RelMeaning(r)) == IsQuery(r);
  }

  /** A query without an alias stands as an operand of a join, at any depth. */
  predicate QueryOperand(r: Rel) {
    match r
    case Join(_, a, b, _) => IsQuery(a) || IsQuery(b) || QueryOperand(a) || QueryOperand(b)
    case Alias(x, _) => QueryOperand(x)
    case _ => false
  }

  lemma {:induction false} OperandsKept(r: Rel)
    ensures QueryOperand(RelMeaning(r)) == QueryOperand(r)
  {
    match r
    case Join(_, a, b, _) =>
      OperandsKept(a);
      OperandsKept(b);
      assert IsQuery(RelMeaning(a)) == IsQuery(a) && IsQuery(RelMeaning(b)) == IsQuery(b);
    case Alias(x, _) => OperandsKept(x);
    case _ =>
  }

  /** The check looks at the whole item only: a text it lets into FROM has a subquery without
      an alias inside exactly when the join was built with one. */
  lemma {:induction false} OperandExact(d: Dialect, r: Rel)
    requires d.Valid() && RelOk(Reading(d), r) && AsFromItem(r).Some?
    ensures var read := ParseRel(d, Lex(AsFromItem(r).value));
            read.Some? && (QueryOperand(read.value) <==> QueryOperand(r))
  {
    StatementRoundTrip(d, r);
    OperandsKept(r);
  }

  /** A join with a subquery on the left is let through. */
  lemma {:induction false} OperandAccepted(q: Rel, table: Rel)
    requires IsQuery(q)
    ensures var r := Join(Cross, q, table, NoQualifier);
            AsFromItem(r) == Some("(" + RelText(q) + ")" + " CROSS JOIN " + Bracketed(table)) && QueryOperand(r)
  {
    var a, b := Bracketed(q), Bracketed(table);
    var r := Join(Cross, q, table, NoQualifier);
    Assoc("(", RelText(q), ")");
    assert b + "" == b;
    assert " CROSS JOIN " == " " + "CROSS" + " JOIN ";
    Assoc(" " + "CROSS", " JOIN ", b);
    Assoc(" ", "CROSS", " JOIN " + b);
    Assoc(a, " CROSS JOIN ", b);
    assert RelText(r) == a + (" " + ("CROSS" + (" JOIN " + (b + ""))));
  }

  /** VirtualTable::As; None where the name is rejected. */
  method As(r: Rel, name: string) returns (text: Option<string>)
    ensures text.Some? <==> exists parts :: Names(parts, name)
    ensures text.Some? ==> text.value == RelText(Alias(r, PathOf(PartsOf(name, 0))))
  {
    AcceptsExact(name);
    var ok := ValidateIdentifier(name);
    if !ok {
      return None;
    }
    text := Some(Bracketed(r) + " AS " + name);
    AsSpelling();
    PartsNamed(name, 0);
    PathOfText(PartsOf(name, 0));
    assert name[0..] == name;
    Assoc(Bracketed(r), " AS ", name);
    Assoc(Phrase(W1(AS)), " ", name);
  }

  /** The aliased text reads back as that table value under that name. */
  lemma {:induction false} AsRoundTrip(d: Dialect, r: Rel, parts: seq<string>, name: string)
    requires d.Valid() && RelOk(Reading(d), r) && !r.Alias? && Names(parts, name) && PlainPath(PathOf(parts))
    ensures PartsOf(name, 0) == parts
    ensures ParseRel(d, Lex(RelText(Alias(r, PathOf(PartsOf(name, 0)))))) == Some(Alias(RelMeaning(r), PathOf(parts)))
  {
    AcceptsExact(name);
    PartsNamed(name, 0);
    assert name[0..] == name;
    NamesUnique(parts, PartsOf(name, 0), name);
    StatementRoundTrip(d, Alias(r, PathOf(parts)));
  }
}
