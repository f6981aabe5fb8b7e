/** src/impl/render.hpp and src/impl/render.cpp: rendering the terms of a clause, one by
    one, into the list that JoinCsv joins. */
module RenderAll {
  import opened Basics
  import opened Tokens
  import opened Lexer
  import opened Text
  import opened Syntax
  import opened Phrases
  import opened Render

  method RenderExprs(es: List<Expr>) returns (texts: seq<string>)
    ensures texts == ExprTexts(es)
  {
    texts := [];
    var rest := es;
    while rest.Cons?
      invariant texts + ExprTexts(rest) == ExprTexts(es)
      decreases rest
    {
      Regroup(texts, [ToString(rest.head)], ExprTexts(rest.tail));
      texts := texts + [ToString(rest.head)];
      rest := rest.tail;
    }
  }

  /** Expr::As; None where the alias is not a plain identifier. */
  method As(e: Expr, name: string) returns (text: Option<string>)
    ensures text.Some? <==> IsPlainIdentifier(name)
    ensures text.Some? ==> ItemTexts(Cons(Item(e, Some(name)), Nil)) == [text.value]
  {
    if !IsPlainIdentifier(name) {
      return None;
    }
    var s := ToString(e);
    text := Some(s + " AS " + name);
    AsSpelling();
    Assoc(s, " AS ", name);
    Assoc(Phrase(W1(AS)), " ", name);
    assert ItemTexts(Nil) == [];
  }

  method RenderItems(items: List<Item>) returns (texts: seq<string>)
    ensures texts == ItemTexts(items)
  {
    texts := [];
    var rest := items;
    while rest.Cons?
      invariant texts + ItemTexts(rest) == ItemTexts(items)
      decreases rest
    {
      var text := ToString(rest.head.e) + AliasText(rest.head.alias);
      Regroup(texts, [text], ItemTexts(rest.tail));
      texts := texts + [text];
      rest := rest.tail;
    }
  }

  lemma {:induction false} DescWords()
    ensures " DESC" == Phrase(W1(DESC)) && " NULLS FIRST" == Phrase(W2(NULLS, FIRST))
  {
  }

  lemma {:induction false} NullsLastWords()
    ensures " NULLS LAST" == Phrase(W2(NULLS, LAST))
  {
  }

  method RenderTerm(t: OrderTerm) returns (s: string)
    ensures s == ToString(t.e) + OrderText(t.desc, t.nulls)
  {
    DescWords();
    NullsLastWords();
    s := ToString(t.e);
    if t.desc {
      s := s + " DESC";
    }
    if t.nulls.NullsFirst? {
      s := s + " NULLS FIRST";
    } else if t.nulls.NullsLast? {
      s := s + " NULLS LAST";
    }
    assert s == ToString(t.e) + OrderText(t.desc, t.nulls);
  }

  method RenderTerms(terms: List<OrderTerm>) returns (texts: seq<string>)
    ensures texts == TermTexts(terms)
  {
    texts := [];
    var rest := terms;
    while rest.Cons?
      invariant texts + TermTexts(rest) == TermTexts(terms)
      decreases rest
    {
      var text := RenderTerm(rest.head);
      Regroup(texts, [text], TermTexts(rest.tail));
      texts := texts + [text];
      rest := rest.tail;
    }
  }
}
