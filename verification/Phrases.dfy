/** The keyword fragments between the operands of a printed expression or clause. */
module Phrases {
  import opened Basics
  import opened Tokens
  import opened Lexer
  import opened Text
  import opened Syntax
  import opened Fragments

  /** Keywords, each behind one space. */
  function Phrase(ks: List<Keyword>): string {
    match ks
    case Nil => ""
    case Cons(w, rest) => " " + (KwText(w) + Phrase(rest))
  }

  function PhraseTokens(ks: List<Keyword>, k: Tokens): Tokens {
    match ks
    case Nil => k
    case Cons(w, rest) => Cons(Kw(w), PhraseTokens(rest, k))
  }

  function W1(a: Keyword): List<Keyword> { Cons(a, Nil) }
  function W2(a: Keyword, b: Keyword): List<Keyword> { Cons(a, W1(b)) }
  function W3(a: Keyword, b: Keyword, c: Keyword): List<Keyword> { Cons(a, W2(b, c)) }
  function W4(a: Keyword, b: Keyword, c: Keyword, d: Keyword): List<Keyword> { Cons(a, W3(b, c, d)) }

  /** A text that cannot run on into a word before it. */
  predicate Breaks(k: string) {
    k == "" || !In(k[0], WordChars)
  }

  lemma {:induction false} LexWord(w: Keyword, k: string)
    requires Breaks(k)
    ensures Lex(KwText(w) + k) == Cons(Kw(w), Lex(k))
  {
    LexSpell(Kw(w), k);
  }

  lemma {:induction false} PhraseBreaks(ks: List<Keyword>, k: string)
    requires Breaks(k)
    ensures Breaks(Phrase(ks) + k)
  {
    if ks.Nil? { assert "" + k == k; }
  }

  lemma {:induction false} PhraseCons(w: Keyword, rest: List<Keyword>, k: string)
    ensures Phrase(Cons(w, rest)) + k == [' '] + (KwText(w) + (Phrase(rest) + k))
  {
    Assoc3(" ", KwText(w), Phrase(rest), k);
  }

  lemma {:induction false} LexPhrase(ks: List<Keyword>, k: string)
    requires Breaks(k)
    ensures Lex(Phrase(ks) + k) == PhraseTokens(ks, Lex(k))
  {
    match ks
    case Nil => assert "" + k == k;
    case Cons(w, rest) =>
      LexPhrase(rest, k);
      PhraseBreaks(rest, k);
      PhraseCons(w, rest, k);
      LexWord(w, Phrase(rest) + k);
      LexSpace(' ', KwText(w) + (Phrase(rest) + k));
  }

  lemma {:induction false} PhraseTokensAre(a: Keyword, b: Keyword, c: Keyword, d: Keyword, k: Tokens)
    ensures PhraseTokens(W1(a), k) == Cons(Kw(a), k)
    ensures PhraseTokens(W2(a, b), k) == Cons(Kw(a), Cons(Kw(b), k))
    ensures PhraseTokens(W3(a, b, c), k) == Cons(Kw(a), Cons(Kw(b), Cons(Kw(c), k)))
    ensures PhraseTokens(W4(a, b, c, d), k) == Cons(Kw(a), Cons(Kw(b), Cons(Kw(c), Cons(Kw(d), k))))
  {
    assert PhraseTokens(W1(d), k) == Cons(Kw(d), k);
    assert PhraseTokens(W1(c), k) == Cons(Kw(c), k);
    assert PhraseTokens(W2(c, d), k) == Cons(Kw(c), PhraseTokens(W1(d), k));
    assert PhraseTokens(W2(b, c), k) == Cons(Kw(b), PhraseTokens(W1(c), k));
    assert PhraseTokens(W3(b, c, d), k) == Cons(Kw(b), PhraseTokens(W2(c, d), k));
  }

  // ---- the keywords of the fragments

  /** NOT in front of the keywords of a negated predicate. */
  function Negated(neg: bool, ks: List<Keyword>): List<Keyword> {
    if neg then Cons(NOT, ks) else ks
  }

  function LikeWords(kind: LikeKind): List<Keyword> {
    match kind
    case Like => W1(LIKE)
    case ILike => W1(ILIKE)
    case SimilarTo => W2(SIMILAR, TO)
  }

  function JoinWords(kind: JoinKind): List<Keyword> {
    match kind
    case Inner => W2(INNER, JOIN)
    case Cross => W2(CROSS, JOIN)
    case LeftOuter => W3(LEFT, OUTER, JOIN)
    case RightOuter => W3(RIGHT, OUTER, JOIN)
    case FullOuter => W3(FULL, OUTER, JOIN)
    case NaturalInner => W3(NATURAL, INNER, JOIN)
    case NaturalLeftOuter => W4(NATURAL, LEFT, OUTER, JOIN)
    case NaturalRightOuter => W4(NATURAL, RIGHT, OUTER, JOIN)
    case NaturalFullOuter => W4(NATURAL, FULL, OUTER, JOIN)
  }

  function SetWords(kind: SetKind): List<Keyword> {
    match kind
    case Union => W1(UNION)
    case UnionAll => W2(UNION, ALL)
    case Intersect => W1(INTERSECT)
    case Except => W1(EXCEPT)
  }

  // ---- the fragments spell those keywords

  lemma {:induction false} LogicSpelling()
    ensures InfixText(AndOp) == Phrase(W1(AND)) + " " && InfixText(OrOp) == Phrase(W1(OR)) + " "
    ensures PrefixText(NotOp) == KwText(NOT) + " "
  {
  }

  lemma {:induction false} AsSpelling()
    ensures Phrase(W1(AS)) + " " == " AS "
  {
  }

  lemma {:induction false} PlainLikeSpelling(kind: LikeKind)
    ensures LikeText(false, kind) == Phrase(LikeWords(kind)) + " "
  {
  }

  lemma {:induction false} NotLikeSpelling(kind: LikeKind)
    ensures LikeText(true, kind) == " NOT" + (Phrase(LikeWords(kind)) + " ")
  {
    PlainLikeSpelling(kind);
  }

  lemma {:induction false} LikeSpelling(neg: bool, kind: LikeKind)
    ensures LikeText(neg, kind) == Phrase(Negated(neg, LikeWords(kind))) + " "
  {
    if neg {
      NotLikeSpelling(kind);
      NotPhrase(LikeWords(kind));
    } else {
      PlainLikeSpelling(kind);
    }
  }

  lemma {:induction false} NotPhrase(ks: List<Keyword>)
    ensures Phrase(Cons(NOT, ks)) + " " == " NOT" + (Phrase(ks) + " ")
  {
    assert " NOT" == " " + KwText(NOT);
    Assoc(" ", KwText(NOT), Phrase(ks));
    Assoc(" NOT", Phrase(ks), " ");
  }

  lemma {:induction false} DistinctFromSpelling(neg: bool)
    ensures InfixText(DistinctFrom(neg)) == Phrase(Cons(IS, Negated(neg, W2(DISTINCT, FROM)))) + " "
  {
    var ks := W2(DISTINCT, FROM);
    DistinctFromPhrase();
    NotPhrase(ks);
    IsPhrase(Negated(neg, ks));
  }

  lemma {:induction false} DistinctFromPhrase()
    ensures InfixText(DistinctFrom(false)) == " IS" + (Phrase(W2(DISTINCT, FROM)) + " ")
    ensures InfixText(DistinctFrom(true)) == " IS" + (" NOT" + (Phrase(W2(DISTINCT, FROM)) + " "))
  {
    DistinctFromWords();
    DistinctFromLiterals();
  }

  lemma {:induction false} DistinctFromWords()
    ensures Phrase(W2(DISTINCT, FROM)) + " " == " DISTINCT FROM "
  {
  }

  lemma {:induction false} DistinctFromLiterals()
    ensures InfixText(DistinctFrom(false)) == " IS" + " DISTINCT FROM "
    ensures InfixText(DistinctFrom(true)) == " IS" + (" NOT" + " DISTINCT FROM ")
  {
  }

  lemma {:induction false} IsPhrase(ks: List<Keyword>)
    ensures Phrase(Cons(IS, ks)) + " " == " IS" + (Phrase(ks) + " ")
  {
    assert " IS" == " " + KwText(IS);
    Assoc(" ", KwText(IS), Phrase(ks));
    Assoc(" IS", Phrase(ks), " ");
  }

  lemma {:induction false} TestSpelling()
    ensures PostfixText(IsTrue) == Phrase(W2(IS, TRUE)) && PostfixText(IsFalse) == Phrase(W2(IS, FALSE))
    ensures PostfixText(IsNull) == Phrase(W2(IS, NULL)) && PostfixText(IsNotNull) == Phrase(W3(IS, NOT, NULL))
  {
    NullSpelling();
    NotNullSpelling();
  }

  lemma {:induction false} NullSpelling()
    ensures PostfixText(IsNull) == Phrase(W2(IS, NULL))
  {
  }

  lemma {:induction false} NotNullSpelling()
    ensures PostfixText(IsNotNull) == Phrase(W3(IS, NOT, NULL))
  {
  }

  lemma {:induction false} CollateSpelling(c: Token)
    ensures PostfixText(CollateOp(c)) == Phrase(W1(COLLATE)) + (" " + Spell(c))
  {
    assert " COLLATE " == Phrase(W1(COLLATE)) + " ";
    Assoc(Phrase(W1(COLLATE)), " ", Spell(c));
  }

  lemma {:induction false} BetweenSpelling(neg: bool)
    ensures BetweenText(neg) == Phrase(Negated(neg, W1(BETWEEN))) + " "
  {
  }

  lemma {:induction false} InSpelling(neg: bool)
    ensures SuffixText(InOp(neg)) == Phrase(Negated(neg, W1(IN))) + " "
  {
  }

  lemma {:induction false} QuantifierSpelling()
    ensures SuffixText(EqAny) == " " + "=" + (Phrase(W1(ANY)) + " ")
    ensures SuffixText(NeAll) == " " + "<>" + (Phrase(W1(ALL)) + " ")
  {
  }

  lemma {:induction false} SetSpelling(kind: SetKind)
    ensures " " + SetName(kind) == Phrase(SetWords(kind))
  {
  }

  lemma {:induction false} CastSpelling()
    ensures "CAST (" == KwText(CAST) + " (" && " AS " == Phrase(W1(AS)) + " "
  {
  }

  lemma {:induction false} ExistsSpelling()
    ensures "EXISTS " == KwText(EXISTS) + " " && "NOT EXISTS " == KwText(NOT) + " " + "EXISTS "
  {
  }

  lemma {:induction false} DistinctSpelling()
    ensures "DISTINCT " == KwText(DISTINCT) + " "
  {
  }

  predicate Natural(kind: JoinKind) {
    kind.NaturalInner? || kind.NaturalLeftOuter? || kind.NaturalRightOuter? || kind.NaturalFullOuter?
  }

  lemma {:induction false} JoinSpelling(kind: JoinKind)
    ensures " " + JoinName(kind) + " JOIN" == Phrase(JoinWords(kind))
  {
    if Natural(kind) {
      NaturalSpelling(kind);
    } else if kind.Inner? || kind.Cross? {
      JoinTwo(if kind.Inner? then INNER else CROSS);
      assert KwText(INNER) == "INNER" && KwText(CROSS) == "CROSS";
    } else {
      OuterSpelling(kind);
    }
  }

  lemma {:induction false} OuterNames()
    ensures "LEFT OUTER" == KwText(LEFT) + " " + KwText(OUTER)
    ensures "RIGHT OUTER" == KwText(RIGHT) + " " + KwText(OUTER)
    ensures "FULL OUTER" == KwText(FULL) + " " + KwText(OUTER)
  {
  }

  lemma {:induction false} NaturalNames()
    ensures "NATURAL LEFT OUTER" == "NATURAL" + " " + KwText(LEFT) + " " + "OUTER"
    ensures "NATURAL RIGHT OUTER" == "NATURAL" + " " + KwText(RIGHT) + " " + "OUTER"
  {
  }

  lemma {:induction false} NaturalInnerNames()
    ensures "NATURAL FULL OUTER" == "NATURAL" + " " + KwText(FULL) + " " + "OUTER"
    ensures "NATURAL INNER" == KwText(NATURAL) + " " + KwText(INNER)
  {
  }

  lemma {:induction false} OuterSpelling(kind: JoinKind)
    requires kind.LeftOuter? || kind.RightOuter? || kind.FullOuter?
    ensures " " + JoinName(kind) + " JOIN" == Phrase(JoinWords(kind))
  {
    OuterNames();
    JoinThree(if kind.LeftOuter? then LEFT else if kind.RightOuter? then RIGHT else FULL, OUTER);
  }

  lemma {:induction false} NaturalSpelling(kind: JoinKind)
    requires Natural(kind)
    ensures " " + JoinName(kind) + " JOIN" == Phrase(JoinWords(kind))
  {
    NaturalNames();
    NaturalInnerNames();
    if kind.NaturalInner? {
      JoinThree(NATURAL, INNER);
    } else {
      JoinFour(if kind.NaturalLeftOuter? then LEFT else if kind.NaturalRightOuter? then RIGHT else FULL);
    }
  }

  lemma {:induction false} JoinTwo(a: Keyword)
    ensures Phrase(W2(a, JOIN)) == " " + KwText(a) + " JOIN"
  {
    assert Phrase(W1(JOIN)) == " JOIN";
  }

  lemma {:induction false} JoinThree(a: Keyword, b: Keyword)
    ensures Phrase(W3(a, b, JOIN)) == " " + (KwText(a) + " " + KwText(b)) + " JOIN"
  {
    JoinTwo(b);
    Assoc(KwText(a), " ", KwText(b));
    Assoc(KwText(a), " " + KwText(b), " JOIN");
    Assoc(" ", KwText(a) + " " + KwText(b), " JOIN");
  }

  lemma {:induction false} JoinFour(b: Keyword)
    ensures Phrase(W4(NATURAL, b, OUTER, JOIN)) == " " + ("NATURAL" + " " + KwText(b) + " " + "OUTER") + " JOIN"
  {
    JoinThree(b, OUTER);
    assert KwText(NATURAL) == "NATURAL" && KwText(OUTER) == "OUTER";
    var t := KwText(b) + " " + "OUTER";
    Assoc("NATURAL" + " ", KwText(b), " ");
    Assoc("NATURAL" + " ", KwText(b) + " ", "OUTER");
    Assoc("NATURAL", " ", t);
    Assoc("NATURAL", " " + t, " JOIN");
    Assoc(" ", "NATURAL" + (" " + t), " JOIN");
  }
}
