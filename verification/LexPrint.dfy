/** No token gluing: reading the rendered characters gives exactly the printed tokens. */
module LexPrint {
  import opened Basics
  import opened Precedence
  import opened Tokens
  import opened Lexer
  import opened Numerals
  import opened Syntax
  import opened Node
  import opened Text
  import opened Phrases
  import opened Fragments
  import opened Printer
  import opened WellFormed
  import opened Render

  /** The text of `e` in a slot of context `c`, in front of `k`. */
  function Slot(e: Expr, c: Prec, k: string): string {
    PartText(Child(Build(e), c), k)
  }

  /** The text of `e` without brackets, in front of `k`. */
  function Bare(e: Expr, k: string): string {
    PartsText(Build(e).parts, k)
  }

  lemma {:induction false} SlotBare(e: Expr, c: Prec, k: string)
    ensures Slot(e, c, k) == if Rank(e) >= c then "(" + Bare(e, ")" + k) else Bare(e, k)
  {
    BuildRank(e);
  }

  // ---- how each shape's text begins and continues

  lemma {:induction false} BareInfix(op: InfixOp, a: Expr, b: Expr, k: string)
    ensures Bare(Infix(op, a, b), k) == Slot(a, InfixRank(op), InfixText(op) + Slot(b, InfixRank(op), k))
  {
    Parts3(Child(Build(a), InfixRank(op)), Part.Text(InfixText(op)), Child(Build(b), InfixRank(op)), k);
  }

  lemma {:induction false} BarePrefix(op: PrefixOp, a: Expr, k: string)
    ensures Bare(Prefix(op, a), k) == PrefixText(op) + Slot(a, PrefixRank(op), k)
  {
    Parts2(Part.Text(PrefixText(op)), Child(Build(a), PrefixRank(op)), k);
  }

  lemma {:induction false} BarePostfix(op: PostfixOp, a: Expr, k: string)
    ensures Bare(Postfix(op, a), k) == Slot(a, PostfixRank(op), PostfixText(op) + k)
  {
    Parts2(Child(Build(a), PostfixRank(op)), Part.Text(PostfixText(op)), k);
  }

  lemma {:induction false} BareBetween(neg: bool, a: Expr, lo: Expr, hi: Expr, k: string)
    ensures Bare(Between(neg, a, lo, hi), k)
         == Slot(a, kBetween, BetweenText(neg) + Slot(lo, kBetween, " AND " + Slot(hi, kBetween, k)))
  {
    Parts5(Child(Build(a), kBetween), Part.Text(BetweenText(neg)), Child(Build(lo), kBetween),
           Part.Text(" AND "), Child(Build(hi), kBetween), k);
  }

  lemma {:induction false} BareCast(a: Expr, typ: Token, k: string)
    ensures Bare(Cast(a, typ), k)
         == "CAST (" + Slot(a, kTypecast, (" AS " + (Spell(typ) + ")")) + k)
  {
    Parts3(Part.Text("CAST ("), Child(Build(a), kTypecast), Part.Text(" AS " + (Spell(typ) + ")")), k);
  }

  lemma {:induction false} BareSub(op: SuffixOp, a: Expr, q: Rel, k: string)
    ensures Bare(Suffix(op, a, Sub(q)), k) == Slot(a, SuffixRank(op), (SuffixText(op) + Bracketed(q)) + k)
  {
    Parts2(Child(Build(a), SuffixRank(op)), Part.Text(SuffixText(op) + Bracketed(q)), k);
  }

  lemma {:induction false} BareExprs(op: SuffixOp, a: Expr, es: List<Expr>, k: string)
    ensures Bare(Suffix(op, a, Exprs(es)), k)
         == Slot(a, SuffixRank(op), SuffixText(op) + (OpenText(op) + PartsText(ListParts(es), CloseText(op) + k)))
  {
    var front := [Child(Build(a), SuffixRank(op)), Part.Text(SuffixText(op)), Part.Text(OpenText(op))];
    PartsConcat(front + ListParts(es), [Part.Text(CloseText(op))], k);
    Parts1(Part.Text(CloseText(op)), k);
    PartsConcat(front, ListParts(es), CloseText(op) + k);
    Parts3(front[0], front[1], front[2], PartsText(ListParts(es), CloseText(op) + k));
  }

  function CallFront(quals: List<Token>, name: string, distinct: bool): string {
    QualText(quals) + (name + ("(" + if distinct then "DISTINCT " else ""))
  }

  lemma {:induction false} BareCall(quals: List<Token>, name: string, distinct: bool, args: List<Expr>, k: string)
    ensures Bare(Call(quals, name, distinct, args), k)
         == CallFront(quals, name, distinct) + PartsText(ListParts(args), ")" + k)
  {
    var front := [Part.Text(CallFront(quals, name, distinct))];
    PartsConcat(front + ListParts(args), [Part.Text(")")], k);
    Parts1(Part.Text(")"), k);
    PartsConcat(front, ListParts(args), ")" + k);
    Parts1(front[0], PartsText(ListParts(args), ")" + k));
  }

  lemma {:induction false} BareLeaf(e: Expr, s: string, k: string)
    requires Build(e).parts == [Part.Text(s)]
    ensures Bare(e, k) == s + k
  {
    Parts1(Part.Text(s), k);
  }

  lemma {:induction false} SpellStarts(tok: Token)
    requires Spellable(tok)
    ensures Spell(tok) != "" && (IsOperatorChar(Spell(tok)[0]) <==> tok.Op?)
  {
    if tok.Kw? { KeywordText(tok.kw); }
  }

  lemma {:induction false} QualStarts(quals: List<Token>, s: string)
    requires QualsOk(quals) && IsPlainIdentifier(s)
    ensures QualText(quals) + s != "" && !IsOperatorChar((QualText(quals) + s)[0])
  {
    if quals.Cons? { SpellStarts(quals.head); }
  }

  /** A rendered operand is not empty, and begins with an operator character exactly when
      its leftmost token is an operator. */
  lemma {:induction false} SlotStarts(m: Strict, e: Expr, c: Prec, k: string)
    requires ExprOk(m, e)
    ensures Slot(e, c, k) != "" && (IsOperatorChar(Slot(e, c, k)[0]) <==> StartsWithOperator(e, c))
    decreases e
  {
    SlotBare(e, c, k);
    if Rank(e) < c {
      match e
      case Leaf(tok) => BareLeaf(e, Spell(tok), k); SpellStarts(tok);
      case NegNum(digits) => BareLeaf(e, "-" + digits, k);
      case Infix(op, a, b) =>
        BareInfix(op, a, b, k);
        SlotStarts(m, a, InfixRank(op), InfixText(op) + Slot(b, InfixRank(op), k));
      case Prefix(op, a) =>
        PrefixStarts(m, op, a, k);
      case Postfix(op, a) =>
        BarePostfix(op, a, k);
        SlotStarts(m, a, PostfixRank(op), PostfixText(op) + k);
      case Between(neg, a, lo, hi) =>
        BareBetween(neg, a, lo, hi, k);
        SlotStarts(m, a, kBetween, BetweenText(neg) + Slot(lo, kBetween, " AND " + Slot(hi, kBetween, k)));
      case Suffix(op, a, body) => SuffixStarts(m, e, k);
      case _ => AtomStarts(m, e, k);
    }
  }

  lemma {:induction false} PrefixStarts(m: Strict, op: PrefixOp, a: Expr, k: string)
    requires PrefixOk(m, op)
    ensures Bare(Prefix(op, a), k) != "" && (IsOperatorChar(Bare(Prefix(op, a), k)[0]) <==> !op.NotOp?)
  {
    BarePrefix(op, a, k);
    if op.Custom? {
      assert Lexer.In(op.name[0], OperatorChars);
      assert (PrefixText(op) + Slot(a, PrefixRank(op), k))[0] == op.name[0];
    }
  }

  lemma {:induction false} SuffixStarts(m: Strict, e: Expr, k: string)
    requires ExprOk(m, e) && e.Suffix?
    ensures Bare(e, k) != "" && (IsOperatorChar(Bare(e, k)[0]) <==> StartsWithOperator(e.a, SuffixRank(e.sop)))
    decreases e, 0
  {
    match e.body
    case Sub(q) =>
      BareSub(e.sop, e.a, q, k);
      SlotStarts(m, e.a, SuffixRank(e.sop), (SuffixText(e.sop) + Bracketed(q)) + k);
    case Exprs(es) =>
      BareExprs(e.sop, e.a, es, k);
      SlotStarts(m, e.a, SuffixRank(e.sop),
               SuffixText(e.sop) + (OpenText(e.sop) + PartsText(ListParts(es), CloseText(e.sop) + k)));
  }

  lemma {:induction false} AtomStarts(m: Strict, e: Expr, k: string)
    requires ExprOk(m, e) && (e.Call? || e.Cast? || e.Case? || e.Exists? || e.NotExists? || e.Scalar?)
    ensures Bare(e, k) != "" && !IsOperatorChar(Bare(e, k)[0])
  {
    match e
    case Call(quals, name, distinct, args) =>
      BareCall(quals, name, distinct, args, k);
      QualStarts(quals, name);
    case Cast(a, typ) =>
      BareCast(a, typ, k);
    case Case(_, _) =>
      BareLeaf(e, CaseText(e), k);
      KeywordText(CASE);
    case _ => QueryStarts(m, e, k);
  }

  lemma {:induction false} QueryStarts(m: Strict, e: Expr, k: string)
    requires ExprOk(m, e) && (e.Exists? || e.NotExists? || e.Scalar?)
    ensures Bare(e, k) != "" && !IsOperatorChar(Bare(e, k)[0])
  {
    match e
    case Exists(q) =>
      BareLeaf(e, "EXISTS " + Bracketed(q), k);
    case NotExists(q) =>
      BareLeaf(e, "NOT EXISTS " + Bracketed(q), k);
    case Scalar(q) => BareLeaf(e, Bracketed(q), k);
  }

  // ---- fragments are read as their tokens

  /** What may follow an operand in a rendered text. */
  predicate Delimits(k: string) {
    k == "" || k[0] in {' ', ')', ',', ']', '[', '\n'}
  }

  /** A `.` may follow only the operand of a member access, which is no numeral. */
  predicate CharFollows(e: Expr, c: Prec, k: string) {
    Delimits(k) || (k[0] == '.' && c == kDot && !IsNumeric(e))
  }

  predicate BareFollows(e: Expr, k: string) {
    Delimits(k) || (k[0] == '.' && Rank(e) == kSymbol && !IsNumeric(e))
  }

  lemma {:induction false} LexBlank(ws: string, k: string)
    requires forall i :: 0 <= i < |ws| ==> IsSpace(ws[i])
    ensures Lex(ws + k) == Lex(k)
  {
    if ws == "" {
      assert ws + k == k;
    } else {
      LexBlank(ws[1..], k);
      assert ws + k == [ws[0]] + (ws[1..] + k);
      LexSpace(ws[0], ws[1..] + k);
    }
  }

  lemma {:induction false} LexOne(c: char, k: string)
    requires c in {'(', ')', '[', ']', ',', '.'}
    ensures Lex([c] + k) == Cons(Punctuation(c), Lex(k))
  {
    LexPunctuation(c, k);
  }

  lemma {:induction false} LexWords(ks: List<Keyword>, k: string)
    ensures Lex((Phrase(ks) + " ") + k) == PhraseTokens(ks, Lex(k))
  {
    LexPhrase(ks, [' '] + k);
    LexSpace(' ', k);
    Assoc(Phrase(ks), " ", k);
  }

  lemma {:induction false} LexInfixText(m: Strict, op: InfixOp, k: string)
    requires InfixOk(m, op)
    ensures Lex(InfixText(op) + k) == InfixTokens(op, Lex(k))
    ensures if op.Member? then (InfixText(op) + k)[0] == '.' else Delimits(InfixText(op) + k)
  {
    match op
    case Sym(name, _) =>
      LexSpace(' ', k);
      LexSpell(Op(name), [' '] + k);
      LexSpace(' ', name + ([' '] + k));
      Assoc3(" ", name, " ", k);
    case Member => LexOne('.', k);
    case AndOp => LogicSpelling(); LexWords(W1(AND), k);
    case OrOp => LogicSpelling(); LexWords(W1(OR), k);
    case LikeOp(neg, kind) =>
      LikeSpelling(neg, kind);
      LexWords(Negated(neg, LikeWords(kind)), k);
      NegatedTokens(neg, LikeWords(kind), Lex(k));
      PhraseTokensAre(SIMILAR, TO, TO, TO, Lex(k));
    case DistinctFrom(neg) =>
      DistinctFromSpelling(neg);
      LexWords(Cons(IS, Negated(neg, W2(DISTINCT, FROM))), k);
      NegatedTokens(neg, W2(DISTINCT, FROM), Lex(k));
      PhraseTokensAre(DISTINCT, FROM, FROM, FROM, Lex(k));
  }

  lemma {:induction false} NegatedTokens(neg: bool, ks: List<Keyword>, k: Tokens)
    ensures PhraseTokens(Negated(neg, ks), k) == NotToken(neg, PhraseTokens(ks, k))
  {
  }

  lemma {:induction false} LexPrefixText(m: Strict, op: PrefixOp, k: string)
    requires PrefixOk(m, op) && (op.Minus? ==> k == "" || !IsOperatorChar(k[0]))
    ensures Lex(PrefixText(op) + k) == PrefixTokens(op, Lex(k))
  {
    match op
    case Minus => LexSpell(Op("-"), k);
    case NotOp => LogicSpelling(); LexThenSpace(Kw(NOT), k);
    case Custom(name, _) => LexThenSpace(Op(name), k);
  }

  lemma {:induction false} LexThenSpace(tok: Token, k: string)
    requires Spellable(tok) && (tok.Kw? || tok.Op? || tok.Word?)
    ensures Lex((Spell(tok) + " ") + k) == Cons(tok, Lex(k))
  {
    LexSpace(' ', k);
    LexSpell(tok, [' '] + k);
    Assoc(Spell(tok), " ", k);
  }

  lemma {:induction false} LexPostfixText(m: Strict, op: PostfixOp, k: string)
    requires PostfixOk(m, op) && Delimits(k)
    ensures Lex(PostfixText(op) + k) == PostfixTokens(op, Lex(k)) && Delimits(PostfixText(op) + k)
  {
    TestSpelling();
    match op
    case IsTrue => LexPhrase(W2(IS, TRUE), k); PhraseTokensAre(IS, TRUE, TRUE, TRUE, Lex(k));
    case IsFalse => LexPhrase(W2(IS, FALSE), k); PhraseTokensAre(IS, FALSE, FALSE, FALSE, Lex(k));
    case IsNull => LexPhrase(W2(IS, NULL), k); PhraseTokensAre(IS, NULL, NULL, NULL, Lex(k));
    case IsNotNull => LexPhrase(W3(IS, NOT, NULL), k); PhraseTokensAre(IS, NOT, NULL, NULL, Lex(k));
    case CollateOp(c) => CollateSpelling(c); LexCollate(c, k);
  }

  lemma {:induction false} LexCollate(c: Token, k: string)
    requires IsName(c) && Spellable(c) && Delimits(k)
    ensures Lex((Phrase(W1(COLLATE)) + (" " + Spell(c))) + k) == Cons(Kw(COLLATE), Cons(c, Lex(k)))
    ensures Delimits((Phrase(W1(COLLATE)) + (" " + Spell(c))) + k)
  {
    LexSpell(c, k);
    LexSpace(' ', Spell(c) + k);
    LexPhrase(W1(COLLATE), [' '] + (Spell(c) + k));
    PhraseTokensAre(COLLATE, COLLATE, COLLATE, COLLATE, Cons(c, Lex(k)));
    Assoc3(Phrase(W1(COLLATE)), " ", Spell(c), k);
  }

  lemma {:induction false} LexSuffixText(op: SuffixOp, k: string)
    ensures Lex(SuffixText(op) + (OpenText(op) + k)) == SuffixTokens(op, Lex(k))
    ensures Delimits(SuffixText(op) + (OpenText(op) + k))
  {
    match op
    case Subscript =>
      LexOne('[', k);
      assert SuffixText(op) + (OpenText(op) + k) == ['['] + k;
    case InOp(neg) =>
      LexOne('(', k);
      InSpelling(neg);
      LexWords(Negated(neg, W1(IN)), ['('] + k);
      NegatedTokens(neg, W1(IN), Lex(['('] + k));
    case EqAny =>
      LexOne('(', k);
      QuantifierSpelling();
      QuantifierText("=", ANY, ['('] + k);
    case NeAll =>
      LexOne('(', k);
      QuantifierSpelling();
      QuantifierText("<>", ALL, ['('] + k);
  }

  lemma {:induction false} QuantifierText(name: string, w: Keyword, k: string)
    requires IsOperatorName(name)
    ensures Lex((" " + name + (Phrase(W1(w)) + " ")) + k) == Cons(Op(name), Cons(Kw(w), Lex(k)))
  {
    var t := (Phrase(W1(w)) + " ") + k;
    LexWords(W1(w), k);
    LexSpell(Op(name), t);
    LexSpace(' ', name + t);
    Assoc(" " + name, Phrase(W1(w)) + " ", k);
    Assoc(" ", name, t);
  }

  lemma {:induction false} LexPath(path: List<Token>, k: string)
    requires PathOk(path) && Delimits(k)
    ensures Lex(PathText(path) + k) == PathTokens(path, Lex(k))
  {
    var n := path.head;
    if path.tail.Nil? {
      LexSpell(n, k);
    } else {
      LexPath(path.tail, k);
      LexOne('.', PathText(path.tail) + k);
      LexSpell(n, ['.'] + (PathText(path.tail) + k));
      Assoc3(Spell(n), ".", PathText(path.tail), k);
    }
  }

  lemma {:induction false} LexQuals(quals: List<Token>, k: string)
    requires QualsOk(quals)
    ensures Lex(QualText(quals) + k) == QualTokens(quals, Lex(k))
  {
    match quals
    case Nil => assert "" + k == k;
    case Cons(n, rest) =>
      LexQuals(rest, k);
      LexOne('.', QualText(rest) + k);
      LexSpell(n, ['.'] + (QualText(rest) + k));
      Assoc3(Spell(n), ".", QualText(rest), k);
  }

  // ---- expressions

  /** The rendered characters of an operand are read as its printed tokens. */
  lemma {:induction false} SlotLexes(m: Strict, e: Expr, c: Prec, k: string)
    requires ExprOk(m, e) && kSymbol < c && CharFollows(e, c, k)
    ensures Lex(Slot(e, c, k)) == PrintIn(e, c, Lex(k))
    decreases e, 9
  {
    SlotBare(e, c, k);
    if Rank(e) >= c {
      LexOne(')', k);
      BareLexes(m, e, ")" + k);
      LexOne('(', Bare(e, ")" + k));
    } else {
      BareLexes(m, e, k);
    }
  }

  lemma {:induction false} BareLexes(m: Strict, e: Expr, k: string)
    requires ExprOk(m, e) && BareFollows(e, k)
    ensures Lex(Bare(e, k)) == Print(e, Lex(k))
    decreases e, 8
  {
    match e
    case Leaf(tok) =>
      BareLeaf(e, Spell(tok), k);
      LexSpell(tok, k);
    case NegNum(digits) => NegNumLexes(e, k);
    case Infix(_, _, _) => InfixLexes(m, e, k);
    case Prefix(op, a) =>
      BarePrefix(op, a, k);
      SlotLexes(m, a, PrefixRank(op), k);
      SlotStarts(m, a, PrefixRank(op), k);
      LexPrefixText(m, op, Slot(a, PrefixRank(op), k));
    case Postfix(_, _) => PostfixLexes(m, e, k);
    case Between(_, _, _, _) => BetweenLexes(m, e, k);
    case Suffix(_, _, _) => SuffixLexes(m, e, k);
    case Call(_, _, _, _) => CallLexes(m, e, k);
    case Cast(_, _) => CastLexes(m, e, k);
    case Case(_, _) => CaseLexes(m, e, k);
    case _ => QueryLexes(m, e, k);
  }

  lemma {:induction false} NegNumLexes(e: Expr, k: string)
    requires e.NegNum? && IsNumeral(e.digits) && Delimits(k)
    ensures Lex(Bare(e, k)) == Print(e, Lex(k))
  {
    BareLeaf(e, "-" + e.digits, k);
    LexSpell(Num(e.digits), k);
    LexSpell(Op("-"), e.digits + k);
    Assoc("-", e.digits, k);
  }

  lemma {:induction false} InfixLexes(m: Strict, e: Expr, k: string)
    requires e.Infix? && InfixOk(m, e.iop) && ExprOk(m, e.a) && ExprOk(m, e.b) && Delimits(k)
    requires e.iop.Member? ==> !IsNumeric(e.a) && !IsNumeric(e.b)
    ensures Lex(Bare(e, k)) == Print(e, Lex(k))
    decreases e, 7
  {
    var Infix(op, a, b) := e;
    var r := InfixRank(op);
    BareInfix(op, a, b, k);
    SlotLexes(m, b, r, k);
    LexInfixText(m, op, Slot(b, r, k));
    SlotLexes(m, a, r, InfixText(op) + Slot(b, r, k));
  }

  lemma {:induction false} PostfixLexes(m: Strict, e: Expr, k: string)
    requires e.Postfix? && PostfixOk(m, e.qop) && ExprOk(m, e.a) && Delimits(k)
    ensures Lex(Bare(e, k)) == Print(e, Lex(k))
    decreases e, 7
  {
    var Postfix(op, a) := e;
    BarePostfix(op, a, k);
    LexPostfixText(m, op, k);
    SlotLexes(m, a, PostfixRank(op), PostfixText(op) + k);
  }

  lemma {:induction false} BetweenLexes(m: Strict, e: Expr, k: string)
    requires e.Between? && ExprOk(m, e.a) && ExprOk(m, e.lo) && ExprOk(m, e.hi) && Delimits(k)
    ensures Lex(Bare(e, k)) == Print(e, Lex(k))
    decreases e, 7
  {
    var Between(neg, a, lo, hi) := e;
    var k3 := Slot(hi, kBetween, k);
    var k2 := " AND " + k3;
    var k1 := BetweenText(neg) + Slot(lo, kBetween, k2);
    LogicSpelling();
    BetweenSpelling(neg);
    BareBetween(neg, a, lo, hi, k);
    SlotLexes(m, hi, kBetween, k);
    LexWords(W1(AND), k3);
    SlotLexes(m, lo, kBetween, k2);
    LexWords(Negated(neg, W1(BETWEEN)), Slot(lo, kBetween, k2));
    NegatedTokens(neg, W1(BETWEEN), Lex(Slot(lo, kBetween, k2)));
    SlotLexes(m, a, kBetween, k1);
  }

  lemma {:induction false} SuffixLexes(m: Strict, e: Expr, k: string)
    requires e.Suffix? && ExprOk(m, e.a) && BodyOk(m, e.sop, e.body) && Delimits(k)
    ensures Lex(Bare(e, k)) == Print(e, Lex(k))
    decreases e, 7
  {
    var Suffix(op, a, body) := e;
    var close := CloseText(op) + k;
    LexOne(CloseText(op)[0], k);
    match body
    case Exprs(es) =>
      BareExprs(op, a, es, k);
      PartsLex(m, es, close);
      OpenLexes(m, op, a, PartsText(ListParts(es), close));
    case Sub(q) =>
      BareSub(op, a, q, k);
      RelLexes(m, q, close);
      Assoc(SuffixText(op), Bracketed(q), k);
      Assoc3("(", RelText(q), ")", k);
      OpenLexes(m, op, a, RelText(q) + close);
  }

  lemma {:induction false} OpenLexes(m: Strict, op: SuffixOp, a: Expr, k: string)
    requires ExprOk(m, a)
    ensures Lex(Slot(a, SuffixRank(op), SuffixText(op) + (OpenText(op) + k)))
         == PrintIn(a, SuffixRank(op), SuffixTokens(op, Lex(k)))
    decreases a, 10
  {
    LexSuffixText(op, k);
    SlotLexes(m, a, SuffixRank(op), SuffixText(op) + (OpenText(op) + k));
  }

  /** Argument and value lists, as node parts. */
  lemma {:induction false} PartsLex(m: Strict, es: List<Expr>, k: string)
    requires ListOk(m, es) && Delimits(k)
    ensures Lex(PartsText(ListParts(es), k)) == PrintList(es, Lex(k))
    decreases es, 6
  {
    match es
    case Nil =>
    case Cons(e, Nil) =>
      Parts1(Child(Build(e), kExtract), k);
      SlotLexes(m, e, kExtract, k);
    case Cons(e, rest) =>
      var t := PartsText(ListParts(rest), k);
      PartsConcat([Child(Build(e), kExtract), Part.Text(", ")], ListParts(rest), k);
      Parts2(Child(Build(e), kExtract), Part.Text(", "), t);
      PartsLex(m, rest, k);
      LexComma(t);
      SlotLexes(m, e, kExtract, ", " + t);
  }

  lemma {:induction false} LexComma(k: string)
    ensures Lex(", " + k) == Cons(Comma, Lex(k))
  {
    LexSpace(' ', k);
    LexOne(',', [' '] + k);
    assert ", " == "," + " ";
    Assoc(",", " ", k);
  }

  lemma {:induction false} LexDistinct(distinct: bool, k: string)
    ensures Lex((if distinct then "DISTINCT " else "") + k) == if distinct then Cons(Kw(DISTINCT), Lex(k)) else Lex(k)
  {
    DistinctSpelling();
    if distinct { LexThenSpace(Kw(DISTINCT), k); } else { assert "" + k == k; }
  }

  lemma {:induction false} LexCallFront(quals: List<Token>, name: string, distinct: bool, k: string)
    requires QualsOk(quals) && IsFreeName(name)
    ensures Lex(CallFront(quals, name, distinct) + k)
         == QualTokens(quals, Cons(Word(name), Cons(LParen, if distinct then Cons(Kw(DISTINCT), Lex(k)) else Lex(k))))
  {
    var word := if distinct then "DISTINCT " else "";
    LexDistinct(distinct, k);
    LexOne('(', word + k);
    LexSpell(Word(name), ['('] + (word + k));
    LexQuals(quals, name + (['('] + (word + k)));
    Assoc4(QualText(quals), name, "(", word, k);
  }

  lemma {:induction false} CallLexes(m: Strict, e: Expr, k: string)
    requires ExprOk(m, e) && e.Call?
    ensures Lex(Bare(e, k)) == Print(e, Lex(k))
    decreases e, 7
  {
    var Call(quals, name, distinct, args) := e;
    BareCall(quals, name, distinct, args, k);
    LexOne(')', k);
    PartsLex(m, args, ")" + k);
    LexCallFront(quals, name, distinct, PartsText(ListParts(args), ")" + k));
  }

  lemma {:induction false} CastLexes(m: Strict, e: Expr, k: string)
    requires ExprOk(m, e) && e.Cast?
    ensures Lex(Bare(e, k)) == Print(e, Lex(k))
    decreases e, 7
  {
    var close := (" AS " + (Spell(e.typ) + ")")) + k;
    var t := Slot(e.a, kTypecast, close);
    BareCast(e.a, e.typ, k);
    LexCastClose(e.typ, k);
    SlotLexes(m, e.a, kTypecast, close);
    LexOne('(', t);
    LexThenSpace(Kw(CAST), ['('] + t);
    CastSpelling();
    SpaceParen(KwText(CAST), t);
  }

  lemma {:induction false} SpaceParen(s: string, t: string)
    ensures (s + " (") + t == (s + " ") + ("(" + t)
  {
  }

  lemma {:induction false} LexCastClose(typ: Token, k: string)
    requires IsName(typ) && Spellable(typ)
    ensures var close := (" AS " + (Spell(typ) + ")")) + k;
            Lex(close) == Cons(Kw(AS), Cons(typ, Cons(RParen, Lex(k)))) && Delimits(close)
  {
    LexOne(')', k);
    LexSpell(typ, [')'] + k);
    LexWords(W1(AS), Spell(typ) + ([')'] + k));
    CastSpelling();
    Assoc3(" AS ", Spell(typ), ")", k);
  }

  /** A whole rendered expression. */
  lemma {:induction false} StringLexes(m: Strict, e: Expr, k: string)
    requires ExprOk(m, e) && Delimits(k)
    ensures Lex(ToString(e) + k) == PrintIn(e, kExtract, Lex(k))
    decreases e, 10
  {
    assert Rank(e) < kExtract;
    PartsAppend(Build(e).parts, k);
    BareLexes(m, e, k);
  }

  /** The characters of a whole expression are its printed tokens. */
  lemma {:induction false} TextLexes(m: Strict, e: Expr)
    requires ExprOk(m, e)
    ensures Lex(ToString(e)) == Print(e, Nil)
  {
    StringLexes(m, e, "");
    assert ToString(e) + "" == ToString(e);
    assert Rank(e) < kExtract;
  }

  lemma {:induction false} CaseLexes(m: Strict, e: Expr, k: string)
    requires ExprOk(m, e) && e.Case? && Breaks(k)
    ensures Lex(Bare(e, k)) == Print(e, Lex(k))
    decreases e, 7
  {
    var k2 := KwText(END) + k;
    var k1 := ElseText(e.els) + k2;
    BareLeaf(e, CaseText(e), k);
    LexWord(END, k);
    ElseLexes(m, e.els, k2);
    WhensLex(m, e.whens, k1);
    LexThenSpace(Kw(CASE), WhensText(e.whens) + k1);
    CaseTextSplit(e, k);
  }

  lemma {:induction false} CaseTextSplit(e: Expr, k: string)
    requires e.Case?
    ensures CaseText(e) + k
         == (KwText(CASE) + " ") + (WhensText(e.whens) + (ElseText(e.els) + (KwText(END) + k)))
  {
  }

  lemma {:induction false} ElseLexes(m: Strict, els: Option<Expr>, k: string)
    requires OptionOk(m, els)
    ensures Lex(ElseText(els) + k) == PrintClause(ELSE, els, Lex(k))
    decreases els, 6
  {
    match els
    case None => assert "" + k == k;
    case Some(e) =>
      LexSpace(' ', k);
      StringLexes(m, e, [' '] + k);
      LexThenSpace(Kw(ELSE), ToString(e) + ([' '] + k));
      Assoc4(KwText(ELSE), " ", ToString(e), " ", k);
      Assoc(KwText(ELSE), " ", ToString(e) + ([' '] + k));
  }

  lemma {:induction false} WhensLex(m: Strict, ws: List<When>, k: string)
    requires WhensOk(m, ws)
    ensures Lex(WhensText(ws) + k) == PrintWhens(ws, Lex(k))
    decreases ws, 6
  {
    match ws
    case Nil => assert "" + k == k;
    case Cons(w, rest) =>
      var k3 := [' '] + (WhensText(rest) + k);
      var k2 := ToString(w.result) + k3;
      var k1 := (Phrase(W1(THEN)) + " ") + k2;
      WhensLex(m, rest, k);
      LexSpace(' ', WhensText(rest) + k);
      StringLexes(m, w.result, k3);
      LexWords(W1(THEN), k2);
      StringLexes(m, w.cond, k1);
      LexThenSpace(Kw(WHEN), ToString(w.cond) + k1);
      WhensTextCons(w, rest, k);
  }

  lemma {:induction false} WhensTextCons(w: When, rest: List<When>, k: string)
    ensures WhensText(Cons(w, rest)) + k
         == (KwText(WHEN) + " ") + (ToString(w.cond) + ((Phrase(W1(THEN)) + " ") +
              (ToString(w.result) + ([' '] + (WhensText(rest) + k)))))
  {
    var t := ToString(w.result) + (" " + WhensText(rest));
    var u := Phrase(W1(THEN)) + (" " + t);
    Assoc3(ToString(w.result), " ", WhensText(rest), k);
    Assoc3(Phrase(W1(THEN)), " ", t, k);
    Assoc(Phrase(W1(THEN)), " ", t + k);
    Assoc4(KwText(WHEN), " ", ToString(w.cond), u, k);
    Assoc(KwText(WHEN), " ", ToString(w.cond) + (u + k));
  }

  lemma {:induction false} QueryLexes(m: Strict, e: Expr, k: string)
    requires ExprOk(m, e) && (e.Exists? || e.NotExists? || e.Scalar?)
    ensures Lex(Bare(e, k)) == Print(e, Lex(k))
    decreases e, 7
  {
    var q := e.query;
    BracketedQueryLexes(m, q, k);
    match e
    case Exists(_) =>
      BareLeaf(e, "EXISTS " + Bracketed(q), k);
      ExistsLexes(q, k);
    case NotExists(_) =>
      BareLeaf(e, "NOT EXISTS " + Bracketed(q), k);
      NotExistsLexes(q, k);
    case Scalar(_) =>
      BareLeaf(e, Bracketed(q), k);
  }

  lemma {:induction false} ExistsLexes(q: Rel, k: string)
    ensures Lex(("EXISTS " + Bracketed(q)) + k) == Cons(Kw(EXISTS), Lex(Bracketed(q) + k))
  {
    ExistsSpelling();
    Assoc("EXISTS ", Bracketed(q), k);
    LexThenSpace(Kw(EXISTS), Bracketed(q) + k);
  }

  lemma {:induction false} NotExistsLexes(q: Rel, k: string)
    ensures Lex(("NOT EXISTS " + Bracketed(q)) + k) == Cons(Kw(NOT), Cons(Kw(EXISTS), Lex(Bracketed(q) + k)))
  {
    ExistsSpelling();
    ExistsLexes(q, k);
    Assoc("NOT EXISTS ", Bracketed(q), k);
    Assoc("EXISTS ", Bracketed(q), k);
    Assoc(KwText(NOT) + " ", "EXISTS ", Bracketed(q) + k);
    LexThenSpace(Kw(NOT), "EXISTS " + (Bracketed(q) + k));
  }

  lemma {:induction false} BracketedQueryLexes(m: Strict, q: Rel, k: string)
    requires IsQuery(q) && RelOk(m, q)
    ensures Lex(Bracketed(q) + k) == Cons(LParen, PrintRel(q, Cons(RParen, Lex(k))))
    decreases q, 6
  {
    LexOne(')', k);
    RelLexes(m, q, ")" + k);
    LexOne('(', RelText(q) + (")" + k));
    Assoc3("(", RelText(q), ")", k);
  }

  // ---- lists in clauses

  /** The separator between the items of a list, in each layout. */
  function Separator(layout: Layout): string {
    if layout.OneLine? then ", " else ",\n    "
  }

  lemma {:induction false} LexSeparator(layout: Layout, k: string)
    ensures Lex(Separator(layout) + k) == Cons(Comma, Lex(k)) && Delimits(Separator(layout) + k)
  {
    if layout.OneLine? {
      LexComma(k);
    } else {
      LexBlank("\n    ", k);
      LexOne(',', "\n    " + k);
      assert Separator(layout) == "," + "\n    ";
      Assoc(",", "\n    ", k);
    }
  }

  lemma {:induction false} LexLead(layout: Layout, k: string)
    ensures Lex(Lead(layout) + k) == Lex(k) && Lex(Gap(layout) + k) == Lex(k)
    ensures Delimits(Lead(layout) + k) && Delimits(Gap(layout) + k)
  {
    LexBlank(Lead(layout), k);
    LexBlank(Gap(layout), k);
  }

  /** Both ways of joining a list with a non-empty first item. */
  lemma {:induction false} CsvText(layout: Layout, x: string, rest: seq<string>, k: string)
    requires x != ""
    ensures Csv(layout, [x] + rest) + k == Lead(layout) + (x + (After(Separator(layout), rest) + k))
  {
    assert ([x] + rest)[1..] == rest;
    var t := After(Separator(layout), rest);
    if layout.OneLine? {
      assert "" + x == x;
      JoinFromText(x, rest);
    } else {
      assert "\n    " == "\n" + "    ";
      Assoc("    ", x, t);
      Assoc("\n", "    ", x + t);
    }
    Assoc3(Lead(layout), x, t, k);
  }

  lemma {:induction false} MoreExprsLex(m: Strict, layout: Layout, es: List<Expr>, k: string)
    requires ListOk(m, es) && Delimits(k)
    ensures Lex(After(Separator(layout), ExprTexts(es)) + k)
         == if es.Nil? then Lex(k) else Cons(Comma, PrintList(es, Lex(k)))
    ensures Delimits(After(Separator(layout), ExprTexts(es)) + k)
    decreases es, 11
  {
    match es
    case Nil => assert "" + k == k;
    case Cons(e, rest) =>
      var t := After(Separator(layout), ExprTexts(rest));
      MoreExprsLex(m, layout, rest, k);
      StringLexes(m, e, t + k);
      LexSeparator(layout, ToString(e) + (t + k));
      assert ([ToString(e)] + ExprTexts(rest))[1..] == ExprTexts(rest);
      Assoc(Separator(layout) + ToString(e), t, k);
      Assoc(Separator(layout), ToString(e), t + k);
  }

  lemma {:induction false} ExprsLex(m: Strict, layout: Layout, es: List<Expr>, k: string)
    requires es.Cons? && ListOk(m, es) && Delimits(k)
    ensures Lex(Csv(layout, ExprTexts(es)) + k) == PrintList(es, Lex(k))
    ensures Delimits(Csv(layout, ExprTexts(es)) + k)
    decreases es, 12
  {
    var rest := ExprTexts(es.tail);
    var t := After(Separator(layout), rest) + k;
    NonEmpty(m, es.head);
    MoreExprsLex(m, layout, es.tail, k);
    StringLexes(m, es.head, t);
    LexLead(layout, ToString(es.head) + t);
    CsvText(layout, ToString(es.head), rest, k);
  }

  /** No table value is printed as the empty text. */
  lemma {:induction false} RelNonEmpty(m: Strict, r: Rel)
    requires RelOk(m, r)
    ensures RelText(r) != ""
  {
    match r
    case Table(path) =>
      assert PathText(path) == Spell(path.head) || PathText(path) == Spell(path.head) + ("." + PathText(path.tail));
      SpellStarts(path.head);
    case Alias(_, name) => assert Phrase(W1(AS)) != "";
    case Join(_, _, _, _) => assert " JOIN " != "";
    case Select(_, _, _, _, _, _, _, _, _) => assert Lead(OneLine) != "";
    case SetOp(_, _, _) => assert " " != "";
    case With(_, _) => assert " " != "";
  }

  lemma {:induction false} NonEmpty(m: Strict, e: Expr)
    requires ExprOk(m, e)
    ensures ToString(e) != ""
  {
    assert Rank(e) < kExtract;
    SlotBare(e, kExtract, "");
    SlotStarts(m, e, kExtract, "");
  }

  /** The same list inside brackets, where JoinCsv is used bare. */
  lemma {:induction false} JoinedLex(m: Strict, es: List<Expr>, k: string)
    requires es.Cons? && ListOk(m, es) && Delimits(k)
    ensures Lex(JoinCsv(ExprTexts(es)) + k) == PrintList(es, Lex(k))
    decreases es, 13
  {
    ExprsLex(m, OneLine, es, k);
    Assoc(" ", JoinCsv(ExprTexts(es)), k);
    LexSpace(' ', JoinCsv(ExprTexts(es)) + k);
  }

  lemma {:induction false} LexAlias(alias: Option<string>, k: string)
    requires (alias.Some? ==> IsFreeName(alias.value)) && Delimits(k)
    ensures Lex(AliasText(alias) + k) == AliasTokens(alias, Lex(k)) && Delimits(AliasText(alias) + k)
  {
    match alias
    case None => assert "" + k == k;
    case Some(n) =>
      LexSpell(Word(n), k);
      LexWords(W1(AS), n + k);
      Assoc3(Phrase(W1(AS)), " ", n, k);
      Assoc(Phrase(W1(AS)), " ", n + k);
  }

  lemma {:induction false} ItemLexes(m: Strict, i: Item, k: string)
    requires ExprOk(m, i.e) && (i.alias.Some? ==> IsFreeName(i.alias.value)) && Delimits(k)
    ensures Lex((ToString(i.e) + AliasText(i.alias)) + k) == PrintIn(i.e, kExtract, AliasTokens(i.alias, Lex(k)))
    ensures ToString(i.e) + AliasText(i.alias) != ""
    decreases i, 11
  {
    LexAlias(i.alias, k);
    StringLexes(m, i.e, AliasText(i.alias) + k);
    Assoc(ToString(i.e), AliasText(i.alias), k);
    NonEmpty(m, i.e);
  }

  lemma {:induction false} MoreItemsLex(m: Strict, layout: Layout, items: List<Item>, k: string)
    requires ItemsOk(m, items) && Delimits(k)
    ensures Lex(After(Separator(layout), ItemTexts(items)) + k)
         == if items.Nil? then Lex(k) else Cons(Comma, PrintItems(items, Lex(k)))
    ensures Delimits(After(Separator(layout), ItemTexts(items)) + k)
    decreases items, 11
  {
    match items
    case Nil => assert "" + k == k;
    case Cons(i, rest) =>
      var t := After(Separator(layout), ItemTexts(rest));
      var x := ToString(i.e) + AliasText(i.alias);
      MoreItemsLex(m, layout, rest, k);
      ItemLexes(m, i, t + k);
      LexSeparator(layout, x + (t + k));
      assert ([x] + ItemTexts(rest))[1..] == ItemTexts(rest);
      Assoc(Separator(layout) + x, t, k);
      Assoc(Separator(layout), x, t + k);
  }

  lemma {:induction false} ItemsLex(m: Strict, layout: Layout, items: List<Item>, k: string)
    requires items.Cons? && ItemsOk(m, items) && Delimits(k)
    ensures Lex(Csv(layout, ItemTexts(items)) + k) == PrintItems(items, Lex(k))
    ensures Delimits(Csv(layout, ItemTexts(items)) + k)
    decreases items, 12
  {
    var i := items.head;
    var rest := ItemTexts(items.tail);
    var x := ToString(i.e) + AliasText(i.alias);
    var t := After(Separator(layout), rest) + k;
    MoreItemsLex(m, layout, items.tail, k);
    ItemLexes(m, i, t);
    LexLead(layout, x + t);
    CsvText(layout, x, rest, k);
  }

  lemma {:induction false} LexOrder(desc: bool, nulls: Nulls, k: string)
    requires Delimits(k)
    ensures Lex(OrderText(desc, nulls) + k) == DirectionTokens(desc, NullsTokens(nulls, Lex(k)))
    ensures Delimits(OrderText(desc, nulls) + k)
  {
    var s := if desc then Phrase(W1(DESC)) else "";
    var t := match nulls
      case NullsDefault => ""
      case NullsFirst => Phrase(W2(NULLS, FIRST))
      case NullsLast => Phrase(W2(NULLS, LAST));
    Assoc(s, t, k);
    match nulls {
      case NullsDefault => assert t + k == k;
      case NullsFirst => LexPhrase(W2(NULLS, FIRST), k); PhraseTokensAre(NULLS, FIRST, FIRST, FIRST, Lex(k));
      case NullsLast => LexPhrase(W2(NULLS, LAST), k); PhraseTokensAre(NULLS, LAST, LAST, LAST, Lex(k));
    }
    if desc { LexPhrase(W1(DESC), t + k); } else { assert s + (t + k) == t + k; }
  }

  lemma {:induction false} TermLexes(m: Strict, t: OrderTerm, k: string)
    requires ExprOk(m, t.e) && Delimits(k)
    ensures Lex((ToString(t.e) + OrderText(t.desc, t.nulls)) + k)
         == PrintIn(t.e, kExtract, DirectionTokens(t.desc, NullsTokens(t.nulls, Lex(k))))
    ensures ToString(t.e) + OrderText(t.desc, t.nulls) != ""
    decreases t, 11
  {
    LexOrder(t.desc, t.nulls, k);
    StringLexes(m, t.e, OrderText(t.desc, t.nulls) + k);
    Assoc(ToString(t.e), OrderText(t.desc, t.nulls), k);
    NonEmpty(m, t.e);
  }

  lemma {:induction false} MoreTermsLex(m: Strict, layout: Layout, terms: List<OrderTerm>, k: string)
    requires TermsOk(m, terms) && Delimits(k)
    ensures Lex(After(Separator(layout), TermTexts(terms)) + k)
         == if terms.Nil? then Lex(k) else Cons(Comma, PrintTerms(terms, Lex(k)))
    ensures Delimits(After(Separator(layout), TermTexts(terms)) + k)
    decreases terms, 11
  {
    match terms
    case Nil => assert "" + k == k;
    case Cons(o, rest) =>
      var t := After(Separator(layout), TermTexts(rest));
      var x := ToString(o.e) + OrderText(o.desc, o.nulls);
      MoreTermsLex(m, layout, rest, k);
      TermLexes(m, o, t + k);
      LexSeparator(layout, x + (t + k));
      assert ([x] + TermTexts(rest))[1..] == TermTexts(rest);
      Assoc(Separator(layout) + x, t, k);
      Assoc(Separator(layout), x, t + k);
  }

  lemma {:induction false} TermsLex(m: Strict, layout: Layout, terms: List<OrderTerm>, k: string)
    requires terms.Cons? && TermsOk(m, terms) && Delimits(k)
    ensures Lex(Csv(layout, TermTexts(terms)) + k) == PrintTerms(terms, Lex(k))
    ensures Delimits(Csv(layout, TermTexts(terms)) + k)
    decreases terms, 12
  {
    var o := terms.head;
    var rest := TermTexts(terms.tail);
    var x := ToString(o.e) + OrderText(o.desc, o.nulls);
    var t := After(Separator(layout), rest) + k;
    MoreTermsLex(m, layout, terms.tail, k);
    TermLexes(m, o, t);
    LexLead(layout, x + t);
    CsvText(layout, x, rest, k);
  }

  // ---- clauses

  lemma {:induction false} ClauseLexes(m: Strict, layout: Layout, kw: Keyword, o: Option<Expr>, k: string)
    requires OptionOk(m, o) && Delimits(k)
    ensures Lex(ClauseText(layout, kw, o) + k) == PrintClause(kw, o, Lex(k))
    ensures Delimits(ClauseText(layout, kw, o) + k)
    decreases o, 11
  {
    match o
    case None => assert "" + k == k;
    case Some(e) =>
      var t := ToString(e) + k;
      StringLexes(m, e, k);
      LexLead(layout, t);
      LexWord(kw, Lead(layout) + t);
      LexLead(layout, KwText(kw) + (Lead(layout) + t));
      Assoc4(Gap(layout), KwText(kw), Lead(layout), ToString(e), k);
  }

  lemma {:induction false} LexByClause(layout: Layout, kw: Keyword, list: string, k: string)
    requires Delimits(list + k)
    ensures Lex((Gap(layout) + (KwText(kw) + (Phrase(W1(BY)) + list))) + k) == Cons(Kw(kw), Cons(Kw(BY), Lex(list + k)))
    ensures Delimits((Gap(layout) + (KwText(kw) + (Phrase(W1(BY)) + list))) + k)
  {
    LexPhrase(W1(BY), list + k);
    LexWord(kw, Phrase(W1(BY)) + (list + k));
    LexLead(layout, KwText(kw) + (Phrase(W1(BY)) + (list + k)));
    Assoc4(Gap(layout), KwText(kw), Phrase(W1(BY)), list, k);
  }

  lemma {:induction false} GroupLexes(m: Strict, layout: Layout, o: Option<List<Expr>>, k: string)
    requires GroupOk(m, o) && Delimits(k)
    ensures Lex(GroupText(layout, o) + k) == PrintGroup(o, Lex(k)) && Delimits(GroupText(layout, o) + k)
    decreases o, 13
  {
    match o
    case None => assert "" + k == k;
    case Some(es) =>
      ExprsLex(m, layout, es, k);
      LexByClause(layout, GROUP, Csv(layout, ExprTexts(es)), k);
  }

  lemma {:induction false} OrderByLexes(m: Strict, layout: Layout, o: Option<List<OrderTerm>>, k: string)
    requires OrderOk(m, o) && Delimits(k)
    ensures Lex(OrderByText(layout, o) + k) == PrintOrder(o, Lex(k)) && Delimits(OrderByText(layout, o) + k)
    decreases o, 13
  {
    match o
    case None => assert "" + k == k;
    case Some(ts) =>
      TermsLex(m, layout, ts, k);
      LexByClause(layout, ORDER, Csv(layout, TermTexts(ts)), k);
  }

  lemma {:induction false} LexInt(n: int, k: string)
    requires Delimits(k)
    ensures Lex(IntText(n) + k) == IntTokens(n, Lex(k))
  {
    var digits := DigitsOf(if n < 0 then -n else n);
    LexSpell(Num(digits), k);
    if n < 0 {
      LexSpell(Op("-"), digits + k);
      Assoc("-", digits, k);
    }
  }

  lemma {:induction false} IntClauseLexes(layout: Layout, kw: Keyword, o: Option<int>, k: string)
    requires Delimits(k)
    ensures Lex(IntClauseText(layout, kw, o) + k) == PrintInt(kw, o, Lex(k))
    ensures Delimits(IntClauseText(layout, kw, o) + k)
  {
    match o
    case None => assert "" + k == k;
    case Some(n) =>
      var t := IntText(n) + k;
      LexInt(n, k);
      LexLead(layout, t);
      LexWord(kw, Lead(layout) + t);
      LexLead(layout, KwText(kw) + (Lead(layout) + t));
      Assoc4(Gap(layout), KwText(kw), Lead(layout), IntText(n), k);
  }

  lemma {:induction false} ClausesLex(m: Strict, layout: Layout, r: Rel, k: string)
    requires r.Select? && ClausesOk(m, r) && Delimits(k)
    ensures Lex(ClausesText(layout, r) + k) == PrintClauses(r, Lex(k)) && Delimits(ClausesText(layout, r) + k)
    decreases r, 0
  {
    var t6 := IntClauseText(layout, OFFSET, r.offset);
    var t5 := IntClauseText(layout, LIMIT, r.limit);
    var t4 := OrderByText(layout, r.order);
    var t3 := ClauseText(layout, HAVING, r.having);
    var t2 := GroupText(layout, r.group);
    var t1 := ClauseText(layout, WHERE, r.where);
    var k5 := t5 + (t6 + k);
    IntClauseLexes(layout, OFFSET, r.offset, k);
    IntClauseLexes(layout, LIMIT, r.limit, t6 + k);
    OrderByLexes(m, layout, r.order, k5);
    ClauseLexes(m, layout, HAVING, r.having, t4 + k5);
    GroupLexes(m, layout, r.group, t3 + (t4 + k5));
    ClauseLexes(m, layout, WHERE, r.where, t2 + (t3 + (t4 + k5)));
    Assoc4(t1, t2, t3, t4 + (t5 + t6), k);
    Assoc3(t4, t5, t6, k);
  }

  lemma {:induction false} DistinctLexes(m: Strict, dis: Distinctness, k: string)
    requires DistinctOk(m, dis) && Delimits(k)
    ensures Lex(DistinctText(dis) + k) == Cons(Kw(SELECT), PrintDistinct(dis, Lex(k)))
    decreases dis, 14
  {
    match dis
    case Plain => LexWord(SELECT, k);
    case Distinct =>
      LexPhrase(W1(DISTINCT), k);
      PhraseTokensAre(DISTINCT, DISTINCT, DISTINCT, DISTINCT, Lex(k));
      LexWord(SELECT, Phrase(W1(DISTINCT)) + k);
      Assoc(KwText(SELECT), Phrase(W1(DISTINCT)), k);
    case DistinctOn(es) =>
      var words := Phrase(W2(DISTINCT, ON));
      ListInParens(m, W2(DISTINCT, ON), es, k);
      PhraseTokensAre(DISTINCT, ON, ON, ON, Cons(LParen, PrintList(es, Cons(RParen, Lex(k)))));
      LexWord(SELECT, (words + (" (" + (JoinCsv(ExprTexts(es)) + ")"))) + k);
      Assoc(KwText(SELECT), words + (" (" + (JoinCsv(ExprTexts(es)) + ")")), k);
  }

  lemma {:induction false} ListInParens(m: Strict, words: List<Keyword>, es: List<Expr>, k: string)
    requires es.Cons? && ListOk(m, es) && words.Cons?
    ensures var s := (Phrase(words) + (" (" + (JoinCsv(ExprTexts(es)) + ")"))) + k;
            Lex(s) == PhraseTokens(words, Cons(LParen, PrintList(es, Cons(RParen, Lex(k))))) && Delimits(s)
    decreases es, 14
  {
    var list := JoinCsv(ExprTexts(es));
    LexOne(')', k);
    JoinedLex(m, es, ")" + k);
    LexOne('(', list + (")" + k));
    LexWords(words, "(" + (list + (")" + k)));
    Assoc4(Phrase(words), " (", list, ")", k);
    Assoc(Phrase(words), " (", list + (")" + k));
    SpaceParen(Phrase(words), list + (")" + k));
  }

  // ---- table values

  lemma {:induction false} QualifierLexes(m: Strict, q: Qualifier, k: string)
    requires QualOk(m, q) && Delimits(k)
    ensures Lex(QualifierText(q) + k) == PrintQual(q, Lex(k)) && Delimits(QualifierText(q) + k)
    decreases q, 15
  {
    match q
    case NoQualifier => assert "" + k == k;
    case OnCond(e) =>
      StringLexes(m, e, k);
      LexWords(W1(ON), ToString(e) + k);
      Assoc3(Phrase(W1(ON)), " ", ToString(e), k);
      Assoc(Phrase(W1(ON)), " ", ToString(e) + k);
    case UsingCols(es) => ListInParens(m, W1(USING), es, k);
  }

  lemma {:induction false} BracketedLexes(m: Strict, r: Rel, k: string)
    requires RelOk(m, r) && Delimits(k)
    ensures Lex(Bracketed(r) + k) == PrintBracketed(r, Lex(k))
    decreases r, 6
  {
    if r.Table? || r.Alias? {
      RelLexes(m, r, k);
    } else {
      LexOne(')', k);
      RelLexes(m, r, ")" + k);
      LexOne('(', RelText(r) + (")" + k));
      Assoc3("(", RelText(r), ")", k);
    }
  }

  lemma {:induction false} JoinWordsTokens(kind: JoinKind, k: Tokens)
    ensures PhraseTokens(JoinWords(kind), k) == JoinTokens(kind, k)
  {
    PhraseTokensAre(INNER, JOIN, JOIN, JOIN, k);
    PhraseTokensAre(CROSS, JOIN, JOIN, JOIN, k);
    PhraseTokensAre(LEFT, OUTER, JOIN, JOIN, k);
    PhraseTokensAre(RIGHT, OUTER, JOIN, JOIN, k);
    PhraseTokensAre(FULL, OUTER, JOIN, JOIN, k);
    PhraseTokensAre(NATURAL, INNER, JOIN, JOIN, k);
    PhraseTokensAre(NATURAL, LEFT, OUTER, JOIN, k);
    PhraseTokensAre(NATURAL, RIGHT, OUTER, JOIN, k);
    PhraseTokensAre(NATURAL, FULL, OUTER, JOIN, k);
  }

  lemma {:induction false} SetWordsTokens(kind: SetKind, k: Tokens)
    ensures PhraseTokens(SetWords(kind), k) == SetTokens(kind, k)
  {
    PhraseTokensAre(UNION, ALL, ALL, ALL, k);
  }

  /** The characters of a table value are read as its printed tokens. */
  lemma {:induction false} RelLexes(m: Strict, r: Rel, k: string)
    requires RelOk(m, r) && Delimits(k)
    ensures Lex(RelText(r) + k) == PrintRel(r, Lex(k))
    decreases r, 5
  {
    match r
    case Table(path) => LexPath(path, k);
    case Alias(x, name) =>
      LexPath(name, k);
      LexWords(W1(AS), PathText(name) + k);
      BracketedLexes(m, x, (Phrase(W1(AS)) + " ") + (PathText(name) + k));
      Assoc4(Bracketed(x), Phrase(W1(AS)), " ", PathText(name), k);
      Assoc(Phrase(W1(AS)), " ", PathText(name) + k);
    case Join(_, _, _, _) => JoinLexes(m, r, k);
    case Select(_, _, _, _, _, _, _, _, _) => SelectLexes(m, OneLine, r, k);
    case SetOp(_, _, _) => SetLexes(m, r, k);
    case With(ctes, main) =>
      RelLexes(m, main, k);
      LexSpace(' ', RelText(main) + k);
      CtesLex(m, ctes, [' '] + (RelText(main) + k));
      LexThenSpace(Kw(WITH), CtesText(ctes) + ([' '] + (RelText(main) + k)));
      Assoc4(KwText(WITH), " ", CtesText(ctes), " " + RelText(main), k);
      Assoc(" ", RelText(main), k);
      Assoc(KwText(WITH), " ", CtesText(ctes) + ([' '] + (RelText(main) + k)));
  }

  lemma {:induction false} JoinLexes(m: Strict, r: Rel, k: string)
    requires RelOk(m, r) && r.Join? && Delimits(k)
    ensures Lex(RelText(r) + k) == PrintRel(r, Lex(k))
    decreases r, 4
  {
    var words := Phrase(JoinWords(r.kind));
    var t := QualifierText(r.qual) + k;
    var u := Bracketed(r.right) + t;
    QualifierLexes(m, r.qual, k);
    BracketedLexes(m, r.right, t);
    LexWords(JoinWords(r.kind), u);
    JoinWordsTokens(r.kind, Lex(u));
    BracketedLexes(m, r.left, (words + " ") + u);
    JoinTextSplit(r, k);
  }

  lemma {:induction false} JoinTextSplit(r: Rel, k: string)
    requires r.Join?
    ensures RelText(r) + k
         == Bracketed(r.left) + ((Phrase(JoinWords(r.kind)) + " ") + (Bracketed(r.right) + (QualifierText(r.qual) + k)))
  {
    var name := JoinName(r.kind);
    var u := Bracketed(r.right) + QualifierText(r.qual);
    JoinSpelling(r.kind);
    assert " JOIN " == " JOIN" + " ";
    Assoc4(Bracketed(r.left), " ", name, " JOIN " + u, k);
    Assoc(" JOIN ", u, k);
    Assoc(Bracketed(r.right), QualifierText(r.qual), k);
    Assoc(" JOIN", " ", u + k);
    Assoc(" " + name, " JOIN", " " + (u + k));
    Assoc(" ", name, " JOIN" + (" " + (u + k)));
    Assoc(Phrase(JoinWords(r.kind)), " ", u + k);
  }

  lemma {:induction false} SetLexes(m: Strict, r: Rel, k: string)
    requires RelOk(m, r) && r.SetOp? && Delimits(k)
    ensures Lex(RelText(r) + k) == PrintRel(r, Lex(k))
    decreases r, 4
  {
    var words := Phrase(SetWords(r.setKind));
    var u := Bracketed(r.second) + k;
    BracketedLexes(m, r.second, k);
    LexWords(SetWords(r.setKind), u);
    SetWordsTokens(r.setKind, Lex(u));
    BracketedLexes(m, r.first, (words + " ") + u);
    SetSpelling(r.setKind);
    Assoc4(Bracketed(r.first), " ", SetName(r.setKind), " " + Bracketed(r.second), k);
    Assoc(" ", Bracketed(r.second), k);
    Assoc(" ", SetName(r.setKind), " " + u);
    Assoc(words, " ", u);
  }

  lemma {:induction false} CtesLex(m: Strict, ctes: List<Cte>, k: string)
    requires CtesOk(m, ctes) && Delimits(k)
    ensures Lex(CtesText(ctes) + k) == PrintCtes(ctes, Lex(k))
    decreases ctes, 7
  {
    match ctes
    case Nil => assert "" + k == k;
    case Cons(c, Nil) => CteLexes(m, c, k);
    case Cons(c, rest) =>
      CtesLex(m, rest, k);
      LexComma(CtesText(rest) + k);
      CteLexes(m, c, ", " + (CtesText(rest) + k));
      Assoc3(CteText(c), ", ", CtesText(rest), k);
  }

  lemma {:induction false} CteLexes(m: Strict, c: Cte, k: string)
    requires PathOk(c.name) && IsQuery(c.query) && RelOk(m, c.query) && Delimits(k)
    ensures Lex(CteText(c) + k)
         == PathTokens(c.name, Cons(Kw(AS), Cons(LParen, PrintRel(c.query, Cons(RParen, Lex(k))))))
    decreases c, 6
  {
    var t := Bracketed(c.query) + k;
    BracketedLexes(m, c.query, k);
    LexOne(')', k);
    RelLexes(m, c.query, ")" + k);
    LexWords(W1(AS), t);
    LexPath(c.name, (Phrase(W1(AS)) + " ") + t);
    Assoc4(PathText(c.name), Phrase(W1(AS)), " ", Bracketed(c.query), k);
    Assoc(Phrase(W1(AS)), " ", t);
  }

  /** One SELECT statement, in either layout: the same tokens. */
  lemma {:induction false} SelectLexes(m: Strict, layout: Layout, r: Rel, k: string)
    requires RelOk(m, r) && r.Select? && Delimits(k)
    ensures Lex(SelectText(layout, r) + k) == PrintRel(r, Lex(k))
    decreases r, 4
  {
    var clauses := ClausesText(layout, r) + k;
    var t2 := Gap(layout) + (KwText(FROM) + (Lead(layout) + (RelText(r.from) + clauses)));
    var items := Csv(layout, ItemTexts(r.items));
    ClausesLex(m, layout, r, k);
    FromLexes(m, layout, r.from, clauses);
    ItemsLex(m, layout, r.items, t2);
    DistinctLexes(m, r.distinct, items + t2);
    SelectTextSplit(layout, r, k);
  }

  lemma {:induction false} FromLexes(m: Strict, layout: Layout, from: Rel, k: string)
    requires RelOk(m, from) && Delimits(k)
    ensures var t := Gap(layout) + (KwText(FROM) + (Lead(layout) + (RelText(from) + k)));
            Lex(t) == Cons(Kw(FROM), PrintRel(from, Lex(k))) && Delimits(t)
    decreases from, 10
  {
    RelLexes(m, from, k);
    LexLead(layout, RelText(from) + k);
    LexWord(FROM, Lead(layout) + (RelText(from) + k));
    LexLead(layout, KwText(FROM) + (Lead(layout) + (RelText(from) + k)));
  }

  lemma {:induction false} SelectTextSplit(layout: Layout, r: Rel, k: string)
    requires r.Select?
    ensures SelectText(layout, r) + k
         == DistinctText(r.distinct) + (Csv(layout, ItemTexts(r.items)) + (
              Gap(layout) + (KwText(FROM) + (Lead(layout) + (RelText(r.from) + (ClausesText(layout, r) + k))))))
  {
  }
}
