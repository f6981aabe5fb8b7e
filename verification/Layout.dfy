/** What indenting a text does to its tokens, and what the multi-line layout of nested
    WITH queries does to theirs. */
module Layout {
  import opened Basics
  import opened Tokens
  import opened Lexer
  import opened Text

  function IndentToken(tok: Token, n: nat): Token {
    match tok
    case Str(v) => Str(IndentTail(v, n))
    case Quoted(v) => Quoted(IndentTail(v, n))
    case Bad(s) => Bad(IndentTail(s, n))
    case _ => tok
  }

  function IndentTokens(ts: Tokens, n: nat): Tokens {
    match ts
    case Nil => Nil
    case Cons(t, rest) => Cons(IndentToken(t, n), IndentTokens(rest, n))
  }

  /** Every token but `Bad` ones, which stand for text with no reading. */
  predicate NoBad(ts: Tokens) {
    match ts
    case Nil => true
    case Cons(t, rest) => !t.Bad? && NoBad(rest)
  }

  /** The newlines inside tokens: of the printed tokens, only quoted ones can have any. */
  function InnerNewlines(ts: Tokens): nat {
    match ts
    case Nil => 0
    case Cons(t, rest) => TokenNewlines(t) + InnerNewlines(rest)
  }

  function TokenNewlines(tok: Token): nat {
    match tok
    case Str(v) => Newlines(v)
    case Quoted(v) => Newlines(v)
    case Bad(s) => Newlines(s)
    case _ => 0
  }

  function TokenLength(tok: Token): nat {
    match tok
    case Str(v) => |v|
    case Quoted(v) => |v|
    case Bad(s) => |s|
    case _ => 0
  }

  function InnerLength(ts: Tokens): nat {
    match ts
    case Nil => 0
    case Cons(t, rest) => TokenLength(t) + InnerLength(rest)
  }

  // ---- indenting commutes with reading

  /** What Unquote returns, its contents behind `p`. */
  function Behind(p: string, r: Option<(string, string)>): Option<(string, string)> {
    if r.None? then None else Some((p + r.value.0, r.value.1))
  }

  function BothIndented(r: Option<(string, string)>, n: nat): Option<(string, string)> {
    if r.None? then None else Some((IndentTail(r.value.0, n), IndentTail(r.value.1, n)))
  }

  lemma {:induction false} UnquotePlain(q: char, c: char, rest: string)
    requires c != q
    ensures Unquote(q, [c] + rest) == Behind([c], Unquote(q, rest))
  {
    assert ([c] + rest)[1..] == rest;
  }

  lemma {:induction false} UnquoteTwice(q: char, rest: string)
    ensures Unquote(q, [q] + ([q] + rest)) == Behind([q], Unquote(q, rest))
  {
    assert ([q] + ([q] + rest))[2..] == rest;
  }

  /** Indentation reaches the contents of a quoted token and what follows it alike. */
  lemma {:induction false} UnquoteIndent(q: char, s: string, n: nat)
    requires q != '\n' && q != ' '
    ensures Unquote(q, IndentTail(s, n)) == BothIndented(Unquote(q, s), n)
    decreases |s|
  {
    if s != "" {
      if s[0] != q {
        UnquoteIndent(q, s[1..], n);
        UnquoteOtherIndent(q, s, n);
      } else if |s| > 1 && s[1] == q {
        UnquoteIndent(q, s[2..], n);
        UnquoteTwiceIndent(q, s[2..], n);
        assert s == [q] + ([q] + s[2..]);
      } else {
        UnquoteOnceIndent(q, s[1..], n);
        assert s == [q] + s[1..];
      }
    }
  }

  lemma {:induction false} UnquoteTwiceIndent(q: char, rest: string, n: nat)
    requires q != '\n' && Unquote(q, IndentTail(rest, n)) == BothIndented(Unquote(q, rest), n)
    ensures Unquote(q, IndentTail([q] + ([q] + rest), n)) == BothIndented(Unquote(q, [q] + ([q] + rest)), n)
  {
    IndentCons(q, [q] + rest, n);
    IndentCons(q, rest, n);
    UnquoteTwice(q, IndentTail(rest, n));
    UnquoteTwice(q, rest);
    if Unquote(q, rest).Some? {
      IndentCons(q, Unquote(q, rest).value.0, n);
    }
  }

  lemma {:induction false} UnquoteOnceIndent(q: char, rest: string, n: nat)
    requires q != '\n' && (rest == "" || rest[0] != q)
    ensures Unquote(q, IndentTail([q] + rest, n)) == BothIndented(Unquote(q, [q] + rest), n)
  {
  }

  lemma {:induction false} UnquoteOtherIndent(q: char, s: string, n: nat)
    requires q != '\n' && q != ' ' && s != "" && s[0] != q
    requires Unquote(q, IndentTail(s[1..], n)) == BothIndented(Unquote(q, s[1..]), n)
    ensures Unquote(q, IndentTail(s, n)) == BothIndented(Unquote(q, s), n)
  {
    var t := IndentTail(s[1..], n);
    var c := s[0];
    assert s == [c] + s[1..];
    UnquotePlain(q, c, s[1..]);
    if Unquote(q, s[1..]).Some? {
      IndentCons(c, Unquote(q, s[1..]).value.0, n);
    }
    if c == '\n' {
      UnquoteSpaces(q, n, t);
      UnquotePlain(q, c, Spaces(n) + t);
      Assoc([c], Spaces(n), t);
      if Unquote(q, t).Some? {
        Assoc([c], Spaces(n), Unquote(q, t).value.0);
      }
    } else {
      UnquotePlain(q, c, t);
    }
  }

  lemma {:induction false} UnquoteSpaces(q: char, n: nat, s: string)
    requires q != ' '
    ensures Unquote(q, Spaces(n) + s) == Behind(Spaces(n), Unquote(q, s))
  {
    if n == 0 {
      assert Spaces(0) + s == s;
      if Unquote(q, s).Some? {
        assert Spaces(0) + Unquote(q, s).value.0 == Unquote(q, s).value.0;
      }
    } else {
      UnquoteSpaces(q, n - 1, s);
      Assoc([' '], Spaces(n - 1), s);
      UnquotePlain(q, ' ', Spaces(n - 1) + s);
      if Unquote(q, s).Some? {
        Assoc([' '], Spaces(n - 1), Unquote(q, s).value.0);
      }
    }
  }

  lemma {:induction false} IndentFirst(s: string, n: nat)
    ensures s == "" <==> IndentTail(s, n) == ""
    ensures s != "" ==> IndentTail(s, n)[0] == s[0]
  {
  }

  lemma {:induction false} RunHasNoNewline(w: string, cls: CharClass)
    requires AllIn(w, cls)
    ensures '\n' !in w
  {
  }

  /** A run of word, number or operator characters is not touched by indentation. */
  lemma {:induction false} IndentRun(s: string, cls: CharClass, n: nat)
    ensures var m := Run(s, cls);
            IndentTail(s, n) == s[..m] + IndentTail(s[m..], n) && Run(IndentTail(s, n), cls) == m
  {
    var m := Run(s, cls);
    RunHasNoNewline(s[..m], cls);
    assert s == s[..m] + s[m..];
    IndentTailConcat(s[..m], s[m..], n);
    IndentPlain(s[..m], n);
    IndentFirst(s[m..], n);
    RunAppend(s[..m], IndentTail(s[m..], n), cls);
  }

  lemma {:induction false} RunNextIndents(s: string, n: nat)
    requires s != "" && RunClass(s[0]).Some?
    ensures IndentTail(s, n) != "" && !IsSpace(s[0])
    ensures Next(IndentTail(s, n)) == (IndentToken(Next(s).0, n), IndentTail(Next(s).1, n))
  {
    var cls := RunClass(s[0]).value;
    var m := Run(s, cls);
    IndentFirst(s, n);
    IndentRun(s, cls, n);
    var t := IndentTail(s[m..], n);
    assert (s[..m] + t)[..m] == s[..m] && (s[..m] + t)[m..] == t;
    RunTokenPlain(s[..m], cls, n);
  }

  lemma {:induction false} RunTokenPlain(w: string, cls: CharClass, n: nat)
    requires AllIn(w, cls)
    ensures IndentToken(RunToken(w, cls), n) == RunToken(w, cls)
  {
    if RunToken(w, cls).Bad? && cls == OperatorChars {
      RunHasNoNewline(w, cls);
      IndentPlain(w, n);
    }
    IndentPlain("$", n);
  }

  lemma {:induction false} OtherNextIndents(s: string, n: nat)
    requires s != "" && RunClass(s[0]).None? && !IsSpace(s[0])
    ensures IndentTail(s, n) != ""
    ensures Next(IndentTail(s, n)) == (IndentToken(Next(s).0, n), IndentTail(Next(s).1, n))
  {
    IndentFirst(s, n);
    var t := IndentTail(s[1..], n);
    assert s == [s[0]] + s[1..];
    IndentCons(s[0], s[1..], n);
    assert IndentTail(s, n)[1..] == t;
    if s[0] == '$' {
      ParamIndents(s[1..], n);
    } else if s[0] == '\'' || s[0] == '"' {
      UnquoteIndent(s[0], s[1..], n);
    } else {
      IndentPlain([s[0]], n);
    }
  }

  lemma {:induction false} ParamIndents(s: string, n: nat)
    ensures var m := Run(s, DigitChars);
            var t := IndentTail(s, n);
            Run(t, DigitChars) == m && t[..m] == s[..m] && t[m..] == IndentTail(s[m..], n)
    ensures IndentToken(ParamToken(s[..Run(s, DigitChars)]), n) == ParamToken(s[..Run(s, DigitChars)])
  {
    IndentRun(s, DigitChars, n);
    IndentPlain("$", n);
  }

  /** Reading an indented text gives the tokens of the text, the contents of quoted tokens
      being indented too: the only way indentation can change a token. */
  lemma {:induction false} LexIndentTail(s: string, n: nat)
    ensures Lex(IndentTail(s, n)) == IndentTokens(Lex(s), n)
    decreases |s|
  {
    if s != "" {
      if IsSpace(s[0]) {
        LexIndentTail(s[1..], n);
        IndentSpace(s, n);
      } else {
        IndentFirst(s, n);
        if RunClass(s[0]).Some? { RunNextIndents(s, n); } else { OtherNextIndents(s, n); }
        LexIndentTail(Next(s).1, n);
        LexTokenIndents(s, n);
      }
    }
  }

  lemma {:induction false} LexTokenIndents(s: string, n: nat)
    requires s != "" && !IsSpace(s[0]) && IndentTail(s, n) != "" && IndentTail(s, n)[0] == s[0]
    requires Next(IndentTail(s, n)) == (IndentToken(Next(s).0, n), IndentTail(Next(s).1, n))
    requires Lex(IndentTail(Next(s).1, n)) == IndentTokens(Lex(Next(s).1), n)
    ensures Lex(IndentTail(s, n)) == IndentTokens(Lex(s), n)
  {
  }

  lemma {:induction false} IndentSpace(s: string, n: nat)
    requires s != "" && IsSpace(s[0])
    ensures Lex(IndentTail(s, n)) == Lex(IndentTail(s[1..], n))
  {
    var t := IndentTail(s[1..], n);
    if s[0] == '\n' {
      LexBlanks(Spaces(n), t);
      LexSpace('\n', Spaces(n) + t);
      Assoc(['\n'], Spaces(n), t);
    } else {
      LexSpace(s[0], t);
    }
  }

  lemma {:induction false} LexBlanks(ws: string, k: string)
    requires forall i :: 0 <= i < |ws| ==> IsSpace(ws[i])
    ensures Lex(ws + k) == Lex(k)
  {
    if ws == "" {
      assert ws + k == k;
    } else {
      LexBlanks(ws[1..], k);
      assert ws + k == [ws[0]] + (ws[1..] + k);
      LexSpace(ws[0], ws[1..] + k);
    }
  }

  lemma {:induction false} LexIndent(s: string, n: nat)
    ensures Lex(IndentBlock(s, n)) == IndentTokens(Lex(s), n)
  {
    LexBlanks(Spaces(n), IndentTail(s, n));
    LexIndentTail(s, n);
  }

  // ---- when nothing changes

  lemma {:induction false} TokenIndentLength(t: Token, n: nat)
    ensures TokenLength(IndentToken(t, n)) == TokenLength(t) + TokenNewlines(t) * n
  {
    match t {
      case Str(v) => IndentTailLength(v, n);
      case Quoted(v) => IndentTailLength(v, n);
      case Bad(s) => IndentTailLength(s, n);
      case _ =>
    }
  }

  lemma {:induction false} IndentLength(ts: Tokens, n: nat)
    ensures InnerLength(IndentTokens(ts, n)) == InnerLength(ts) + InnerNewlines(ts) * n
  {
    match ts
    case Nil =>
    case Cons(t, rest) =>
      IndentLength(rest, n);
      TokenIndentLength(t, n);
      assert (TokenNewlines(t) + InnerNewlines(rest)) * n == TokenNewlines(t) * n + InnerNewlines(rest) * n;
  }

  lemma {:induction false} NoNewlines(v: string)
    ensures Newlines(v) == 0 <==> '\n' !in v
  {
    if v != "" { NoNewlines(v[1..]); }
  }

  lemma {:induction false} IndentNothing(ts: Tokens, n: nat)
    requires InnerNewlines(ts) == 0
    ensures IndentTokens(ts, n) == ts
  {
    match ts
    case Nil =>
    case Cons(t, rest) =>
      IndentNothing(rest, n);
      match t {
        case Str(v) => NoNewlines(v); IndentPlain(v, n);
        case Quoted(v) => NoNewlines(v); IndentPlain(v, n);
        case Bad(s) => NoNewlines(s); IndentPlain(s, n);
        case _ =>
      }
  }

  /** Indenting a text keeps its tokens exactly when none of them spans several lines. */
  lemma {:induction false} IndentKeepsTokens(s: string, n: nat)
    requires n > 0
    ensures Lex(IndentBlock(s, n)) == Lex(s) <==> InnerNewlines(Lex(s)) == 0
  {
    LexIndent(s, n);
    IndentKeeps(Lex(s), n);
  }

  lemma {:induction false} IndentKeeps(ts: Tokens, n: nat)
    requires n > 0
    ensures IndentTokens(ts, n) == ts <==> InnerNewlines(ts) == 0
  {
    IndentLength(ts, n);
    if InnerNewlines(ts) == 0 {
      IndentNothing(ts, n);
    } else {
      assert InnerNewlines(ts) * n > 0;
    }
  }

  // ---- reading a text in two parts

  lemma {:induction false} UnquoteConcat(q: char, s: string, k: string)
    requires Unquote(q, s).Some? && (k == "" || k[0] != q)
    ensures Unquote(q, s + k) == Some((Unquote(q, s).value.0, Unquote(q, s).value.1 + k))
    decreases |s|
  {
    assert (s + k)[1..] == s[1..] + k;
    if s[0] == q {
      if |s| > 1 && s[1] == q {
        assert (s + k)[2..] == s[2..] + k;
        UnquoteConcat(q, s[2..], k);
      }
    } else {
      UnquoteConcat(q, s[1..], k);
    }
  }

  /** A text that cannot be part of what a token before it began. */
  predicate Cuts(k: string) {
    k == "" || IsSpace(k[0]) || k[0] == ','
  }

  lemma {:induction false} CutsRuns(k: string, cls: CharClass)
    requires Cuts(k) && k != ""
    ensures !In(k[0], cls)
  {
    match cls
    case WordChars =>
    case NumberChars =>
    case DigitChars =>
    case OperatorChars =>
  }

  lemma {:induction false} RunConcat(s: string, k: string, cls: CharClass)
    requires Cuts(k)
    ensures var m := Run(s, cls);
            Run(s + k, cls) == m && (s + k)[..m] == s[..m] && (s + k)[m..] == s[m..] + k
  {
    var m := Run(s, cls);
    var t := s[m..] + k;
    assert s + k == s[..m] + t;
    assert t == "" || !In(t[0], cls) by {
      if m < |s| {
        assert t[0] == s[m] && !In(s[m], cls);
      } else if k != "" {
        assert t[0] == k[0];
        CutsRuns(k, cls);
      }
    }
    RunAppend(s[..m], t, cls);
  }

  lemma {:induction false} NextConcat(s: string, k: string)
    requires s != "" && !IsSpace(s[0]) && Cuts(k) && !Next(s).0.Bad?
    ensures Next(s + k) == (Next(s).0, Next(s).1 + k)
  {
    assert (s + k)[0] == s[0] && (s + k)[1..] == s[1..] + k;
    if RunClass(s[0]).Some? {
      RunConcat(s, k, RunClass(s[0]).value);
    } else if s[0] == '$' {
      RunConcat(s[1..], k, DigitChars);
    } else if s[0] == '\'' || s[0] == '"' {
      UnquoteConcat(s[0], s[1..], k);
    }
  }

  /** A readable text followed by white space or a comma is read as its tokens, then the rest. */
  lemma {:induction false} LexConcat(s: string, k: string)
    requires NoBad(Lex(s)) && Cuts(k)
    ensures Lex(s + k) == App(Lex(s), Lex(k))
    decreases |s|
  {
    if s == "" {
      assert s + k == k;
    } else if IsSpace(s[0]) {
      LexConcat(s[1..], k);
      assert (s + k)[1..] == s[1..] + k;
    } else {
      assert Lex(s) == LexToken(s) == Cons(Next(s).0, Lex(Next(s).1));
      NextConcat(s, k);
      LexConcat(Next(s).1, k);
      assert Lex(s + k) == LexToken(s + k) == Cons(Next(s + k).0, Lex(Next(s + k).1));
    }
  }

  lemma {:induction false} IndentNoBad(ts: Tokens, n: nat)
    requires NoBad(ts)
    ensures NoBad(IndentTokens(ts, n))
  {
    match ts
    case Nil =>
    case Cons(_, rest) => IndentNoBad(rest, n);
  }

  /** An indented block inside a larger text. */
  lemma {:induction false} LexIndentConcat(s: string, n: nat, k: string)
    requires NoBad(Lex(s)) && Cuts(k)
    ensures Lex(IndentBlock(s, n) + k) == App(IndentTokens(Lex(s), n), Lex(k))
  {
    LexIndent(s, n);
    IndentNoBad(Lex(s), n);
    LexConcat(IndentBlock(s, n), k);
  }
}
