/** src/impl/identifier.cpp: what counts as an identifier or an operator name. */
module Identifier {
  import opened Basics
  import opened Tokens
  import opened Lexer
  import opened WellFormed
  import opened Render

  function DotJoin(parts: seq<string>): string
    requires parts != []
  {
    if |parts| == 1 then parts[0] else parts[0] + ("." + DotJoin(parts[1..]))
  }

  /** `parts` are the dot-separated names `s` consists of. */
  predicate Names(parts: seq<string>, s: string) {
    parts != [] && (forall i :: 0 <= i < |parts| ==> IsPlainIdentifier(parts[i])) && s == DotJoin(parts)
  }

  /** std::string_view::find, with the length of the text for npos. */
  function FindDot(s: string, start: nat): (dot: nat)
    requires start <= |s|
    ensures start <= dot <= |s| && (dot < |s| ==> s[dot] == '.')
    ensures forall i :: start <= i < dot ==> s[i] != '.'
    decreases |s| - start
  {
    if start == |s| || s[start] == '.' then start else FindDot(s, start + 1)
  }

  predicate AcceptsFrom(s: string, start: nat)
    requires start <= |s|
    decreases |s| - start
  {
    var dot := FindDot(s, start);
    IsPlainIdentifier(s[start..dot]) && (dot == |s| || AcceptsFrom(s, dot + 1))
  }

  /** The scanning loop terminates, stays inside the text, and accepts exactly the dotted
      lists of plain identifiers. */
  method ValidateIdentifier(s: string) returns (ok: bool)
    ensures ok <==> exists parts :: Names(parts, s)
  {
    var start := 0;
    ok := true;
    while ok
      invariant start <= |s|
      invariant AcceptsFrom(s, 0) == (ok && AcceptsFrom(s, start))
      decreases ok, |s| - start
    {
      var dot := FindDot(s, start);
      if !IsPlainIdentifier(s[start..dot]) {
        ok := false;
      } else if dot == |s| {
        break;
      } else {
        start := dot + 1;
      }
    }
    AcceptsExact(s);
  }

  /** The names between the dots. */
  function PartsOf(s: string, start: nat): seq<string>
    requires start <= |s|
    decreases |s| - start
  {
    var dot := FindDot(s, start);
    [s[start..dot]] + if dot < |s| then PartsOf(s, dot + 1) else []
  }

  lemma {:induction false} NamesCons(name: string, parts: seq<string>, s: string, all: seq<string>, whole: string)
    requires IsPlainIdentifier(name) && Names(parts, s)
    requires all == [name] + parts && whole == name + ("." + s)
    ensures Names(all, whole)
  {
    assert all[1..] == parts;
  }

  lemma {:induction false} CutAtDot(s: string, start: nat, dot: nat)
    requires start <= dot < |s| && s[dot] == '.'
    ensures s[start..] == s[start..dot] + ("." + s[dot + 1..])
  {
  }

  lemma {:induction false} PartsNamed(s: string, start: nat)
    requires start <= |s| && AcceptsFrom(s, start)
    ensures Names(PartsOf(s, start), s[start..])
    decreases |s| - start
  {
    var dot := FindDot(s, start);
    PartsCut(s, start);
    if dot < |s| {
      PartsNamed(s, dot + 1);
      CutAtDot(s, start, dot);
      NamesCons(s[start..dot], PartsOf(s, dot + 1), s[dot + 1..], PartsOf(s, start), s[start..]);
    } else {
      assert s[start..] == s[start..dot];
      OneName(s[start..], PartsOf(s, start));
    }
  }

  lemma {:induction false} PartsCut(s: string, start: nat)
    requires start <= |s|
    ensures var dot := FindDot(s, start);
            PartsOf(s, start) == if dot < |s| then [s[start..dot]] + PartsOf(s, dot + 1) else [s[start..dot]]
  {
  }

  lemma {:induction false} OneName(name: string, all: seq<string>)
    requires IsPlainIdentifier(name) && all == [name]
    ensures Names(all, name)
  {
  }

  lemma {:induction false} PlainHasNoDot(s: string)
    requires IsPlainIdentifier(s)
    ensures '.' !in s
  {
  }

  /** The first dot of a joined text ends its first name. */
  lemma {:induction false} FirstDot(parts: seq<string>, s: string, start: nat)
    requires start <= |s| && Names(parts, s[start..])
    ensures FindDot(s, start) == start + |parts[0]| && s[start..start + |parts[0]|] == parts[0]
    ensures |parts| > 1 <==> start + |parts[0]| < |s|
    ensures |parts| > 1 ==> Names(parts[1..], s[start + |parts[0]| + 1..])
  {
    var p := parts[0];
    var t := s[start..];
    PlainHasNoDot(p);
    assert t[..|p|] == p;
    assert forall i :: 0 <= i < |p| ==> s[start + i] == p[i];
    if |parts| > 1 {
      assert t[|p|] == '.';
      assert t[|p| + 1..] == DotJoin(parts[1..]);
      assert s[start + |p| + 1..] == t[|p| + 1..];
    }
  }

  lemma {:induction false} NamesAccepted(parts: seq<string>, s: string, start: nat)
    requires start <= |s| && Names(parts, s[start..])
    ensures AcceptsFrom(s, start)
    decreases |parts|
  {
    FirstDot(parts, s, start);
    if |parts| > 1 {
      NamesAccepted(parts[1..], s, start + |parts[0]| + 1);
    }
  }

  /** The names of an accepted text. */
  lemma {:induction false} AcceptedParts(s: string)
    requires exists parts :: Names(parts, s)
    ensures Names(PartsOf(s, 0), s)
  {
    AcceptsExact(s);
    PartsNamed(s, 0);
    assert s[0..] == s;
  }

  lemma {:induction false} AcceptsExact(s: string)
    ensures AcceptsFrom(s, 0) <==> exists parts :: Names(parts, s)
  {
    assert s[0..] == s;
    if AcceptsFrom(s, 0) {
      PartsNamed(s, 0);
    }
    forall parts | Names(parts, s) ensures AcceptsFrom(s, 0) {
      NamesAccepted(parts, s, 0);
    }
  }

  /** The list of names is determined by the text. */
  lemma {:induction false} NamesUnique(a: seq<string>, b: seq<string>, s: string)
    requires Names(a, s) && Names(b, s)
    ensures a == b
    decreases |a|
  {
    assert s[0..] == s;
    FirstDot(a, s, 0);
    FirstDot(b, s, 0);
    assert a[0] == b[0];
    if |a| > 1 {
      NamesUnique(a[1..], b[1..], s[|a[0]| + 1..]);
    }
    assert a == [a[0]] + a[1..] && b == [b[0]] + b[1..];
  }

  /** A dotted name as the tokens it is printed with, and back. */
  function PathOf(parts: seq<string>): List<Token> {
    if parts == [] then Nil else Cons(Word(parts[0]), PathOf(parts[1..]))
  }

  function WordsOf(path: List<Token>): seq<string>
    requires AllWords(path)
  {
    match path
    case Nil => []
    case Cons(n, rest) => [n.name] + WordsOf(rest)
  }

  lemma {:induction false} PathOfText(parts: seq<string>)
    requires parts != []
    ensures PathText(PathOf(parts)) == DotJoin(parts)
  {
    if |parts| > 1 {
      PathOfText(parts[1..]);
      assert PathOf(parts).tail.Cons?;
    } else {
      assert PathOf(parts[1..]) == Nil;
    }
  }

  /** The dotted names of trees are names ValidateIdentifier accepts. */
  lemma {:induction false} PathAccepted(path: List<Token>)
    requires PlainPath(path)
    ensures Names(WordsOf(path), PathText(path))
  {
    if path.tail.Cons? {
      PathAccepted(path.tail);
      assert WordsOf(path)[1..] == WordsOf(path.tail);
    }
  }

  // ---- the characters of names

  /** A name begins with one of the 52 letters or an underscore and goes on with these and
      digits, and every such text is a name. */
  lemma {:induction false} NameCharacters(s: string)
    ensures IsPlainIdentifier(s) <==>
      s != "" && !('0' <= s[0] <= '9') &&
      forall i :: 0 <= i < |s| ==>
        'a' <= s[i] <= 'z' || 'A' <= s[i] <= 'Z' || '0' <= s[i] <= '9' || s[i] == '_'
  {
  }

  // ---- operator names

  predicate OnlySigns(s: string) {
    forall i :: 0 <= i < |s| ==> s[i] == '+' || s[i] == '-'
  }

  /** ValidateOperatorName returns normally. */
  predicate ValidatesOperator(s: string) {
    s != "" && AllIn(s, OperatorChars) && !HasComment(s) &&
    !(|s| > 1 && (s[|s| - 1] == '+' || s[|s| - 1] == '-') && OnlySigns(s))
  }

  /** A text of operator characters is read as one operator token, wherever it ends, exactly
      when it starts no comment; every name ValidateOperatorName accepts is such a text. */
  lemma {:induction false} OperatorReadsBack(s: string, k: string)
    requires s != "" && AllIn(s, OperatorChars) && (k == "" || !IsOperatorChar(k[0]))
    ensures Lex(s + k) == Cons(Op(s), Lex(k)) <==> !HasComment(s)
    ensures ValidatesOperator(s) ==> Lex(s + k) == Cons(Op(s), Lex(k))
  {
    LexRun(s, k, OperatorChars);
  }
}
