/** src/impl/render.cpp and JoinCsvIndented of src/select_expr.cpp: joining and indenting
    rendered texts. */
module Text {

  // ---- concatenation is associative

  lemma {:induction false} Assoc(a: string, b: string, k: string)
    ensures (a + b) + k == a + (b + k)
  {
  }

  lemma {:induction false} Assoc3(a: string, b: string, c: string, k: string)
    ensures (a + (b + c)) + k == a + (b + (c + k))
  {
    Assoc(a, b + c, k);
    Assoc(b, c, k);
  }

  lemma {:induction false} Assoc4(a: string, b: string, c: string, d: string, k: string)
    ensures (a + (b + (c + d))) + k == a + (b + (c + (d + k)))
  {
    Assoc(a, b + (c + d), k);
    Assoc3(b, c, d, k);
  }

  // ---- JoinCsv

  /** The loop of JoinCsv, `s` being the text joined so far: a separator goes in only when
      that text is not empty. */
  function JoinFrom(s: string, items: seq<string>): string
    decreases |items|
  {
    if items == [] then s
    else JoinFrom((if s == "" then "" else s + ", ") + items[0], items[1..])
  }

  function JoinCsv(items: seq<string>): string {
    JoinFrom("", items)
  }

  /** Plain intercalation behind a first item: a separator before every item. */
  function After(sep: string, items: seq<string>): string {
    if items == [] then "" else sep + items[0] + After(sep, items[1..])
  }

  function Intercalate(sep: string, items: seq<string>): string {
    if items == [] then "" else items[0] + After(sep, items[1..])
  }

  function DropEmpty(items: seq<string>): seq<string> {
    if items != [] && items[0] == "" then DropEmpty(items[1..]) else items
  }

  function TotalLength(items: seq<string>): nat {
    if items == [] then 0 else |items[0]| + TotalLength(items[1..])
  }

  /** The size JoinCsv reserves. */
  function CsvReserve(items: seq<string>): nat {
    if items == [] then 0 else 2 * (|items| - 1) + TotalLength(items)
  }

  lemma {:induction false} JoinFromText(s: string, items: seq<string>)
    requires s != ""
    ensures JoinFrom(s, items) == s + After(", ", items)
    decreases |items|
  {
    if items != [] {
      JoinFromText(s + ", " + items[0], items[1..]);
      assert s + ", " + items[0] + After(", ", items[1..]) == s + After(", ", items);
    }
  }

  /** JoinCsv intercalates, once the empty items at the front are dropped. */
  lemma {:induction false} JoinCsvText(items: seq<string>)
    ensures JoinCsv(items) == Intercalate(", ", DropEmpty(items))
    decreases |items|
  {
    if items != [] {
      assert "" + items[0] == items[0];
      if items[0] == "" {
        JoinCsvText(items[1..]);
      } else {
        JoinFromText(items[0], items[1..]);
      }
    }
  }

  lemma {:induction false} IntercalateCons(first: string, rest: seq<string>)
    requires rest != []
    ensures Intercalate(", ", [first] + rest) == first + (", " + Intercalate(", ", rest))
  {
    assert ([first] + rest)[1..] == rest;
    Assoc(", ", rest[0], After(", ", rest[1..]));
  }

  lemma {:induction false} JoinCsvNonEmpty(items: seq<string>)
    requires items != [] && items[0] != ""
    ensures JoinCsv(items) == Intercalate(", ", items)
  {
    JoinCsvText(items);
  }

  lemma {:induction false} AfterLength(items: seq<string>)
    ensures |After(", ", items)| == 2 * |items| + TotalLength(items)
  {
    if items != [] {
      AfterLength(items[1..]);
    }
  }

  /** The reserved size is met exactly unless a separator was dropped; it is never exceeded. */
  lemma {:induction false} CsvReserveExact(items: seq<string>)
    ensures |JoinCsv(items)| <= CsvReserve(items)
    ensures |JoinCsv(items)| == CsvReserve(items) <==> |items| <= 1 || items[0] != ""
    decreases |items|
  {
    JoinCsvText(items);
    if items != [] {
      if items[0] == "" {
        CsvReserveExact(items[1..]);
        JoinCsvText(items[1..]);
      } else {
        AfterLength(items[1..]);
      }
    }
  }

  method JoinCsvLoop(items: seq<string>) returns (s: string)
    ensures s == JoinCsv(items)
  {
    s := "";
    for i := 0 to |items|
      invariant JoinFrom(s, items[i..]) == JoinCsv(items)
    {
      assert items[i..][0] == items[i] && items[i..][1..] == items[i + 1..];
      if s != "" {
        s := s + ", ";
      }
      s := s + items[i];
    }
  }

  /** JoinCsvIndented: every item on its own line, four spaces in. */
  function JoinCsvIndented(items: seq<string>): string {
    if items == [] then "" else "    " + items[0] + After(",\n    ", items[1..])
  }

  lemma {:induction false} IndentedStep(s: string, item: string, rest: seq<string>)
    ensures (s + ",\n" + "    " + item) + After(",\n    ", rest) == s + After(",\n    ", [item] + rest)
  {
  }

  method JoinCsvIndentedLoop(items: seq<string>) returns (s: string)
    ensures s == JoinCsvIndented(items)
  {
    s := "";
    for i := 0 to |items|
      invariant i == 0 ==> s == ""
      invariant i > 0 ==> s != "" && s + After(",\n    ", items[i..]) == JoinCsvIndented(items)
    {
      assert items[i..] == [items[i]] + items[i + 1..];
      IndentedStep(s, items[i], items[i + 1..]);
      if s != "" {
        s := s + ",\n";
      }
      s := s + "    ";
      s := s + items[i];
    }
  }

  // ---- IndentBlock

  function Spaces(n: nat): (s: string)
    ensures |s| == n && forall i :: 0 <= i < n ==> s[i] == ' '
  {
    if n == 0 then "" else [' '] + Spaces(n - 1)
  }

  /** `n` spaces behind every newline. */
  function IndentTail(text: string, n: nat): string {
    if text == "" then ""
    else if text[0] == '\n' then ['\n'] + Spaces(n) + IndentTail(text[1..], n)
    else [text[0]] + IndentTail(text[1..], n)
  }

  function IndentBlock(text: string, n: nat): string {
    Spaces(n) + IndentTail(text, n)
  }

  function Newlines(text: string): nat {
    if text == "" then 0 else (if text[0] == '\n' then 1 else 0) + Newlines(text[1..])
  }

  method IndentBlockLoop(text: string, spaces: nat) returns (s: string)
    ensures s == IndentBlock(text, spaces)
    ensures |s| == spaces + |text| + Newlines(text) * spaces
  {
    var prefix := Spaces(spaces);
    s := prefix;
    for i := 0 to |text|
      invariant s + IndentTail(text[i..], spaces) == IndentBlock(text, spaces)
    {
      assert text[i..][0] == text[i] && text[i..][1..] == text[i + 1..];
      s := s + [text[i]];
      if text[i] == '\n' {
        s := s + prefix;
      }
    }
    IndentTailLength(text, spaces);
  }

  lemma {:induction false} IndentTailLength(text: string, n: nat)
    ensures |IndentTail(text, n)| == |text| + Newlines(text) * n
  {
    if text != "" {
      IndentTailLength(text[1..], n);
    }
  }

  lemma {:induction false} IndentTailConcat(a: string, b: string, n: nat)
    ensures IndentTail(a + b, n) == IndentTail(a, n) + IndentTail(b, n)
  {
    if a == "" {
      assert a + b == b;
    } else {
      assert (a + b)[1..] == a[1..] + b;
      IndentTailConcat(a[1..], b, n);
    }
  }

  lemma {:induction false} IndentPlain(a: string, n: nat)
    requires '\n' !in a
    ensures IndentTail(a, n) == a
  {
    if a != "" {
      IndentPlain(a[1..], n);
    }
  }

  lemma {:induction false} SpacesConcat(a: nat, b: nat)
    ensures Spaces(a) + Spaces(b) == Spaces(a + b)
  {
  }

  lemma {:induction false} IndentCons(c: char, rest: string, n: nat)
    ensures IndentTail([c] + rest, n) == (if c == '\n' then ['\n'] + Spaces(n) else [c]) + IndentTail(rest, n)
  {
    assert ([c] + rest)[1..] == rest;
  }

  lemma {:induction false} IndentTailTwice(text: string, a: nat, b: nat)
    ensures IndentTail(IndentTail(text, a), b) == IndentTail(text, a + b)
  {
    if text != "" {
      var rest := IndentTail(text[1..], a);
      IndentTailTwice(text[1..], a, b);
      if text[0] == '\n' {
        IndentIndented(a, rest, b);
        assert IndentTail(text, a) == ['\n'] + (Spaces(a) + rest);
        IndentCons('\n', Spaces(a) + rest, b);
        Assoc(['\n'], Spaces(b), Spaces(a) + IndentTail(rest, b));
        Assoc(Spaces(b), Spaces(a), IndentTail(rest, b));
        SpacesConcat(b, a);
        Assoc(['\n'], Spaces(a + b), IndentTail(rest, b));
      } else {
        IndentCons(text[0], rest, b);
      }
    }
  }

  lemma {:induction false} IndentIndented(a: nat, rest: string, b: nat)
    ensures IndentTail(Spaces(a) + rest, b) == Spaces(a) + IndentTail(rest, b)
  {
    assert '\n' !in Spaces(a);
    IndentPlain(Spaces(a), b);
    IndentTailConcat(Spaces(a), rest, b);
  }

  /** Indenting twice is indenting once by the sum. */
  lemma {:induction false} IndentTwice(text: string, a: nat, b: nat)
    ensures IndentBlock(IndentBlock(text, a), b) == IndentBlock(text, a + b)
  {
    IndentTailTwice(text, a, b);
    IndentIndented(a, IndentTail(text, a), b);
    SpacesConcat(b, a);
  }

  /** Indentation distributes over lines. */
  lemma {:induction false} IndentLines(first: string, rest: string, n: nat)
    ensures IndentBlock(first + "\n" + rest, n) == IndentBlock(first, n) + "\n" + IndentBlock(rest, n)
  {
    IndentTailConcat(first + "\n", rest, n);
    IndentTailConcat(first, "\n", n);
    assert IndentTail("\n", n) == ['\n'] + Spaces(n) + IndentTail("\n"[1..], n);
  }

  function DropSpaces(s: string, n: nat): string {
    if n == 0 || s == "" || s[0] != ' ' then s else DropSpaces(s[1..], n - 1)
  }

  function DedentTail(s: string, n: nat): string
    decreases |s|
  {
    if s == "" then ""
    else if s[0] == '\n' then
      DropSpacesShrinks(s[1..], n);
      ['\n'] + DedentTail(DropSpaces(s[1..], n), n)
    else [s[0]] + DedentTail(s[1..], n)
  }

  lemma {:induction false} DropSpacesShrinks(s: string, n: nat)
    ensures |DropSpaces(s, n)| <= |s|
  {
    if !(n == 0 || s == "" || s[0] != ' ') {
      DropSpacesShrinks(s[1..], n - 1);
    }
  }

  lemma {:induction false} DropIndent(n: nat, s: string)
    ensures DropSpaces(Spaces(n) + s, n) == s
  {
    if n > 0 {
      assert (Spaces(n) + s)[1..] == Spaces(n - 1) + s;
      DropIndent(n - 1, s);
    } else {
      assert Spaces(0) + s == s;
    }
  }

  lemma {:induction false} DedentIndentTail(text: string, n: nat)
    ensures DedentTail(IndentTail(text, n), n) == text
  {
    if text != "" {
      DedentIndentTail(text[1..], n);
      var s := IndentTail(text, n);
      if text[0] == '\n' {
        assert s[1..] == Spaces(n) + IndentTail(text[1..], n);
        DropIndent(n, IndentTail(text[1..], n));
      } else {
        assert s[1..] == IndentTail(text[1..], n);
      }
      assert [text[0]] + text[1..] == text;
    }
  }

  /** Removing `n` spaces from every line undoes the indentation. */
  lemma {:induction false} DedentIndent(text: string, n: nat)
    ensures DedentTail(DropSpaces(IndentBlock(text, n), n), n) == text
  {
    DropIndent(n, IndentTail(text, n));
    DedentIndentTail(text, n);
  }
}
