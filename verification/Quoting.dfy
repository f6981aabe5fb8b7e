/** Expr::Literal and Expr::Ident of src/expr.cpp. */
module Quoting {
  import opened Basics
  import opened Tokens
  import opened Lexer

  const NUL: char := 0 as char

  /** The escaping loop shared by both functions; None where they throw. */
  method Quote(q: char, value: string) returns (r: Option<string>)
    ensures r == if NUL in value then None else Some(Enquote(q, value))
  {
    if NUL in value {
      return None;
    }
    var escaped := [q];
    for i := 0 to |value|
      invariant escaped + Doubled(q, value[i..]) + [q] == Enquote(q, value)
    {
      assert value[i..][1..] == value[i + 1..] && value[i..][0] == value[i];
      if value[i] == q {
        escaped := escaped + [q];
      }
      escaped := escaped + [value[i]];
    }
    assert value[|value|..] == "";
    assert escaped + "" == escaped;
    r := Some(escaped + [q]);
  }

  method Literal(value: string) returns (r: Option<string>)
    ensures r == if NUL in value then None else Some(Spell(Str(value)))
  {
    r := Quote('\'', value);
  }

  method Ident(name: string) returns (r: Option<string>)
    ensures r == if NUL in name then None else Some(Spell(Quoted(name)))
  {
    r := Quote('"', name);
  }

  /** A quoted value is read back, whatever it is, exactly in front of texts that do not
      start with the same quote. */
  lemma {:induction false} QuotingExact(q: char, v: string, k: string)
    requires q == '\'' || q == '"'
    ensures Unquote(q, (Enquote(q, v) + k)[1..]) == Some((v, k)) <==> k == "" || k[0] != q
    ensures k == "" || k[0] != q ==> Lex(Enquote(q, v) + k) == Cons(if q == '"' then Quoted(v) else Str(v), Lex(k))
  {
    assert (Enquote(q, v) + k)[1..] == Doubled(q, v) + [q] + k;
    if k == "" || k[0] != q {
      UnquoteDoubled(q, v, k);
      LexQuoted(q, v, k);
    } else {
      QuotePairs(q, v, k);
    }
  }

  /** Values with the same quoted text are equal. */
  lemma {:induction false} QuotingInjective(q: char, v: string, w: string)
    requires Enquote(q, v) == Enquote(q, w)
    ensures v == w
  {
    UnquoteDoubled(q, v, "");
    UnquoteDoubled(q, w, "");
    assert Enquote(q, v)[1..] == Doubled(q, v) + [q] + "" && Enquote(q, w)[1..] == Doubled(q, w) + [q] + "";
  }

  lemma {:induction false} QuotePairs(q: char, v: string, k: string)
    requires k != "" && k[0] == q
    ensures Unquote(q, Doubled(q, v) + [q] + k) == None ||
            |Unquote(q, Doubled(q, v) + [q] + k).value.0| > |v|
  {
    var s := Doubled(q, v) + [q] + k;
    if v == "" {
      assert s == [q] + k && s[1] == q;
    } else {
      QuotePairs(q, v[1..], k);
      var n := if v[0] == q then 2 else 1;
      assert s[n..] == Doubled(q, v[1..]) + [q] + k;
    }
  }
}
