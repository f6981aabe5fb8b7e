/** The lexical structure of the printed SQL: PostgreSQL 17 documentation, section 4.1. */
module Lexer {
  import opened Basics
  import opened Tokens
  import opened Numerals

  predicate IsSpace(c: char) {
    c == ' ' || c == '\n' || c == '\t' || c == '\r'
  }

  predicate IsLetter(c: char) {
    'a' <= c <= 'z' || 'A' <= c <= 'Z' || c == '_'
  }

  /** The characters of IsOperatorChar. */
  predicate IsOperatorChar(c: char) {
    c in {'+', '-', '*', '/', '<', '>', '=', '~', '!', '@', '#', '%', '^', '&', '|', '`', '?'}
  }

  /** The classes of characters a token may run through. */
  datatype CharClass = WordChars | NumberChars | DigitChars | OperatorChars

  predicate In(c: char, cls: CharClass) {
    match cls
    case WordChars => IsLetter(c) || IsDigit(c)
    case NumberChars => IsLetter(c) || IsDigit(c) || c == '.'
    case DigitChars => IsDigit(c)
    case OperatorChars => IsOperatorChar(c)
  }

  predicate AllIn(s: string, cls: CharClass) {
    forall i :: 0 <= i < |s| ==> In(s[i], cls)
  }

  /** The length of the longest prefix of `s` inside the class. */
  function Run(s: string, cls: CharClass): (n: nat)
    ensures n <= |s| && AllIn(s[..n], cls) && (n < |s| ==> !In(s[n], cls))
  {
    if s == "" || !In(s[0], cls) then 0 else 1 + Run(s[1..], cls)
  }

  // ---- keywords

  function KwText(k: Keyword): string {
    match k
    case AND => "AND"
    case OR => "OR"
    case NOT => "NOT"
    case BETWEEN => "BETWEEN"
    case LIKE => "LIKE"
    case ILIKE => "ILIKE"
    case SIMILAR => "SIMILAR"
    case TO => "TO"
    case IN => "IN"
    case ANY => "ANY"
    case ALL => "ALL"
    case IS => "IS"
    case TRUE => "TRUE"
    case FALSE => "FALSE"
    case NULL => "NULL"
    case DISTINCT => "DISTINCT"
    case FROM => "FROM"
    case COLLATE => "COLLATE"
    case CAST => "CAST"
    case AS => "AS"
    case CASE => "CASE"
    case WHEN => "WHEN"
    case THEN => "THEN"
    case ELSE => "ELSE"
    case END => "END"
    case EXISTS => "EXISTS"
    case SELECT => "SELECT"
    case ON => "ON"
    case WHERE => "WHERE"
    case GROUP => "GROUP"
    case BY => "BY"
    case HAVING => "HAVING"
    case ORDER => "ORDER"
    case DESC => "DESC"
    case NULLS => "NULLS"
    case FIRST => "FIRST"
    case LAST => "LAST"
    case LIMIT => "LIMIT"
    case OFFSET => "OFFSET"
    case WITH => "WITH"
    case UNION => "UNION"
    case INTERSECT => "INTERSECT"
    case EXCEPT => "EXCEPT"
    case INNER => "INNER"
    case CROSS => "CROSS"
    case LEFT => "LEFT"
    case RIGHT => "RIGHT"
    case FULL => "FULL"
    case OUTER => "OUTER"
    case NATURAL => "NATURAL"
    case JOIN => "JOIN"
    case USING => "USING"
  }

  function UpperChar(c: char): char {
    if 'a' <= c <= 'z' then (c as int - 32) as char else c
  }

  function Upper(s: string): (u: string)
    ensures |u| == |s|
  {
    seq(|s|, i requires 0 <= i < |s| => UpperChar(s[i]))
  }

  function Keyword2(w: string): Option<Keyword> {
    if w == "OR" then Some(OR)
    else if w == "TO" then Some(TO)
    else if w == "IN" then Some(IN)
    else if w == "IS" then Some(IS)
    else if w == "AS" then Some(AS)
    else if w == "ON" then Some(ON)
    else if w == "BY" then Some(BY)
    else None
  }

  function Keyword3(w: string): Option<Keyword> {
    if w == "AND" then Some(AND)
    else if w == "NOT" then Some(NOT)
    else if w == "ANY" then Some(ANY)
    else if w == "ALL" then Some(ALL)
    else if w == "END" then Some(END)
    else None
  }

  function Keyword4(w: string): Option<Keyword>
    requires |w| == 4
  {
    if w[0] < 'L' then EarlyFour(w) else LateFour(w)
  }

  function EarlyFour(w: string): Option<Keyword> {
    if w == "FROM" then Some(FROM)
    else if w == "CAST" then Some(CAST)
    else if w == "CASE" then Some(CASE)
    else if w == "ELSE" then Some(ELSE)
    else if w == "DESC" then Some(DESC)
    else if w == "FULL" then Some(FULL)
    else if w == "JOIN" then Some(JOIN)
    else None
  }

  function LateFour(w: string): Option<Keyword> {
    if w == "LIKE" then Some(LIKE)
    else if w == "TRUE" then Some(TRUE)
    else if w == "NULL" then Some(NULL)
    else if w == "WHEN" then Some(WHEN)
    else if w == "THEN" then Some(THEN)
    else if w == "LAST" then Some(LAST)
    else if w == "WITH" then Some(WITH)
    else if w == "LEFT" then Some(LEFT)
    else None
  }

  function Keyword5(w: string): Option<Keyword>
    requires |w| == 5
  {
    if w[0] < 'L' then EarlyFive(w) else LateFive(w)
  }

  function EarlyFive(w: string): Option<Keyword> {
    if w == "ILIKE" then Some(ILIKE)
    else if w == "FALSE" then Some(FALSE)
    else if w == "GROUP" then Some(GROUP)
    else if w == "FIRST" then Some(FIRST)
    else if w == "INNER" then Some(INNER)
    else if w == "CROSS" then Some(CROSS)
    else None
  }

  function LateFive(w: string): Option<Keyword> {
    if w == "WHERE" then Some(WHERE)
    else if w == "ORDER" then Some(ORDER)
    else if w == "NULLS" then Some(NULLS)
    else if w == "LIMIT" then Some(LIMIT)
    else if w == "UNION" then Some(UNION)
    else if w == "RIGHT" then Some(RIGHT)
    else if w == "OUTER" then Some(OUTER)
    else if w == "USING" then Some(USING)
    else None
  }

  function Keyword6(w: string): Option<Keyword> {
    if w == "EXISTS" then Some(EXISTS)
    else if w == "SELECT" then Some(SELECT)
    else if w == "HAVING" then Some(HAVING)
    else if w == "OFFSET" then Some(OFFSET)
    else if w == "EXCEPT" then Some(EXCEPT)
    else None
  }

  function Keyword7(w: string): Option<Keyword> {
    if w == "BETWEEN" then Some(BETWEEN)
    else if w == "SIMILAR" then Some(SIMILAR)
    else if w == "COLLATE" then Some(COLLATE)
    else if w == "NATURAL" then Some(NATURAL)
    else None
  }

  function Keyword8(w: string): Option<Keyword> {
    if w == "DISTINCT" then Some(DISTINCT)
    else None
  }

  function Keyword9(w: string): Option<Keyword> {
    if w == "INTERSECT" then Some(INTERSECT)
    else None
  }

  /** The keyword spelt by an upper-case word. */
  function KeywordOf(w: string): Option<Keyword> {
    match |w|
    case 2 => Keyword2(w)
    case 3 => Keyword3(w)
    case 4 => Keyword4(w)
    case 5 => Keyword5(w)
    case 6 => Keyword6(w)
    case 7 => Keyword7(w)
    case 8 => Keyword8(w)
    case 9 => Keyword9(w)
    case _ => None
  }

  /** Keywords are recognised in any case. */
  function Classify(w: string): Token {
    match KeywordOf(Upper(w))
    case None => Word(w)
    case Some(k) => Kw(k)
  }

  // ---- tokens

  predicate HasComment(s: string) {
    exists i :: 0 <= i < |s| - 1 && (s[i] == s[i + 1] == '-' || (s[i] == '/' && s[i + 1] == '*'))
  }

  /** The contents of a quoted token and what follows it, read after the opening quote;
      a doubled quote stands for one. */
  function Unquote(q: char, s: string): (r: Option<(string, string)>)
    ensures r.Some? ==> |r.value.1| < |s|
  {
    if s == "" then None
    else if s[0] == q then
      if |s| > 1 && s[1] == q then
        match Unquote(q, s[2..])
        case None => None
        case Some((v, rest)) => Some(([q] + v, rest))
      else Some(("", s[1..]))
    else
      match Unquote(q, s[1..])
      case None => None
      case Some((v, rest)) => Some(([s[0]] + v, rest))
  }

  function Punctuation(c: char): Token {
    match c
    case '(' => LParen
    case ')' => RParen
    case '[' => LBracket
    case ']' => RBracket
    case ',' => Comma
    case '.' => Period
    case _ => Bad([c])
  }

  function OpToken(s: string): Token {
    if HasComment(s) then Bad(s) else Op(s)
  }

  function ParamToken(digits: string): Token {
    if digits == "" then Bad("$") else Param(digits)
  }

  /** The class a token starting with `c` runs through, if it runs at all. */
  function RunClass(c: char): Option<CharClass> {
    if IsLetter(c) then Some(WordChars)
    else if IsDigit(c) then Some(NumberChars)
    else if IsOperatorChar(c) then Some(OperatorChars)
    else None
  }

  function RunToken(text: string, cls: CharClass): Token {
    match cls
    case WordChars => Classify(text)
    case NumberChars => Num(text)
    case DigitChars => ParamToken(text)
    case OperatorChars => OpToken(text)
  }

  /** The token at the front of `s` and what follows it. */
  function Next(s: string): (r: (Token, string))
    requires s != ""
    ensures |r.1| < |s|
  {
    if RunClass(s[0]).Some? then
      var cls := RunClass(s[0]).value;
      (RunToken(s[..Run(s, cls)], cls), s[Run(s, cls)..])
    else if s[0] == '$' then
      (RunToken(s[1..][..Run(s[1..], DigitChars)], DigitChars), s[1..][Run(s[1..], DigitChars)..])
    else if s[0] == '\'' || s[0] == '"' then
      match Unquote(s[0], s[1..])
      case None => (Bad(s), "")
      case Some((v, rest)) => (if s[0] == '"' then Quoted(v) else Str(v), rest)
    else (Punctuation(s[0]), s[1..])
  }

  function Lex(s: string): Tokens
    decreases |s|, 1
  {
    if s == "" then Nil
    else if IsSpace(s[0]) then Lex(s[1..])
    else LexToken(s)
  }

  function LexToken(s: string): Tokens
    requires s != ""
    decreases |s|, 0
  {
    Cons(Next(s).0, Lex(Next(s).1))
  }

  // ---- the spelling of tokens

  function Doubled(q: char, v: string): string {
    if v == "" then ""
    else if v[0] == q then [q, q] + Doubled(q, v[1..])
    else [v[0]] + Doubled(q, v[1..])
  }

  /** The text Expr::Literal and Expr::Ident produce. */
  function Enquote(q: char, v: string): string {
    [q] + Doubled(q, v) + [q]
  }

  function Spell(tok: Token): string {
    match tok
    case Word(s) => s
    case Kw(k) => KwText(k)
    case Num(digits) => digits
    case Str(v) => Enquote('\'', v)
    case Quoted(v) => Enquote('"', v)
    case Param(digits) => "$" + digits
    case Op(s) => s
    case LParen => "("
    case RParen => ")"
    case LBracket => "["
    case RBracket => "]"
    case Comma => ","
    case Period => "."
    case Bad(s) => s
  }

  /** A letter or underscore followed by letters, digits and underscores. */
  predicate IsPlainIdentifier(s: string) {
    s != "" && IsLetter(s[0]) && AllIn(s, WordChars)
  }

  /** An unquoted name that is no keyword in any case. */
  predicate IsFreeName(s: string) {
    IsPlainIdentifier(s) && KeywordOf(Upper(s)).None?
  }

  predicate IsNumeral(s: string) {
    s != "" && IsDigit(s[0]) && forall i :: 0 <= i < |s| ==> IsDigit(s[i]) || s[i] == '.'
  }

  predicate IsOperatorName(s: string) {
    s != "" && AllIn(s, OperatorChars) && !HasComment(s)
  }

  /** Token values whose spelling is read back as that token. */
  predicate Spellable(tok: Token) {
    match tok
    case Word(s) => IsFreeName(s)
    case Num(digits) => IsNumeral(digits)
    case Param(digits) => digits != "" && AllDigits(digits)
    case Op(s) => IsOperatorName(s)
    case Bad(_) => false
    case _ => true
  }

  // ---- reading one token back

  lemma {:induction false} RunAppend(w: string, k: string, cls: CharClass)
    requires AllIn(w, cls) && (k == "" || !In(k[0], cls))
    ensures Run(w + k, cls) == |w|
  {
    if w == "" {
      assert w + k == k;
    } else {
      assert (w + k)[1..] == w[1..] + k;
      RunAppend(w[1..], k, cls);
    }
  }

  lemma {:induction false} LexSpace(c: char, k: string)
    requires IsSpace(c)
    ensures Lex([c] + k) == Lex(k)
  {
    assert ([c] + k)[1..] == k;
  }

  lemma {:induction false} LexRun(w: string, k: string, cls: CharClass)
    requires w != "" && RunClass(w[0]) == Some(cls) && AllIn(w, cls)
    requires k == "" || !In(k[0], cls)
    ensures Lex(w + k) == Cons(RunToken(w, cls), Lex(k))
  {
    RunAppend(w, k, cls);
    assert (w + k)[0] == w[0] && !IsSpace(w[0]);
    assert (w + k)[..|w|] == w && (w + k)[|w|..] == k;
  }

  lemma {:induction false} LexPunctuation(c: char, k: string)
    requires c in {'(', ')', '[', ']', ',', '.'}
    ensures Lex([c] + k) == Cons(Punctuation(c), Lex(k))
  {
    assert ([c] + k)[1..] == k;
  }

  lemma {:induction false} LexParam(digits: string, k: string)
    requires digits != "" && AllDigits(digits) && (k == "" || !IsDigit(k[0]))
    ensures Lex("$" + digits + k) == Cons(Param(digits), Lex(k))
  {
    var s := "$" + digits + k;
    assert s[0] == '$' && s[1..] == digits + k;
    RunAppend(digits, k, DigitChars);
    assert s[1..][..|digits|] == digits && s[1..][|digits|..] == k;
  }

  /** Reading back what Literal or Ident wrote gives the value and leaves the rest. */
  lemma {:induction false} UnquoteDoubled(q: char, v: string, k: string)
    requires k == "" || k[0] != q
    ensures Unquote(q, Doubled(q, v) + [q] + k) == Some((v, k))
  {
    var s := Doubled(q, v) + [q] + k;
    if v == "" {
      assert s[1..] == k;
    } else {
      UnquoteDoubled(q, v[1..], k);
      var n := if v[0] == q then 2 else 1;
      assert s[n..] == Doubled(q, v[1..]) + [q] + k;
      assert [v[0]] + v[1..] == v;
    }
  }

  lemma {:induction false} LexQuoted(q: char, v: string, k: string)
    requires q == '\'' || q == '"'
    requires k == "" || k[0] != q
    ensures Lex(Enquote(q, v) + k) == Cons(if q == '"' then Quoted(v) else Str(v), Lex(k))
  {
    var s := Enquote(q, v) + k;
    assert s[0] == q && s[1..] == Doubled(q, v) + [q] + k;
    UnquoteDoubled(q, v, k);
  }

  predicate Capitals(s: string) {
    s != "" && forall i :: 0 <= i < |s| ==> 'A' <= s[i] <= 'Z'
  }

  predicate ShortWord(k: Keyword) {
    k.OR? || k.TO? || k.IN? || k.IS? || k.AS? || k.ON? || k.BY? || k.AND? || k.NOT? ||
    k.ANY? || k.ALL? || k.END?
  }

  predicate EarlyFourWord(k: Keyword) {
    k.FROM? || k.CAST? || k.CASE? || k.ELSE? || k.DESC? || k.FULL? || k.JOIN?
  }

  predicate LateFourWord(k: Keyword) {
    k.LIKE? || k.TRUE? || k.NULL? || k.WHEN? || k.THEN? || k.LAST? || k.WITH? || k.LEFT?
  }

  predicate EarlyFiveWord(k: Keyword) {
    k.ILIKE? || k.FALSE? || k.GROUP? || k.FIRST? || k.INNER? || k.CROSS?
  }

  predicate LateFiveWord(k: Keyword) {
    k.WHERE? || k.ORDER? || k.NULLS? || k.LIMIT? || k.UNION? || k.RIGHT? || k.OUTER? ||
    k.USING?
  }

  lemma {:induction false} ShortWordFound(k: Keyword)
    requires ShortWord(k)
    ensures KeywordOf(KwText(k)) == Some(k)
  {
  }

  lemma {:induction false} ShortWordCapitals(k: Keyword)
    requires ShortWord(k)
    ensures Capitals(KwText(k))
  {
  }

  lemma {:induction false} EarlyFourWordFound(k: Keyword)
    requires EarlyFourWord(k)
    ensures KeywordOf(KwText(k)) == Some(k)
  {
  }

  lemma {:induction false} EarlyFourWordCapitals(k: Keyword)
    requires EarlyFourWord(k)
    ensures Capitals(KwText(k))
  {
  }

  lemma {:induction false} LateFourWordFound(k: Keyword)
    requires LateFourWord(k)
    ensures KeywordOf(KwText(k)) == Some(k)
  {
  }

  lemma {:induction false} LateFourWordCapitals(k: Keyword)
    requires LateFourWord(k)
    ensures Capitals(KwText(k))
  {
  }

  lemma {:induction false} EarlyFiveWordFound(k: Keyword)
    requires EarlyFiveWord(k)
    ensures KeywordOf(KwText(k)) == Some(k)
  {
  }

  lemma {:induction false} EarlyFiveWordCapitals(k: Keyword)
    requires EarlyFiveWord(k)
    ensures Capitals(KwText(k))
  {
  }

  lemma {:induction false} LateFiveWordFound(k: Keyword)
    requires LateFiveWord(k)
    ensures KeywordOf(KwText(k)) == Some(k)
  {
  }

  lemma {:induction false} LateFiveWordCapitals(k: Keyword)
    requires LateFiveWord(k)
    ensures Capitals(KwText(k))
  {
  }

  lemma {:induction false} LongWordFound(k: Keyword)
    requires !ShortWord(k) && !EarlyFourWord(k) && !LateFourWord(k) && !EarlyFiveWord(k) && !LateFiveWord(k)
    ensures KeywordOf(KwText(k)) == Some(k) && Capitals(KwText(k))
  {
  }

  lemma {:induction false} KeywordFound(k: Keyword)
    ensures KeywordOf(KwText(k)) == Some(k) && Capitals(KwText(k))
  {
    if ShortWord(k) { ShortWordFound(k); ShortWordCapitals(k); }
    else if EarlyFourWord(k) { EarlyFourWordFound(k); EarlyFourWordCapitals(k); }
    else if LateFourWord(k) { LateFourWordFound(k); LateFourWordCapitals(k); }
    else if EarlyFiveWord(k) { EarlyFiveWordFound(k); EarlyFiveWordCapitals(k); }
    else if LateFiveWord(k) { LateFiveWordFound(k); LateFiveWordCapitals(k); }
    else { LongWordFound(k); }
  }

  /** Keywords are read back from their text, which is made of capital letters. */
  lemma {:induction false} KeywordText(k: Keyword)
    ensures KeywordOf(KwText(k)) == Some(k)
    ensures Capitals(KwText(k)) && IsLetter(KwText(k)[0]) && AllIn(KwText(k), WordChars)
  {
    KeywordFound(k);
    CapitalsAreWords(KwText(k));
  }

  lemma {:induction false} CapitalsAreWords(s: string)
    requires Capitals(s)
    ensures IsLetter(s[0]) && AllIn(s, WordChars) && Upper(s) == s
  {
  }

  lemma {:induction false} ClassifyKeyword(k: Keyword)
    ensures Classify(KwText(k)) == Kw(k)
  {
    KeywordText(k);
    CapitalsAreWords(KwText(k));
  }

  /** What may follow a token so that it ends where its spelling ends. */
  predicate Ends(tok: Token, k: string) {
    k == "" ||
    match tok
    case Word(_) | Kw(_) => !In(k[0], WordChars)
    case Num(_) => !In(k[0], NumberChars)
    case Param(_) => !IsDigit(k[0])
    case Op(_) => !IsOperatorChar(k[0])
    case Str(_) => k[0] != '\''
    case Quoted(_) => k[0] != '"'
    case _ => true
  }

  /** Spelling a token and reading it back, in front of any text that does not run on. */
  lemma {:induction false} LexSpell(tok: Token, k: string)
    requires Spellable(tok) && Ends(tok, k)
    ensures Lex(Spell(tok) + k) == Cons(tok, Lex(k))
  {
    match tok
    case Word(s) => LexRun(s, k, WordChars);
    case Kw(kw) => KeywordText(kw); ClassifyKeyword(kw); LexRun(KwText(kw), k, WordChars);
    case Num(s) => LexRun(s, k, NumberChars);
    case Param(s) => LexParam(s, k);
    case Op(s) => LexRun(s, k, OperatorChars);
    case Str(v) => LexQuoted('\'', v, k);
    case Quoted(v) => LexQuoted('"', v, k);
    case LParen => LexPunctuation('(', k);
    case RParen => LexPunctuation(')', k);
    case LBracket => LexPunctuation('[', k);
    case RBracket => LexPunctuation(']', k);
    case Comma => LexPunctuation(',', k);
    case Period => LexPunctuation('.', k);
  }
}
