/** The parts of the C library that read and write text: `%i`, `atoi` and `strtok_r`. */
module Text {
  import opened Common

  function Digit(d: nat): char
    requires d < 10
  {
    ('0' as int + d) as char
  }

  predicate IsDigit(ch: char) { '0' <= ch <= '9' }

  function DigitValue(ch: char): nat
    requires IsDigit(ch)
  {
    ch as int - '0' as int
  }

  /** `%i` of a non-negative number. */
  function Dec(n: nat): (s: string)
    ensures s != [] && forall i :: 0 <= i < |s| ==> IsDigit(s[i])
  {
    if n < 10 then [Digit(n)] else Dec(n / 10) + [Digit(n % 10)]
  }

  /** The ten digits. */
  lemma DecimalDigits(d: nat)
    requires d < 10
    ensures Dec(d) == ["0123456789"[d]]
  {
  }

  /** The number of leading digits. */
  function DigitSpan(s: string): (n: nat)
    ensures n <= |s|
  {
    if s == [] || !IsDigit(s[0]) then 0 else 1 + DigitSpan(s[1..])
  }

  function DigitsValue(s: string): nat
    requires forall i :: 0 <= i < |s| ==> IsDigit(s[i])
  {
    if s == [] then 0 else 10 * DigitsValue(s[..|s| - 1]) + DigitValue(s[|s| - 1])
  }

  lemma {:induction false} SpanIsDigits(s: string)
    ensures forall i :: 0 <= i < DigitSpan(s) ==> IsDigit(s[i])
  {
    if s != [] && IsDigit(s[0]) {
      SpanIsDigits(s[1..]);
      assert forall i :: 0 < i < DigitSpan(s) ==> s[i] == s[1..][i - 1];
    }
  }

  /** The digits that `atoi` reads. */
  function Leading(s: string): (r: string)
    ensures forall i :: 0 <= i < |r| ==> IsDigit(r[i])
  {
    SpanIsDigits(s);
    s[..DigitSpan(s)]
  }

  /** `atoi` of a string without leading white space. */
  function Atoi(s: string): int {
    if s != [] && s[0] == '-' then -(DigitsValue(Leading(s[1..])) as int)
    else if s != [] && s[0] == '+' then DigitsValue(Leading(s[1..]))
    else DigitsValue(Leading(s))
  }

  lemma {:induction false} DecValue(n: nat)
    ensures DigitsValue(Dec(n)) == n
  {
    if n >= 10 {
      DecValue(n / 10);
      assert Dec(n)[..|Dec(n)| - 1] == Dec(n / 10);
    } else {
      assert Dec(n)[..0] == [];
    }
  }

  lemma {:induction false} AllDigitsSpan(s: string)
    requires forall i :: 0 <= i < |s| ==> IsDigit(s[i])
    ensures DigitSpan(s) == |s|
  {
    if s != [] {
      AllDigitsSpan(s[1..]);
    }
  }

  /** `atoi` reads back what `%i` wrote. */
  lemma AtoiOfDec(n: nat)
    ensures Atoi(Dec(n)) == n
  {
    AllDigitsSpan(Dec(n));
    assert Leading(Dec(n)) == Dec(n);
    DecValue(n);
    assert IsDigit(Dec(n)[0]);
  }

  lemma {:induction false} SpanOfDigits(digits: string, rest: string)
    requires forall i :: 0 <= i < |digits| ==> IsDigit(digits[i])
    requires rest == "" || !IsDigit(rest[0])
    ensures DigitSpan(digits + rest) == |digits|
  {
    if digits == "" {
      assert digits + rest == rest;
    } else {
      assert (digits + rest)[1..] == digits[1..] + rest;
      SpanOfDigits(digits[1..], rest);
    }
  }

  /** `atoi` reads an optional sign and the digits behind it, and stops at anything else. */
  lemma AtoiReads(n: nat, rest: string)
    requires rest == "" || !IsDigit(rest[0])
    ensures Atoi(Dec(n) + rest) == n && Atoi("+" + Dec(n) + rest) == n && Atoi("-" + Dec(n) + rest) == -(n as int)
  {
    var text := Dec(n) + rest;
    SpanOfDigits(Dec(n), rest);
    assert Leading(text) == Dec(n);
    DecValue(n);
    assert IsDigit(text[0]) by { assert text[0] == Dec(n)[0]; }
    hide Dec, DigitsValue, Leading;
    assert ("+" + Dec(n) + rest)[1..] == text && ("-" + Dec(n) + rest)[1..] == text;
  }

  // ---------------------------------------------------------------------------------------------
  // strtok_r

  /** The length of the longest prefix without a delimiter (`strcspn`). */
  function Span(s: string, delims: set<char>): (n: nat)
    ensures n <= |s|
    ensures forall i :: 0 <= i < n ==> s[i] !in delims
    ensures n < |s| ==> s[n] in delims
  {
    if s == [] || s[0] in delims then 0 else 1 + Span(s[1..], delims)
  }

  /** `strspn` skipped. */
  function Skip(s: string, delims: set<char>): (r: string)
    ensures |r| <= |s| && (r != [] ==> r[0] !in delims)
  {
    if s == [] || s[0] !in delims then s else Skip(s[1..], delims)
  }

  datatype Token = NoToken | Token(text: string, rest: string)

  /** One call of `strtok_r`: the next token, and where the next call starts. */
  function NextToken(s: string, delims: set<char>): (t: Token)
    ensures t.Token? ==> t.text != [] && |t.rest| < |s| && forall i :: 0 <= i < |t.text| ==> t.text[i] !in delims
  {
    var s := Skip(s, delims);
    if s == [] then NoToken
    else
      var n := Span(s, delims);
      Token(s[..n], if n < |s| then s[n + 1..] else [])
  }

  /** A non-empty text without delimiters. */
  predicate Plain(s: string, delims: set<char>) {
    s != [] && forall i :: 0 <= i < |s| ==> s[i] !in delims
  }

  lemma {:induction false} SpanOf(t: string, d: string, delims: set<char>)
    requires forall i :: 0 <= i < |t| ==> t[i] !in delims
    requires d == [] || d[0] in delims
    ensures Span(t + d, delims) == |t|
  {
    if t == [] {
      assert t + d == d;
    } else {
      assert (t + d)[1..] == t[1..] + d;
      SpanOf(t[1..], d, delims);
    }
  }

  /** A plain text before a delimiter, or before the end, is the next token. */
  lemma TokenOf(t: string, d: string, delims: set<char>)
    requires Plain(t, delims) && (d == [] || d[0] in delims)
    ensures NextToken(t + d, delims) == Token(t, if d == [] then [] else d[1..])
  {
    SpanOf(t, d, delims);
    assert (t + d)[0] == t[0];
    assert (t + d)[..|t|] == t;
    if d != [] { assert (t + d)[|t| + 1..] == d[1..]; }
  }

  /** Delimiters in front of a token do not matter, however many. */
  lemma DelimiterFirst(d: char, s: string, delims: set<char>)
    requires d in delims
    ensures NextToken([d] + s, delims) == NextToken(s, delims)
  {
    assert ([d] + s)[1..] == s;
  }

  // ---------------------------------------------------------------------------------------------
  // C strings

  /** The characters before the first NUL. */
  function CString(s: seq<char>): (r: string)
    ensures |r| <= |s|
  {
    if s == [] || s[0] == '\0' then [] else [s[0]] + CString(s[1..])
  }

  lemma {:induction false} CStringOf(t: string, d: seq<char>)
    requires '\0' !in t
    ensures CString(t + ['\0'] + d) == t
  {
    var s := t + ['\0'] + d;
    if t != [] {
      assert s[1..] == t[1..] + ['\0'] + d;
      CStringOf(t[1..], d);
    }
  }
}
