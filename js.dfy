/** The pieces of JavaScript string and number behaviour that the server's decisions
    depend on: truthiness of optional strings, `String.prototype.trim`,
    `String.prototype.toUpperCase` (on ASCII letters), `substring(0, n)` and the decimal
    text of a status code. */
module Js {
  import opened Results

  /** A JavaScript number as `parseFloat` can produce it. */
  datatype Number = NaN | Finite(value: real) | Infinity | NegativeInfinity

  /** `isNaN(x)` */
  predicate IsNaN(x: Number) {
    x.NaN?
  }

  /** `x <= 0`, which is false for NaN */
  predicate AtMostZero(x: Number) {
    x.NegativeInfinity? || (x.Finite? && x.value <= 0.0)
  }

  /** An optional string is truthy when it is present and not empty. */
  predicate Truthy(o: Option<string>) {
    o.Some? && o.value != ""
  }

  /** `o || fallback` */
  function Or(o: Option<string>, fallback: string): string {
    if Truthy(o) then o.value else fallback
  }

  /** The characters `trim` removes: the WhiteSpace and LineTerminator productions of
      section 12.2 and 12.3 of ECMA-262. */
  predicate IsWhitespace(c: char) {
    || c == '\t' || c == '\n' || c == '\U{000B}' || c == '\U{000C}' || c == '\r'
    || c == ' ' || c == '\U{00A0}' || c == '\U{1680}'
    || ('\U{2000}' <= c <= '\U{200A}')
    || c == '\U{2028}' || c == '\U{2029}' || c == '\U{202F}' || c == '\U{205F}'
    || c == '\U{3000}' || c == '\U{FEFF}'
  }

  predicate AllWhitespace(s: string) {
    forall i :: 0 <= i < |s| ==> IsWhitespace(s[i])
  }

  /** Drops the leading white space. */
  function TrimStart(s: string): (r: string)
    ensures |r| <= |s|
  {
    if s != [] && IsWhitespace(s[0]) then TrimStart(s[1..]) else s
  }

  /** Drops the trailing white space. */
  function TrimEnd(s: string): (r: string)
    ensures |r| <= |s|
  {
    if s != [] && IsWhitespace(s[|s| - 1]) then TrimEnd(s[..|s| - 1]) else s
  }

  /** What `TrimStart` keeps is the suffix of `s` that starts at its first character
      that is not white space. */
  lemma {:induction false} TrimStartKeepsSuffix(s: string)
    ensures var r := TrimStart(s);
      && r == s[|s| - |r|..]
      && AllWhitespace(s[..|s| - |r|])
      && (r == [] || !IsWhitespace(r[0]))
  {
    if s != [] && IsWhitespace(s[0]) {
      TrimStartKeepsSuffix(s[1..]);
      var r := TrimStart(s);
      assert s[1..][|s| - 1 - |r|..] == s[|s| - |r|..];
      forall i | 0 <= i < |s| - |r| ensures IsWhitespace(s[i]) {
        if i > 0 {
          assert s[i] == s[1..][..|s| - 1 - |r|][i - 1];
        }
      }
    }
  }

  /** What `TrimEnd` keeps is the prefix of `s` that ends at its last character that is
      not white space. */
  lemma {:induction false} TrimEndKeepsPrefix(s: string)
    ensures var r := TrimEnd(s);
      && r == s[..|r|]
      && AllWhitespace(s[|r|..])
      && (r == [] || !IsWhitespace(r[|r| - 1]))
  {
    if s != [] && IsWhitespace(s[|s| - 1]) {
      var t := s[..|s| - 1];
      TrimEndKeepsPrefix(t);
      var r := TrimEnd(s);
      assert t[..|r|] == s[..|r|];
      forall i | |r| <= i < |s| ensures IsWhitespace(s[i]) {
        if i < |s| - 1 {
          assert s[i] == t[|r|..][i - |r|];
        }
      }
    }
  }

  /** `s` is `r` with white space around it. */
  ghost predicate Surrounds(s: string, lo: int, r: string) {
    && 0 <= lo <= |s| - |r|
    && r == s[lo..lo + |r|]
    && AllWhitespace(s[..lo])
    && AllWhitespace(s[lo + |r|..])
  }

  /** `s.trim()` */
  function Trim(s: string): string {
    TrimEnd(TrimStart(s))
  }

  /** The trimmed string is the part of `s` between its leading and trailing white
      space. */
  lemma TrimSurrounds(s: string)
    ensures Surrounds(s, |s| - |TrimStart(s)|, Trim(s))
  {
    var a := TrimStart(s);
    TrimStartKeepsSuffix(s);
    TrimEndKeepsPrefix(a);
    SuffixPrefixSurrounds(s, a, TrimEnd(a));
  }

  /** White space, then `r`, then white space again make up `s` when `a` is a suffix of
      `s` after white space and `r` is a prefix of `a` before white space. */
  lemma SuffixPrefixSurrounds(s: string, a: string, r: string)
    requires |a| <= |s| && a == s[|s| - |a|..] && AllWhitespace(s[..|s| - |a|])
    requires |r| <= |a| && r == a[..|r|] && AllWhitespace(a[|r|..])
    ensures Surrounds(s, |s| - |a|, r)
  {
    InfixOfSuffix(s, |s| - |a|, a, r);
  }

  /** The trimmed string neither starts nor ends with white space. */
  lemma TrimmedEnds(s: string)
    ensures var r := Trim(s); r == [] || (!IsWhitespace(r[0]) && !IsWhitespace(r[|r| - 1]))
  {
    var a := TrimStart(s);
    var r := TrimEnd(a);
    TrimStartKeepsSuffix(s);
    TrimEndKeepsPrefix(a);
    assert r == [] || r[0] == a[0];
  }

  /** A prefix `r` of the suffix `a` of `s` that starts at `lo` is the infix of `s`
      at `lo`, and what follows it in `a` is what follows it in `s`. */
  lemma InfixOfSuffix(s: string, lo: int, a: string, r: string)
    requires 0 <= lo <= |s| && a == s[lo..]
    requires |r| <= |a| && r == a[..|r|]
    ensures r == s[lo..lo + |r|] && s[lo + |r|..] == a[|r|..]
  {
  }

  /** Trimming leaves nothing exactly when the string is white space only. */
  lemma TrimEmpty(s: string)
    ensures Trim(s) == [] <==> AllWhitespace(s)
  {
    var a := TrimStart(s);
    var lo := |s| - |a|;
    TrimStartKeepsSuffix(s);
    TrimEndKeepsPrefix(a);
    assert a[0..] == a;
    assert TrimEnd(a) == [] ==> a == [];
    assert a == [] ==> s[..lo] == s;
    assert a != [] ==> a[0] == s[lo];
  }

  /** A string that neither starts nor ends with white space is its own trim. */
  lemma TrimKeepsTrimmed(s: string)
    requires s == [] || (!IsWhitespace(s[0]) && !IsWhitespace(s[|s| - 1]))
    ensures Trim(s) == s
  {
  }

  /** Trimming a trimmed string changes nothing. */
  lemma TrimIsIdempotent(s: string)
    ensures Trim(Trim(s)) == Trim(s)
  {
    TrimmedEnds(s);
    TrimKeepsTrimmed(Trim(s));
  }

  predicate IsLower(c: char) {
    'a' <= c <= 'z'
  }

  function UpperChar(c: char): char {
    if IsLower(c) then (c as int - 32) as char else c
  }

  /** `s.toUpperCase()` on ASCII letters; every other character is kept. */
  function ToUpperCase(s: string): (r: string)
    ensures |r| == |s|
  {
    seq(|s|, i requires 0 <= i < |s| => UpperChar(s[i]))
  }

  /** Two characters are the same letter, up to ASCII case. */
  predicate SameIgnoringCase(c: char, d: char) {
    || c == d
    || (IsLower(c) && d as int == c as int - 32)
    || (IsLower(d) && c as int == d as int - 32)
  }

  /** A reference definition of case-insensitive equality, character by character. */
  predicate EqualsIgnoringCase(a: string, b: string) {
    |a| == |b| && forall i :: 0 <= i < |a| ==> SameIgnoringCase(a[i], b[i])
  }

  /** Comparing `a.toUpperCase()` with a string that holds no lower-case letter is
      case-insensitive equality. */
  lemma {:induction false} UpperCaseComparison(a: string, b: string)
    requires forall i :: 0 <= i < |b| ==> !IsLower(b[i])
    ensures ToUpperCase(a) == b <==> EqualsIgnoringCase(a, b)
  {
    if ToUpperCase(a) == b {
      forall i | 0 <= i < |a| ensures SameIgnoringCase(a[i], b[i]) {
        assert b[i] == UpperChar(a[i]);
      }
    }
    if EqualsIgnoringCase(a, b) {
      forall i | 0 <= i < |a| ensures ToUpperCase(a)[i] == b[i] {
        assert SameIgnoringCase(a[i], b[i]);
      }
    }
  }

  /** `s` holds `part` somewhere. */
  ghost predicate Contains(s: string, part: string) {
    exists k :: OccursAt(s, part, k)
  }

  ghost predicate OccursAt(s: string, part: string, k: int) {
    0 <= k <= |s| - |part| && s[k..k + |part|] == part
  }

  predicate IsDigit(c: char) {
    '0' <= c <= '9'
  }

  predicate AllDigits(s: string) {
    forall i :: 0 <= i < |s| ==> IsDigit(s[i])
  }

  function DigitChar(d: nat): (c: char)
    requires d < 10
    ensures IsDigit(c)
  {
    (48 + d) as char
  }

  function DigitValue(c: char): nat
    requires IsDigit(c)
  {
    c as int - 48
  }

  /** The decimal text JavaScript gives a non-negative integer (`String(n)`):
      digits only, and no leading zero. */
  function Decimal(n: nat): (s: string)
    ensures |s| >= 1 && AllDigits(s)
    ensures s[0] == '0' ==> n == 0
    decreases n
  {
    if n < 10 then [DigitChar(n)] else Decimal(n / 10) + [DigitChar(n % 10)]
  }

  /** Reads a string of digits as a decimal number. */
  function ParseDecimal(s: string): nat
    requires AllDigits(s)
  {
    if s == [] then 0 else 10 * ParseDecimal(s[..|s| - 1]) + DigitValue(s[|s| - 1])
  }

  /** Reading back the decimal text of `n` gives `n`. */
  lemma {:induction false} ParseDecimalOfDecimal(n: nat)
    ensures ParseDecimal(Decimal(n)) == n
    decreases n
  {
    var s := Decimal(n);
    if n >= 10 {
      ParseDecimalOfDecimal(n / 10);
      assert s[..|s| - 1] == Decimal(n / 10);
    }
  }
}
