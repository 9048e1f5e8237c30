/**
 * The Python string built-ins the exporter relies on, over `string` (= seq<char>):
 * `strip`, `lower`, `startswith`, `in`, `split`, `replace`, `isdigit`, and the
 * `int()`/`float()` conversions restricted to plain decimal literals.
 */
module Text {
  import opened Wrappers

  /** The characters `str.strip()` removes (the ASCII and Latin-1 ones). */
  const Whitespace: set<char> :=
    {' ', '\t', '\n', '\r', '\U{0B}', '\U{0C}', '\U{1C}', '\U{1D}', '\U{1E}', '\U{1F}', '\U{85}', '\U{A0}'}

  function TrimStart(s: string): (r: string)
    ensures |r| <= |s| && r == s[|s| - |r|..]
    ensures r == [] || r[0] !in Whitespace
    ensures forall i :: 0 <= i < |s| - |r| ==> s[i] in Whitespace
  {
    if s != [] && s[0] in Whitespace then TrimStart(s[1..]) else s
  }

  function TrimEnd(s: string): (r: string)
    ensures |r| <= |s| && r == s[..|r|]
    ensures r == [] || r[|r| - 1] !in Whitespace
    ensures forall i :: |r| <= i < |s| ==> s[i] in Whitespace
  {
    if s != [] && s[|s| - 1] in Whitespace then TrimEnd(s[..|s| - 1]) else s
  }

  /** Python `s.strip()`: the longest slice with no whitespace at either end. */
  function Strip(s: string): (r: string)
    ensures |r| <= |s|
    ensures r == [] || (r[0] !in Whitespace && r[|r| - 1] !in Whitespace)
    ensures r == [] <==> forall i :: 0 <= i < |s| ==> s[i] in Whitespace
  {
    TrimEnd(TrimStart(s))
  }

  /** `strip()` removes whitespace and nothing else: the result is a slice with only whitespace around it. */
  lemma StripSlice(s: string) returns (i: nat)
    ensures i + |Strip(s)| <= |s| && Strip(s) == s[i..i + |Strip(s)|]
    ensures forall k :: 0 <= k < i ==> s[k] in Whitespace
    ensures forall k :: i + |Strip(s)| <= k < |s| ==> s[k] in Whitespace
  {
    var t := TrimStart(s);
    i := |s| - |t|;
    SuffixPrefix(s, t, TrimEnd(t), i);
  }

  /** A prefix `r` of the suffix `t == s[i..]` is the slice `s[i..i + |r|]`, followed by the rest of `t`. */
  lemma SuffixPrefix(s: string, t: string, r: string, i: int)
    requires 0 <= i <= |s| && t == s[i..] && |r| <= |t| && r == t[..|r|]
    requires forall k :: |r| <= k < |t| ==> t[k] in Whitespace
    ensures i + |r| <= |s| && r == s[i..i + |r|]
    ensures forall k :: i + |r| <= k < |s| ==> s[k] in Whitespace
  {
    forall k | i + |r| <= k < |s|
      ensures s[k] in Whitespace
    {
      assert s[k] == t[k - i];
    }
  }

  function LowerChar(c: char): char {
    if 'A' <= c <= 'Z' then (c as int - 'A' as int + 'a' as int) as char else c
  }

  /** A non-empty text with no whitespace at either end: what `strip()` leaves of a non-blank text. */
  predicate Trimmed(s: string) {
    s != [] && s[0] !in Whitespace && s[|s| - 1] !in Whitespace
  }

  /** Python `s.lower()` on ASCII letters (other scripts are left unchanged). */
  function Lower(s: string): (r: string)
    ensures |r| == |s|
    ensures forall i :: 0 <= i < |s| ==> r[i] == LowerChar(s[i])
  {
    seq(|s|, i requires 0 <= i < |s| => LowerChar(s[i]))
  }

  lemma LowerIdempotent(s: string)
    ensures Lower(Lower(s)) == Lower(s)
  {
  }

  predicate StartsWith(s: string, prefix: string) {
    |prefix| <= |s| && s[..|prefix|] == prefix
  }

  /** Python `sub in s`. */
  predicate Contains(s: string, sub: string) {
    StartsWith(s, sub) || (s != [] && Contains(s[1..], sub))
  }

  /** Joins `parts` with `sep` between consecutive parts: the inverse of Split. */
  function Join(parts: seq<string>, sep: char): string
    requires |parts| >= 1
  {
    if |parts| == 1 then parts[0] else parts[0] + [sep] + Join(parts[1..], sep)
  }

  /** Python `s.split(sep)` for a one-character separator. */
  function Split(s: string, sep: char): (parts: seq<string>)
    ensures |parts| >= 1
    ensures forall p :: p in parts ==> sep !in p
    ensures Join(parts, sep) == s
    ensures |parts| == Count(s, sep) + 1
  {
    if s == [] then [[]]
    else if s[0] == sep then [[]] + Split(s[1..], sep)
    else
      var rest := Split(s[1..], sep);
      [[s[0]] + rest[0]] + rest[1..]
  }

  lemma {:induction false} SplitOnce(a: string, b: string, sep: char)
    requires sep !in a && sep !in b
    ensures Split(a + [sep] + b, sep) == [a, b]
  {
    if a == [] {
      assert ([sep] + b)[1..] == b;
      SplitAbsent(b, sep);
    } else {
      assert (a + [sep] + b)[1..] == a[1..] + [sep] + b;
      SplitOnce(a[1..], b, sep);
      assert [a[0]] + a[1..] == a;
    }
  }

  lemma {:induction false} SplitAbsent(s: string, sep: char)
    requires sep !in s
    ensures Split(s, sep) == [s]
  {
    if s != [] {
      SplitAbsent(s[1..], sep);
      assert [s[0]] + s[1..] == s;
    }
  }

  /** Number of occurrences of `c` in `s`. */
  function Count(s: string, c: char): nat {
    if s == [] then 0 else (if s[0] == c then 1 else 0) + Count(s[1..], c)
  }

  lemma {:induction false} CountZero(s: string, c: char)
    ensures Count(s, c) == 0 <==> c !in s
  {
    if s != [] {
      CountZero(s[1..], c);
      assert s == [s[0]] + s[1..];
    }
  }

  /** Python `re.sub('[...]', by, s)` for a character class: every character in `chars` becomes `sub`. */
  function ReplaceChars(s: string, chars: set<char>, sub: char): (r: string)
    ensures |r| == |s|
    ensures forall i :: 0 <= i < |s| ==> r[i] == if s[i] in chars then sub else s[i]
  {
    seq(|s|, i requires 0 <= i < |s| => if s[i] in chars then sub else s[i])
  }

  /** Python `s.replace(pat, '')`: one left-to-right pass removing non-overlapping occurrences. */
  function RemoveAll(s: string, pat: string): (r: string)
    requires pat != []
    ensures |r| <= |s|
    decreases |s|
  {
    if s == [] then []
    else if StartsWith(s, pat) then RemoveAll(s[|pat|..], pat)
    else [s[0]] + RemoveAll(s[1..], pat)
  }

  lemma {:induction false} NotContainsChar(s: string, c: char)
    requires c !in s
    ensures !Contains(s, [c])
  {
    if s != [] {
      assert s[0] != c && s[..1] == [s[0]];
      assert !StartsWith(s, [c]);
      assert c !in s[1..] by {
        forall i | 0 <= i < |s[1..]|
          ensures s[1..][i] != c
        {
          assert s[1..][i] == s[i + 1];
        }
      }
      NotContainsChar(s[1..], c);
    }
  }

  lemma {:induction false} RemoveAllAbsent(s: string, pat: string)
    requires pat != [] && !Contains(s, pat)
    ensures RemoveAll(s, pat) == s
    decreases |s|
  {
    if s != [] {
      RemoveAllAbsent(s[1..], pat);
    }
  }

  predicate IsDigit(c: char) { '0' <= c <= '9' }

  /** Python `s.isdigit()` on ASCII digits. */
  predicate IsDigits(s: string) {
    s != [] && forall i :: 0 <= i < |s| ==> IsDigit(s[i])
  }

  /** The value of a string of decimal digits. */
  function DigitsValue(s: string): (n: nat)
    requires forall i :: 0 <= i < |s| ==> IsDigit(s[i])
  {
    if s == [] then 0
    else
      assert IsDigit(s[|s| - 1]);
      10 * DigitsValue(s[..|s| - 1]) + (s[|s| - 1] as int - '0' as int)
  }

  function NatToString(n: nat): (s: string)
    ensures IsDigits(s)
  {
    if n < 10 then [('0' as int + n) as char]
    else NatToString(n / 10) + [('0' as int + n % 10) as char]
  }

  function IntToString(i: int): string {
    if i < 0 then "-" + NatToString(-i) else NatToString(i)
  }

  lemma {:induction false} DigitsRoundTrip(n: nat)
    ensures DigitsValue(NatToString(n)) == n
  {
    if n >= 10 {
      var s := NatToString(n);
      assert s[..|s| - 1] == NatToString(n / 10);
      DigitsRoundTrip(n / 10);
    }
  }

  /** An optionally signed, non-empty run of ASCII decimal digits. */
  predicate IsIntLiteral(t: string) {
    IsDigits(t) || (t != [] && (t[0] == '-' || t[0] == '+') && IsDigits(t[1..]))
  }

  /** The value of such a literal: the digits' value, negated after a minus sign. */
  function LiteralValue(t: string): int
    requires IsIntLiteral(t)
  {
    if IsDigits(t) then DigitsValue(t)
    else if t[0] == '-' then -(DigitsValue(t[1..]) as int)
    else DigitsValue(t[1..])
  }

  /**
   * Python `int(s)` for an optionally signed decimal literal with whitespace around it
   * (underscores and non-ASCII digits are not modelled). A minus sign gives the negated
   * value of the digits, a plus sign or none gives the value itself.
   */
  function ParseInt(s: string): (r: Option<int>)
    ensures r.Some? <==> IsIntLiteral(Strip(s))
    ensures r.Some? ==> r.value == LiteralValue(Strip(s))
  {
    var t := Strip(s);
    if t == [] then None
    else if (t[0] == '-' || t[0] == '+') && IsDigits(t[1..]) then
      var v: int := DigitsValue(t[1..]);
      Some(if t[0] == '-' then -v else v)
    else if IsDigits(t) then Some(DigitsValue(t))
    else None
  }

  lemma StripUnpadded(s: string)
    requires Trimmed(s)
    ensures Strip(s) == s
  {
    assert TrimStart(s) == s;
    assert TrimEnd(s) == s;
  }

  lemma ParseIntRoundTrip(i: int)
    ensures ParseInt(IntToString(i)) == Some(i)
  {
    var s := IntToString(i);
    var digits := NatToString(if i < 0 then -i else i);
    assert IsDigit(digits[0]) && IsDigit(digits[|digits| - 1]);
    assert s[|s| - 1] == digits[|digits| - 1];
    StripUnpadded(s);
    if i < 0 {
      assert s[1..] == NatToString(-i);
      DigitsRoundTrip(-i);
    } else {
      DigitsRoundTrip(i);
    }
  }

  function Pow10(k: nat): (p: nat)
    ensures p >= 1
  {
    if k == 0 then 1 else 10 * Pow10(k - 1)
  }

  /** The value of a literal with `whole` before the point and `frac` written in `digits` digits after it. */
  function DecimalValue(whole: nat, frac: nat, digits: nat): real {
    whole as real + frac as real / Pow10(digits) as real
  }

  /** An unsigned decimal literal `digits[.digits]` or `.digits`, at least one digit in all. */
  function ParseUnsignedDecimal(t: string): Option<real> {
    if '.' !in t then
      if IsDigits(t) then Some(DigitsValue(t) as real) else None
    else
      var parts := Split(t, '.');
      if |parts| != 2 then None
      else
        var whole, frac := parts[0], parts[1];
        if (whole == [] || IsDigits(whole)) && (frac == [] || IsDigits(frac)) && (whole != [] || frac != []) then
          Some(DecimalValue(if whole == [] then 0 else DigitsValue(whole),
                            if frac == [] then 0 else DigitsValue(frac), |frac|))
        else None
  }

  /**
   * Python `float(s)` for an optionally signed decimal literal; exponents, `inf`, `nan` and
   * underscores are not modelled. The value is the exact rational the literal denotes.
   */
  function ParseDecimal(s: string): (r: Option<real>)
    ensures r.Some? ==> Strip(s) != []
  {
    var t := Strip(s);
    if t == [] then None
    else if t[0] == '-' || t[0] == '+' then
      match ParseUnsignedDecimal(t[1..])
      case Some(x) => Some(if t[0] == '-' then -x else x)
      case None => None
    else ParseUnsignedDecimal(t)
  }

  /** Python `int(x)` on a float: truncation toward zero. */
  function Truncate(x: real): (n: int)
    ensures x >= 0.0 ==> n as real <= x < n as real + 1.0
    ensures x < 0.0 ==> n as real - 1.0 < x <= n as real
  {
    if x >= 0.0 then x.Floor else -((-x).Floor)
  }

  lemma TruncateWhole(n: int)
    ensures Truncate(n as real) == n
  {
  }

  lemma TruncateNear(x: real)
    ensures Truncate(x) as real - 1.0 < x < Truncate(x) as real + 1.0
  {
  }
}
