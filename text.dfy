/** String tests and decimal rendering as the dashboard's Python and
    JavaScript code use them. Strings are sequences of characters; no
    encoding or normalisation is involved. */
module Text {
  import opened Seqs

  /** Python's `s.startswith(prefix)`. */
  predicate StartsWith(s: string, prefix: string) {
    |prefix| <= |s| && s[..|prefix|] == prefix
  }

  /** Python's substring test `part in s`. */
  predicate Contains(s: string, part: string)
    decreases |s|
  {
    StartsWith(s, part) || (|s| > 0 && Contains(s[1..], part))
  }

  /** `Contains` holds exactly when `part` occurs at some position of `s`. */
  lemma {:induction false} ContainsIffOccurs(s: string, part: string)
    ensures Contains(s, part) <==> exists i :: 0 <= i <= |s| && StartsWith(s[i..], part)
  {
    if Contains(s, part) {
      if StartsWith(s, part) {
        assert s[0..] == s;
      } else {
        ContainsIffOccurs(s[1..], part);
        var i :| 0 <= i <= |s| - 1 && StartsWith(s[1..][i..], part);
        assert s[1..][i..] == s[i + 1..];
      }
    } else {
      forall i | 0 <= i <= |s| ensures !StartsWith(s[i..], part) {
        NotContainsAt(s, part, i);
      }
    }
  }

  /** A string contains each of its infixes. */
  lemma ContainsInfix(a: string, b: string, c: string)
    ensures Contains(a + b + c, b)
  {
    var s := a + b + c;
    assert s[|a|..][..|b|] == b;
    ContainsIffOccurs(s, b);
  }

  /** A string contains each infix of each of its infixes. */
  lemma ContainsNestedInfix(x: string, a: string, b: string, c: string, y: string)
    ensures Contains(x + (a + b + c) + y, b)
  {
    assert x + (a + b + c) + y == (x + a) + b + (c + y);
    ContainsInfix(x + a, b, c + y);
  }

  lemma {:induction false} NotContainsAt(s: string, part: string, i: nat)
    requires !Contains(s, part) && i <= |s|
    ensures !StartsWith(s[i..], part)
  {
    if i > 0 {
      assert s[1..][i - 1..] == s[i..];
      NotContainsAt(s[1..], part, i - 1);
    }
  }

  predicate IsDigit(c: char) {
    '0' as int <= c as int <= '9' as int
  }

  function DigitValue(c: char): nat
    requires IsDigit(c)
  {
    c as int - '0' as int
  }

  function DigitChar(d: nat): (c: char)
    requires d < 10
    ensures IsDigit(c) && c as int - '0' as int == d
  {
    ('0' as int + d) as char
  }

  /** Python's `str(n)` (and an f-string field) for a non-negative int:
      decimal digits without leading zeros. */
  function DecimalString(n: nat): (s: string)
    ensures |s| > 0 && forall c :: c in s ==> IsDigit(c)
    ensures s[0] == '0' ==> n == 0
    decreases n
  {
    if n < 10 then [DigitChar(n)] else DecimalString(n / 10) + [DigitChar(n % 10)]
  }

  /** The value of a string of decimal digits. */
  function ParseDecimal(s: string): nat
    requires forall c :: c in s ==> IsDigit(c)
  {
    if s == [] then 0
    else
      var last := s[|s| - 1];
      assert last in s;
      ParseDecimal(s[..|s| - 1]) * 10 + DigitValue(last)
  }

  /** Rendering a number in decimal loses nothing. */
  lemma {:induction false} DecimalRoundTrip(n: nat)
    ensures ParseDecimal(DecimalString(n)) == n
    decreases n
  {
    var s := DecimalString(n);
    if n >= 10 {
      DecimalRoundTrip(n / 10);
      assert s[..|s| - 1] == DecimalString(n / 10);
    }
  }

  /** The position of the first `c` in `s`, or `|s|` when there is none. */
  function FirstIndexOf(s: string, c: char): (i: nat)
    ensures i <= |s| && c !in s[..i] && (i < |s| ==> s[i] == c)
  {
    if s == [] || s[0] == c then 0
    else
      var i := FirstIndexOf(s[1..], c);
      assert s[..i + 1] == [s[0]] + s[1..][..i];
      1 + i
  }

  /** In a string without `c` followed by one that starts with `c`, the
      first `c` is where the second string starts. */
  lemma {:induction false} FirstIndexOfConcat(a: string, b: string, c: char)
    requires c !in a && |b| > 0 && b[0] == c
    ensures FirstIndexOf(a + b, c) == |a|
  {
    if a != [] {
      assert (a + b)[1..] == a[1..] + b;
      FirstIndexOfConcat(a[1..], b, c);
    }
  }

  /** Cutting a string without `c` followed by one that starts with `c` at
      the first `c` gives back the two strings. */
  lemma SplitAtFirstOf(a: string, b: string, c: char)
    requires c !in a && |b| > 0 && b[0] == c
    ensures var i := FirstIndexOf(a + b, c); (a + b)[..i] == a && (a + b)[i..] == b
  {
    FirstIndexOfConcat(a, b, c);
  }

  /** A prefix can be recognised and dropped again. */
  lemma DropPrefix(prefix: string, s: string)
    ensures StartsWith(prefix + s, prefix) && (prefix + s)[|prefix|..] == s
  {
  }
}
