/**
 * Text helpers the views rely on: the decimal rendering JavaScript uses when a
 * number is interpolated into a template literal or a JSX child, the inverse
 * parse used to state round trips, and `charAt(0).toUpperCase() + slice(1)`.
 */
module Text {

  predicate IsDigit(c: char) {
    '0' <= c <= '9'
  }

  predicate AllDigits(s: string) {
    forall i :: 0 <= i < |s| ==> IsDigit(s[i])
  }

  function DigitValue(c: char): (d: nat)
    requires IsDigit(c)
    ensures d < 10
  {
    c as int - '0' as int
  }

  function DigitChar(d: nat): (c: char)
    requires d < 10
    ensures IsDigit(c) && DigitValue(c) == d
  {
    ('0' as int + d) as char
  }

  /** Decimal text of a non-negative integer, without leading zeros. */
  function NatToString(n: nat): (s: string)
    ensures |s| >= 1 && AllDigits(s)
    ensures (s[0] == '0') == (n == 0)
    ensures (|s| == 1) == (n < 10)
    decreases n
  {
    if n < 10 then [DigitChar(n)] else NatToString(n / 10) + [DigitChar(n % 10)]
  }

  /** Value of a string of decimal digits (most significant first). */
  function ParseDecimal(s: string): nat
    requires AllDigits(s)
  {
    if s == [] then 0 else ParseDecimal(s[..|s| - 1]) * 10 + DigitValue(s[|s| - 1])
  }

  lemma {:induction false} ParseNatToString(n: nat)
    ensures ParseDecimal(NatToString(n)) == n
    decreases n
  {
    if n >= 10 {
      ParseNatToString(n / 10);
    }
  }

  /** Number of leading decimal digits of `s`. */
  function DigitPrefixLen(s: string): (k: nat)
    ensures k <= |s| && AllDigits(s[..k])
    ensures k < |s| ==> !IsDigit(s[k])
  {
    if s == [] || !IsDigit(s[0]) then 0
    else
      var k := 1 + DigitPrefixLen(s[1..]);
      assert s[..k] == [s[0]] + s[1..][..k - 1];
      k
  }

  /** The digit prefix of `d + u` is exactly `d` when `u` does not start with a digit. */
  lemma {:induction false} DigitPrefixOfConcat(d: string, u: string)
    requires AllDigits(d)
    requires u != [] && !IsDigit(u[0])
    ensures DigitPrefixLen(d + u) == |d|
    ensures (d + u)[..|d|] == d && (d + u)[|d|..] == u
  {
    if d == [] {
      assert d + u == u;
    } else {
      assert (d + u)[0] == d[0];
      assert (d + u)[1..] == d[1..] + u;
      DigitPrefixOfConcat(d[1..], u);
    }
  }

  /** `String.prototype.toUpperCase` restricted to a single ASCII character. */
  function ToUpper(c: char): char {
    if 'a' <= c <= 'z' then (c as int - 32) as char else c
  }

  /** `s.charAt(0).toUpperCase() + s.slice(1)`; `charAt(0)` of the empty string is empty. */
  function Capitalize(s: string): (r: string)
    ensures |r| == |s|
    ensures s != [] ==> r[0] == ToUpper(s[0]) && r[1..] == s[1..]
  {
    if s == [] then [] else [ToUpper(s[0])] + s[1..]
  }
}
