/** ASCII text operations the pipeline relies on: Go's `strings.ToLower` and
    `strings.ToUpper` restricted to ASCII, and the `%d` rendering of a signed
    integer, together with a reader for that rendering. */
module Ascii {
  import opened Wrappers

  predicate IsUpperChar(c: char) { 'A' <= c <= 'Z' }
  predicate IsLowerChar(c: char) { 'a' <= c <= 'z' }
  predicate IsDigitChar(c: char) { '0' <= c <= '9' }

  /** ASCII lower-casing of one character: letters A-Z become a-z, every
      other character is left as it is. */
  function LowerChar(c: char): (r: char)
    ensures !IsUpperChar(r)
    ensures !IsUpperChar(c) ==> r == c
    ensures IsUpperChar(c) ==> IsLowerChar(r) && r as int - c as int == 32
  {
    if IsUpperChar(c) then (c as int + 32) as char else c
  }

  /** ASCII upper-casing of one character: letters a-z become A-Z, every
      other character is left as it is. */
  function UpperChar(c: char): (r: char)
    ensures !IsLowerChar(r)
    ensures !IsLowerChar(c) ==> r == c
    ensures IsLowerChar(c) ==> IsUpperChar(r) && c as int - r as int == 32
  {
    if IsLowerChar(c) then (c as int - 32) as char else c
  }

  /** `strings.ToLower` on ASCII text. */
  function Lower(s: string): (r: string)
    ensures |r| == |s|
    ensures forall i :: 0 <= i < |s| ==> r[i] == LowerChar(s[i])
  {
    seq(|s|, i requires 0 <= i < |s| => LowerChar(s[i]))
  }

  /** `strings.ToUpper` on ASCII text. */
  function Upper(s: string): (r: string)
    ensures |r| == |s|
    ensures forall i :: 0 <= i < |s| ==> r[i] == UpperChar(s[i])
  {
    seq(|s|, i requires 0 <= i < |s| => UpperChar(s[i]))
  }

  predicate NoUpper(s: string) {
    forall i :: 0 <= i < |s| ==> !IsUpperChar(s[i])
  }

  /** Lower-cased text holds no upper-case letter, and lower-casing it again
      changes nothing. */
  lemma LowerIsLowerAndIdempotent(s: string)
    ensures NoUpper(Lower(s))
    ensures Lower(Lower(s)) == Lower(s)
  {
  }

  /** Lower-casing is determined character by character. */
  lemma LowerByChars(s: string, t: string)
    requires |s| == |t| && forall i :: 0 <= i < |s| ==> LowerChar(s[i]) == t[i]
    ensures Lower(s) == t
  {
  }

  /** Case mapping never creates or removes a '/'. */
  lemma LowerKeepsSlashes(s: string)
    ensures '/' in Lower(s) <==> '/' in s
  {
    if '/' in s {
      var i :| 0 <= i < |s| && s[i] == '/';
      assert Lower(s)[i] == '/';
    }
    if '/' in Lower(s) {
      var i :| 0 <= i < |Lower(s)| && Lower(s)[i] == '/';
      assert s[i] == '/';
    }
  }

  // ----- decimal rendering (fmt's %d verb) -----

  function DigitChar(d: nat): (c: char)
    requires d < 10
    ensures IsDigitChar(c) && DigitValue(c) == d
  {
    ('0' as int + d) as char
  }

  function DigitValue(c: char): (d: nat)
    requires IsDigitChar(c)
    ensures d < 10
  {
    c as int - '0' as int
  }

  predicate AllDigits(s: string) {
    forall i :: 0 <= i < |s| ==> IsDigitChar(s[i])
  }

  /** The decimal digits of `n`, most significant first, without leading
      zeros. */
  function NatToDecimal(n: nat): (s: string)
    ensures |s| >= 1 && AllDigits(s)
    ensures s[0] == '0' ==> n == 0
    decreases n
  {
    if n < 10 then [DigitChar(n)] else NatToDecimal(n / 10) + [DigitChar(n % 10)]
  }

  /** Go's `%d` of a signed integer: an optional '-' and then the digits of
      the absolute value. */
  function IntToDecimal(n: int): (s: string)
    ensures |s| >= 1
    ensures (s[0] == '-') <==> n < 0
    ensures n < 0 ==> |s| >= 2 && AllDigits(s[1..])
    ensures n >= 0 ==> AllDigits(s)
  {
    if n < 0 then "-" + NatToDecimal(-n) else NatToDecimal(n)
  }

  /** The value of a string of decimal digits, read most significant first. */
  function DigitsValue(s: string): nat
    requires AllDigits(s)
  {
    if s == [] then 0 else DigitsValue(s[..|s| - 1]) * 10 + DigitValue(s[|s| - 1])
  }

  /** Reads back a rendering: an optional '-' followed by at least one digit. */
  function ParseDecimal(s: string): Option<int> {
    if |s| >= 2 && s[0] == '-' && AllDigits(s[1..]) then Some(0 - DigitsValue(s[1..]) as int)
    else if |s| >= 1 && AllDigits(s) then Some(DigitsValue(s))
    else None
  }

  lemma {:induction false} NatToDecimalRoundTrip(n: nat)
    ensures DigitsValue(NatToDecimal(n)) == n
    decreases n
  {
    if n >= 10 {
      var s := NatToDecimal(n);
      assert s[..|s| - 1] == NatToDecimal(n / 10);
      NatToDecimalRoundTrip(n / 10);
    }
  }

  /** Reading the `%d` rendering of `n` gives `n` back. */
  lemma IntToDecimalRoundTrip(n: int)
    ensures ParseDecimal(IntToDecimal(n)) == Some(n)
  {
    var s := IntToDecimal(n);
    if n < 0 {
      var digits := NatToDecimal(-n);
      assert s == "-" + digits;
      assert s[1..] == digits;
      NatToDecimalRoundTrip(-n);
    } else {
      assert s[0] != '-';
      NatToDecimalRoundTrip(n);
    }
  }

  /** Distinct integers have distinct renderings. */
  lemma IntToDecimalInjective(a: int, b: int)
    requires IntToDecimal(a) == IntToDecimal(b)
    ensures a == b
  {
    IntToDecimalRoundTrip(a);
    IntToDecimalRoundTrip(b);
  }

  /** A rendering holds no '/'. */
  lemma IntToDecimalHasNoSlash(n: int)
    ensures '/' !in IntToDecimal(n)
  {
  }
}
