/**
 * Text helpers shared by the model: prefixes, decimal rendering of numbers
 * (Python's `str(int)` and `"{:0Nd}".format`) and the matching parsers.
 */
module Strings {

  predicate StartsWith(s: string, prefix: string) {
    |prefix| <= |s| && s[..|prefix|] == prefix
  }

  /** A mismatch at one position rules a prefix out. */
  lemma MismatchNotPrefix(s: string, prefix: string, i: nat)
    requires i < |s| && i < |prefix| && s[i] != prefix[i]
    ensures !StartsWith(s, prefix)
  {
    if |prefix| <= |s| {
      assert s[..|prefix|][i] != prefix[i];
    }
  }

  predicate EndsWith(s: string, suffix: string) {
    |suffix| <= |s| && s[|s| - |suffix|..] == suffix
  }

  predicate IsDigit(c: char) {
    '0' <= c <= '9'
  }

  predicate AllDigits(s: string) {
    forall i :: 0 <= i < |s| ==> IsDigit(s[i])
  }

  function DigitChar(d: nat): (c: char)
    requires d < 10
    ensures IsDigit(c)
  {
    (('0' as int) + d) as char
  }

  function DigitValue(c: char): (d: nat)
    requires IsDigit(c)
    ensures d < 10
  {
    (c as int) - ('0' as int)
  }

  /** Decimal text of a natural number, without leading zeros. */
  function NatToString(n: nat): (s: string)
    ensures 0 < |s| && AllDigits(s)
    ensures s[0] == '0' ==> n == 0
    decreases n
  {
    if n < 10 then [DigitChar(n)] else NatToString(n / 10) + [DigitChar(n % 10)]
  }

  /** Value of a non-empty run of decimal digits. */
  function ParseNat(s: string): nat
    requires 0 < |s| && AllDigits(s)
    decreases |s|
  {
    if |s| == 1 then DigitValue(s[0])
    else ParseNat(s[..|s| - 1]) * 10 + DigitValue(s[|s| - 1])
  }

  lemma {:induction false} ParseNatToString(n: nat)
    ensures ParseNat(NatToString(n)) == n
    decreases n
  {
    if n >= 10 {
      var s := NatToString(n);
      assert s[..|s| - 1] == NatToString(n / 10);
      ParseNatToString(n / 10);
    }
  }

  lemma NatToStringInjective(a: nat, b: nat)
    requires NatToString(a) == NatToString(b)
    ensures a == b
  {
    ParseNatToString(a);
    ParseNatToString(b);
  }

  /** Python's `str(i)` for an integer: a leading '-' for negative values. */
  function IntToString(i: int): (s: string)
    ensures 0 < |s|
    ensures i < 0 <==> s[0] == '-'
  {
    if i < 0 then "-" + NatToString(-i) else NatToString(i)
  }

  /** Inverse of IntToString on well-formed text; None on anything else. */
  function ParseInt(s: string): Option<int> {
    if 0 < |s| && s[0] == '-' then
      if 1 < |s| && AllDigits(s[1..]) then Some(0 - ParseNat(s[1..]) as int) else None
    else if 0 < |s| && AllDigits(s) then Some(ParseNat(s))
    else None
  }

  lemma IntToStringRoundTrip(i: int)
    ensures ParseInt(IntToString(i)) == Some(i)
  {
    if i < 0 {
      var s := IntToString(i);
      assert s[1..] == NatToString(-i);
      ParseNatToString(-i);
    } else {
      ParseNatToString(i);
    }
  }

  function Zeros(k: nat): (z: string)
    ensures |z| == k && AllDigits(z)
    ensures forall i :: 0 <= i < k ==> z[i] == '0'
  {
    if k == 0 then [] else "0" + Zeros(k - 1)
  }

  /** Leading zeros do not change a decimal value. */
  lemma {:induction false} ParseNatLeadingZeros(k: nat, s: string)
    requires 0 < |s| && AllDigits(s)
    ensures AllDigits(Zeros(k) + s)
    ensures ParseNat(Zeros(k) + s) == ParseNat(s)
    decreases |s|
  {
    var z := Zeros(k) + s;
    if |s| == 1 {
      ParseNatOfZeros(k, s[0]);
    } else {
      var init := s[..|s| - 1];
      assert z[..|z| - 1] == Zeros(k) + init;
      ParseNatLeadingZeros(k, init);
    }
  }

  lemma {:induction false} ParseNatOfZeros(k: nat, c: char)
    requires IsDigit(c)
    ensures ParseNat(Zeros(k) + [c]) == DigitValue(c)
    decreases k
  {
    if k > 0 {
      var w := Zeros(k - 1) + [c];
      assert Zeros(k) == "0" + Zeros(k - 1);
      assert Zeros(k) + [c] == "0" + w;
      assert AllDigits(w) by {
        forall i | 0 <= i < |w| ensures IsDigit(w[i]) {
          if i < k - 1 { assert w[i] == Zeros(k - 1)[i]; }
        }
      }
      ParseNatOfZeros(k - 1, c);
      ParseNatZeroHead(w);
    }
  }

  /** A single leading zero does not change a decimal value. */
  lemma {:induction false} ParseNatZeroHead(s: string)
    requires 0 < |s| && AllDigits(s)
    ensures ParseNat("0" + s) == ParseNat(s)
    decreases |s|
  {
    var z := "0" + s;
    if |s| > 1 {
      assert z[..|z| - 1] == "0" + s[..|s| - 1];
      ParseNatZeroHead(s[..|s| - 1]);
    }
  }

  /** Python's `"{:0<width>d}".format(n)` for a natural number. */
  function ZeroPad(n: nat, width: nat): (r: string)
    ensures AllDigits(r)
    ensures |r| == if |NatToString(n)| < width then width else |NatToString(n)|
    ensures ParseNat(r) == n
  {
    var s := NatToString(n);
    ParseNatToString(n);
    if |s| < width then
      ParseNatLeadingZeros(width - |s|, s);
      Zeros(width - |s|) + s
    else s
  }

  /** Length of the run of decimal digits that starts the text. */
  function LeadingDigits(s: string): (k: nat)
    ensures k <= |s| && AllDigits(s[..k])
    ensures k < |s| ==> !IsDigit(s[k])
  {
    if |s| == 0 || !IsDigit(s[0]) then 0
    else
      var k := 1 + LeadingDigits(s[1..]);
      assert s[..k] == [s[0]] + s[1..][..k - 1];
      k
  }

  lemma LeadingDigitsOfNumber(d: string, t: string)
    requires AllDigits(d)
    requires 0 < |t| && !IsDigit(t[0])
    ensures LeadingDigits(d + t) == |d|
  {
    if |d| > 0 {
      assert (d + t)[1..] == d[1..] + t;
      LeadingDigitsOfNumber(d[1..], t);
    }
  }

  /** Length of the run of decimal digits that ends the text. */
  function TrailingDigits(s: string): (k: nat)
    ensures k <= |s| && AllDigits(s[|s| - k..])
    ensures k < |s| ==> !IsDigit(s[|s| - k - 1])
  {
    if |s| == 0 || !IsDigit(s[|s| - 1]) then 0
    else
      var k := 1 + TrailingDigits(s[..|s| - 1]);
      assert s[|s| - k..] == s[..|s| - 1][|s| - k..] + [s[|s| - 1]];
      k
  }

  lemma TrailingDigitsOfNumber(t: string, d: string)
    requires AllDigits(d)
    requires 0 < |t| && !IsDigit(t[|t| - 1])
    ensures TrailingDigits(t + d) == |d|
  {
    if |d| > 0 {
      assert (t + d)[..|t + d| - 1] == t + d[..|d| - 1];
      TrailingDigitsOfNumber(t, d[..|d| - 1]);
    }
  }

  datatype Option<+T> = None | Some(value: T)
}
