/** Decimal rendering of integers, as Python's `str(int)` (and an f-string
    placeholder holding an int) writes them, together with a parser that
    reads such a rendering back. */
module Decimal {
  import opened Wrappers

  predicate IsDigit(c: char) {
    '0' <= c <= '9'
  }

  predicate AllDigits(s: string) {
    forall i :: 0 <= i < |s| ==> IsDigit(s[i])
  }

  function DigitChar(d: nat): (c: char)
    requires d < 10
    ensures IsDigit(c) && c as int - '0' as int == d
  {
    ('0' as int + d) as char
  }

  function DigitValue(c: char): (d: nat)
    requires IsDigit(c)
    ensures d < 10 && DigitChar(d) == c
  {
    c as int - '0' as int
  }

  /** The decimal digits of `n`, most significant first, without leading zeros. */
  function Digits(n: nat): (s: string)
    ensures |s| >= 1 && AllDigits(s)
    ensures s[0] == '0' <==> n == 0
  {
    if n < 10 then [DigitChar(n)] else Digits(n / 10) + [DigitChar(n % 10)]
  }

  /** Python's `str(n)` for an int: a minus sign for negatives, then the digits.
      It parses back to `n`, and by `ParseOnlyRendering` it is the only string that does. */
  function ToString(n: int): (s: string)
    ensures |s| >= 1
    ensures (s[0] == '-') <==> n < 0
    ensures Parse(s) == Some(n)
  {
    if n < 0 then
      DigitsRoundTrip(-n);
      assert ("-" + Digits(-n))[1..] == Digits(-n);
      "-" + Digits(-n)
    else
      DigitsRoundTrip(n);
      Digits(n)
  }

  /** The value of a non-empty run of decimal digits. */
  function DigitsValue(s: string): nat
    requires |s| >= 1 && AllDigits(s)
  {
    if |s| == 1 then DigitValue(s[0])
    else DigitsValue(s[..|s| - 1]) * 10 + DigitValue(s[|s| - 1])
  }

  /** A non-empty run of digits with no leading zero, except "0" itself. */
  predicate Canonical(t: string) {
    |t| >= 1 && AllDigits(t) && (t[0] != '0' || |t| == 1)
  }

  /** Reads canonical decimal text: an optional minus sign followed by
      canonical digits, and no "-0". Anything else is `None`. */
  function Parse(s: string): Option<int> {
    if |s| >= 2 && s[0] == '-' && Canonical(s[1..]) && s[1] != '0' then Some(0 - DigitsValue(s[1..]) as int)
    else if Canonical(s) then Some(DigitsValue(s))
    else None
  }

  lemma {:induction false} DigitsRoundTrip(n: nat)
    ensures DigitsValue(Digits(n)) == n
  {
    if n >= 10 {
      var s := Digits(n);
      assert s[..|s| - 1] == Digits(n / 10);
      DigitsRoundTrip(n / 10);
    }
  }

  /** Canonical digits are the rendering of their own value. */
  lemma {:induction false} DigitsOfValue(t: string)
    requires Canonical(t)
    ensures Digits(DigitsValue(t)) == t
  {
    if |t| > 1 {
      var prefix, d := t[..|t| - 1], DigitValue(t[|t| - 1]);
      DigitsOfValue(prefix);
      var m := DigitsValue(prefix);
      assert m != 0;
      var v := m * 10 + d;
      assert v / 10 == m && v % 10 == d;
      assert t == prefix + [t[|t| - 1]];
    }
  }

  /** The converse of the round trip: the only string that parses to `n` is `ToString(n)`. */
  lemma ParseOnlyRendering(s: string, n: int)
    requires Parse(s) == Some(n)
    ensures s == ToString(n)
  {
    if |s| >= 2 && s[0] == '-' && Canonical(s[1..]) && s[1] != '0' {
      DigitsOfValue(s[1..]);
      assert s == "-" + s[1..];
    } else {
      DigitsOfValue(s);
    }
  }

  /** Distinct integers have distinct renderings. */
  lemma ToStringInjective(a: int, b: int)
    requires ToString(a) == ToString(b)
    ensures a == b
  {
  }
}
