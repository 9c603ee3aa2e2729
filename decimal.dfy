/**
 * The decimal rendering that Go's fmt.Sprintf("%d", x) produces for an
 * integer, and a reference parser for it, used to prove the rendering
 * lossless.  The parser is not part of the benchmark utility.
 */
module Decimal {
  import opened Wrappers

  predicate IsDigit(c: char) {
    '0' <= c <= '9'
  }

  function DigitChar(d: nat): (c: char)
    requires d < 10
    ensures IsDigit(c)
  {
    ('0' as int + d) as char
  }

  function DigitValue(c: char): (d: nat)
    requires IsDigit(c)
    ensures d < 10 && DigitChar(d) == c
  {
    c as int - '0' as int
  }

  /** The digits of n, most significant first, with no leading zero. */
  function Digits(n: nat): (s: string)
    ensures |s| >= 1
    ensures forall i :: 0 <= i < |s| ==> IsDigit(s[i])
    ensures s[0] == '0' <==> n == 0
    decreases n
  {
    if n < 10 then [DigitChar(n)] else Digits(n / 10) + [DigitChar(n % 10)]
  }

  /** fmt.Sprintf("%d", x): an optional minus sign followed by the digits of |x|. */
  function FormatInt(x: int): (s: string)
    ensures |s| >= 1
  {
    if x < 0 then "-" + Digits(-x) else Digits(x)
  }

  /** The rendering starts with '-' exactly for negative numbers, and all else is digits. */
  lemma FormatIntShape(x: int)
    ensures var s := FormatInt(x);
      && (s[0] == '-' <==> x < 0)
      && (x < 0 ==> |s| >= 2)
      && forall i :: (if x < 0 then 1 else 0) <= i < |s| ==> IsDigit(s[i])
  {
    if x < 0 {
      var s := FormatInt(x);
      assert forall i :: 1 <= i < |s| ==> s[i] == Digits(-x)[i - 1];
    }
  }

  /** Reads a non-empty run of decimal digits. */
  function ParseNat(s: string): (r: Option<nat>)
    ensures r.Some? <==> |s| > 0 && forall i :: 0 <= i < |s| ==> IsDigit(s[i])
  {
    if |s| == 0 || !IsDigit(s[|s| - 1]) then None
    else if |s| == 1 then Some(DigitValue(s[0]))
    else match ParseNat(s[..|s| - 1])
      case None => None
      case Some(v) => Some(10 * v + DigitValue(s[|s| - 1]))
  }

  /** Reads an optional minus sign followed by decimal digits. */
  function ParseInt(s: string): (r: Option<int>)
  {
    if |s| > 0 && s[0] == '-' then
      match ParseNat(s[1..])
      case None => None
      case Some(v) => Some(-(v as int))
    else
      match ParseNat(s)
      case None => None
      case Some(v) => Some(v)
  }

  lemma {:induction false} ParseDigits(n: nat)
    ensures ParseNat(Digits(n)) == Some(n)
    decreases n
  {
    if n >= 10 {
      var s := Digits(n);
      assert s[..|s| - 1] == Digits(n / 10);
      ParseDigits(n / 10);
    }
  }

  /** Parsing the rendering of any integer gives that integer back. */
  lemma FormatIntRoundTrip(x: int)
    ensures ParseInt(FormatInt(x)) == Some(x)
  {
    var s := FormatInt(x);
    if x < 0 {
      assert s[0] == '-' && s[1..] == Digits(-x);
      ParseDigits(-x);
    } else {
      assert s == Digits(x) && IsDigit(s[0]);
      ParseDigits(x);
    }
  }

  /** Distinct integers have distinct renderings. */
  lemma FormatIntInjective(x: int, y: int)
    requires FormatInt(x) == FormatInt(y)
    ensures x == y
  {
    FormatIntRoundTrip(x);
    FormatIntRoundTrip(y);
  }
}
