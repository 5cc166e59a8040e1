/**
 * The countdown badge (App.updateRemaining): the text is `SCANNING` when the
 * remaining seconds are exactly zero and otherwise the decimal rendering of
 * the remaining seconds, negative values included.
 */
module Display {
  import opened Wrappers

  const Scanning := "SCANNING"

  predicate IsDigit(c: char) { '0' <= c <= '9' }

  predicate AllDigits(t: string) { forall i :: 0 <= i < |t| ==> IsDigit(t[i]) }

  /** Digits without a leading zero, or the single digit 0. */
  predicate CanonicalDigits(t: string)
  {
    |t| > 0 && AllDigits(t) && (|t| > 1 ==> t[0] != '0')
  }

  /** The way a template literal renders an integer: canonical digits, optionally after one minus sign. */
  predicate CanonicalInt(t: string)
  {
    CanonicalDigits(t) || (|t| > 1 && t[0] == '-' && CanonicalDigits(t[1..]) && t[1] != '0')
  }

  function DigitChar(d: nat): (c: char)
    requires d < 10
    ensures IsDigit(c) && c as int - '0' as int == d
  {
    (d + '0' as int) as char
  }

  /** Decimal digits of a natural number, without leading zeros. */
  function NatText(n: nat): (t: string)
    ensures CanonicalDigits(t)
    ensures n > 0 ==> t[0] != '0'
    decreases n
  {
    if n < 10 then [DigitChar(n)] else NatText(n / 10) + [DigitChar(n % 10)]
  }

  /** Template-literal rendering of an integer: a minus sign, then the digits. */
  function IntText(i: int): (t: string)
    ensures CanonicalInt(t)
    ensures |t| > 0 && (t[0] == '-' || IsDigit(t[0]))
  {
    if i < 0 then "-" + NatText(-i) else NatText(i)
  }

  /** Value of a string of decimal digits (the reading partner of NatText). */
  function DigitsValue(t: string): nat
    requires AllDigits(t)
  {
    if t == [] then 0 else DigitsValue(t[..|t| - 1]) * 10 + (t[|t| - 1] as int - '0' as int)
  }

  /** Reads an optionally signed decimal integer back from a badge text. */
  function ParseInt(t: string): Option<int>
  {
    if t == [] then None
    else if t[0] == '-' then
      if |t| > 1 && AllDigits(t[1..]) then Some(-(DigitsValue(t[1..]) as int)) else None
    else if AllDigits(t) then Some(DigitsValue(t))
    else None
  }

  lemma {:induction false} NatTextRoundTrip(n: nat)
    ensures DigitsValue(NatText(n)) == n
    decreases n
  {
    if n >= 10 {
      NatTextRoundTrip(n / 10);
      var t := NatText(n);
      assert t[..|t| - 1] == NatText(n / 10);
    }
  }

  lemma IntTextRoundTrip(i: int)
    ensures ParseInt(IntText(i)) == Some(i)
  {
    if i < 0 {
      NatTextRoundTrip(-i);
      assert IntText(i)[1..] == NatText(-i);
    } else {
      NatTextRoundTrip(i);
    }
  }

  /** Text of the countdown badge for the given remaining seconds. */
  function RemainingText(remaining: int): (t: string)
    ensures t == Scanning <==> remaining == 0
    ensures remaining != 0 ==> ParseInt(t) == Some(remaining) && CanonicalInt(t)
  {
    if remaining == 0 then Scanning
    else
      IntTextRoundTrip(remaining);
      IntText(remaining)
  }
}
