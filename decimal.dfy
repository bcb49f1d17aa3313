/**
 * Go's `%d` verb on signed integers: an optional minus sign followed by the
 * decimal digits of the magnitude, with no leading zeros. `ParseInt` is the
 * reference inverse used to state that the rendering loses nothing.
 */
module Decimal {
  import opened Basics

  predicate IsDigit(c: char) {
    '0' <= c <= '9'
  }

  predicate AllDigits(s: string) {
    forall i :: 0 <= i < |s| ==> IsDigit(s[i])
  }

  function DigitChar(d: nat): (c: char)
    requires d < 10
    ensures IsDigit(c) && c as int - '0' as int == d
  {
    (d + '0' as int) as char
  }

  /** Decimal digits of a natural number, most significant first. */
  function NatDigits(n: nat): (s: string)
    ensures |s| > 0 && AllDigits(s)
    ensures s[0] == '0' ==> n == 0
    decreases n
  {
    if n < 10 then [DigitChar(n)] else NatDigits(n / 10) + [DigitChar(n % 10)]
  }

  /** The text `fmt.Sprintf("%d", n)` produces. */
  function FormatInt(n: int): (s: string)
    ensures |s| > 0
    ensures n < 0 <==> s[0] == '-'
    ensures ' ' !in s
  {
    if n < 0 then "-" + NatDigits(-n) else NatDigits(n)
  }

  /** The text holds digits and, first, perhaps a minus sign: nothing else. */
  lemma FormatIntChars(n: int)
    ensures forall i :: 0 <= i < |FormatInt(n)| ==> FormatInt(n)[i] == '-' || IsDigit(FormatInt(n)[i])
  {
    if n < 0 {
      assert FormatInt(n)[1..] == NatDigits(-n);
    }
  }

  /** The value of a string of decimal digits, read most significant first. */
  function DigitsValue(s: string): nat
    requires AllDigits(s)
  {
    if s == [] then 0 else DigitsValue(s[..|s| - 1]) * 10 + (s[|s| - 1] as int - '0' as int)
  }

  /** Reads back an optionally signed decimal; `None` for anything else. */
  function ParseInt(s: string): (r: Option<int>)
    ensures r.Some? ==> |s| > 0
  {
    if |s| > 1 && s[0] == '-' && AllDigits(s[1..]) then Some(-(DigitsValue(s[1..]) as int))
    else if |s| > 0 && AllDigits(s) then Some(DigitsValue(s))
    else None
  }

  lemma {:induction false} NatDigitsValue(n: nat)
    ensures DigitsValue(NatDigits(n)) == n
    decreases n
  {
    if n >= 10 {
      var s := NatDigits(n);
      assert s[..|s| - 1] == NatDigits(n / 10);
      NatDigitsValue(n / 10);
    }
  }

  /** Rendering with `%d` and reading back gives the same integer. */
  lemma FormatIntRoundTrip(n: int)
    ensures ParseInt(FormatInt(n)) == Some(n)
  {
    if n < 0 {
      var s := FormatInt(n);
      assert s[1..] == NatDigits(-n);
      NatDigitsValue(-n);
    } else {
      NatDigitsValue(n);
    }
  }

  /** Two integers with the same `%d` rendering are equal. */
  lemma FormatIntInjective(m: int, n: int)
    requires FormatInt(m) == FormatInt(n)
    ensures m == n
  {
    FormatIntRoundTrip(m);
    FormatIntRoundTrip(n);
  }
}
