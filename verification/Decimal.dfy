/**
  Decimal text of 64-bit signed integers, as the store writes and reads counters.
 */
module Decimal {
  import opened Wrappers

  const INT64_MAX: int := 0x7FFF_FFFF_FFFF_FFFF
  const INT64_MIN: int := -0x8000_0000_0000_0000

  predicate IsInt64(n: int) {
    INT64_MIN <= n <= INT64_MAX
  }

  /** The successor in 64-bit two's-complement arithmetic. */
  function Successor(n: int): int {
    if n == INT64_MAX then INT64_MIN else n + 1
  }

  function DigitChar(d: nat): char
    requires d < 10
  {
    '0' + d as char
  }

  predicate IsDigit(c: char) {
    '0' <= c <= '9'
  }

  function Digits(n: nat): string {
    if n < 10 then [DigitChar(n)] else Digits(n / 10) + [DigitChar(n % 10)]
  }

  /** Base-10 text of a signed integer. */
  function FormatInt(n: int): string {
    if n < 0 then "-" + Digits(-n) else Digits(n)
  }

  predicate AllDigits(s: string) {
    forall k | 0 <= k < |s| :: IsDigit(s[k])
  }

  function DigitsValue(s: string): nat
    requires AllDigits(s)
  {
    if |s| == 0 then 0 else 10 * DigitsValue(s[..|s| - 1]) + (s[|s| - 1] - '0') as nat
  }

  /** Reads an optional sign and at least one digit; text in any other form, or out of range, has no value. */
  function ParseInt(s: string): Option<int> {
    var signed := |s| > 0 && (s[0] == '-' || s[0] == '+');
    var digits := if signed then s[1..] else s;
    if |digits| == 0 || !AllDigits(digits) then None
    else
      var value: int := DigitsValue(digits);
      var n := if signed && s[0] == '-' then -value else value;
      if IsInt64(n) then Some(n) else None
  }

  lemma {:induction false} DigitsRoundTrip(n: nat)
    ensures |Digits(n)| > 0 && AllDigits(Digits(n)) && DigitsValue(Digits(n)) == n
  {
    if n < 10 {
      assert Digits(n)[..0] == "";
    } else {
      DigitsRoundTrip(n / 10);
      assert Digits(n)[..|Digits(n)| - 1] == Digits(n / 10);
    }
  }

  /** Every counter value the store writes is read back. */
  lemma ParseFormat(n: int)
    requires IsInt64(n)
    ensures ParseInt(FormatInt(n)) == Some(n)
  {
    DigitsRoundTrip(if n < 0 then -n else n);
    if n < 0 {
      assert FormatInt(n)[1..] == Digits(-n);
    } else {
      assert IsDigit(Digits(n)[0]);
    }
  }

  /** A text is read as a number exactly if it is digits, at least one, perhaps after a sign, for a number of 64 bits. */
  lemma ParseIff(s: string, n: int)
    ensures ParseInt(s) == Some(n) <==>
              && IsInt64(n)
              && exists d: string | |d| > 0 && AllDigits(d) ::
                   (s == d && n == DigitsValue(d)) || (s == "+" + d && n == DigitsValue(d)) || (s == "-" + d && n == 0 - DigitsValue(d))
  {
    hide DigitsValue;
    var d := if |s| > 0 && !IsDigit(s[0]) then s[1..] else s;
    if ParseInt(s) == Some(n) && d != s {
      assert s == [s[0]] + d;
    }
    forall e: string | |e| > 0 && AllDigits(e)
      ensures ("+" + e)[1..] == e && ("-" + e)[1..] == e && IsDigit(e[0])
    {
    }
  }

  /** Distinct integers have distinct texts, whatever their size. */
  lemma FormatInjective(m: int, n: int)
    requires FormatInt(m) == FormatInt(n)
    ensures m == n
  {
    DigitsRoundTrip(if m < 0 then -m else m);
    DigitsRoundTrip(if n < 0 then -n else n);
    assert m < 0 ==> FormatInt(m)[1..] == Digits(-m);
    assert n < 0 ==> FormatInt(n)[1..] == Digits(-n);
    assert m >= 0 ==> IsDigit(FormatInt(m)[0]);
    assert n >= 0 ==> IsDigit(FormatInt(n)[0]);
  }
}
