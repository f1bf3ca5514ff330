/** Decimal rendering of integers, as the `%d` verb prints them: an optional
    minus sign followed by the digits without leading zeros. A parser for the
    rendering shows that it loses nothing. */
module Decimal {
  import opened Kube

  predicate IsDigit(c: char)
  {
    '0' <= c <= '9'
  }

  predicate AllDigits(s: string)
  {
    forall i | 0 <= i < |s| :: IsDigit(s[i])
  }

  function DigitChar(d: nat): (c: char)
    requires d < 10
    ensures IsDigit(c) && c as int - '0' as int == d
  {
    "0123456789"[d]
  }

  /** The digits of `n`, most significant first. */
  function FormatNat(n: nat): (s: string)
    ensures s != [] && AllDigits(s)
    ensures n < 10 <==> |s| == 1
    decreases n
  {
    if n < 10 then [DigitChar(n)] else FormatNat(n / 10) + [DigitChar(n % 10)]
  }

  function FormatInt(n: int): (s: string)
    ensures s != []
    ensures n < 0 <==> s[0] == '-'
    ensures '/' !in s
  {
    if n < 0 then "-" + FormatNat(-n) else FormatNat(n)
  }

  /** The value of a non-empty string of digits. */
  function DigitsValue(s: string): nat
    requires s != [] && AllDigits(s)
    decreases |s|
  {
    var last := s[|s| - 1] as int - '0' as int;
    if |s| == 1 then last else DigitsValue(s[..|s| - 1]) * 10 + last
  }

  /** Reads back an optionally signed decimal. */
  function ParseInt(s: string): Option<int>
  {
    if s == [] then None
    else if s[0] == '-' then
      if |s| > 1 && AllDigits(s[1..]) then var v: int := DigitsValue(s[1..]); Some(-v) else None
    else if AllDigits(s) then Some(DigitsValue(s))
    else None
  }

  lemma {:induction false} DigitsValueFormatNat(n: nat)
    ensures DigitsValue(FormatNat(n)) == n
    decreases n
  {
    if n >= 10 {
      var s := FormatNat(n);
      assert s[..|s| - 1] == FormatNat(n / 10);
      DigitsValueFormatNat(n / 10);
    }
  }

  /** Parsing undoes formatting. */
  lemma ParseFormatInt(n: int)
    ensures ParseInt(FormatInt(n)) == Some(n)
  {
    var s := FormatInt(n);
    if n < 0 {
      var digits := FormatNat(-n);
      assert s == "-" + digits;
      assert s[1..] == digits;
      DigitsValueFormatNat(-n);
    } else {
      assert s == FormatNat(n);
      DigitsValueFormatNat(n);
    }
  }

  /** Different integers are printed differently. */
  lemma FormatIntInjective(a: int, b: int)
    requires FormatInt(a) == FormatInt(b)
    ensures a == b
  {
    ParseFormatInt(a);
    ParseFormatInt(b);
  }
}
