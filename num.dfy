/**
 * Machine integers and decimal text as the Rust standard library handles them:
 * the i64 range, `to_string` of integers, `str::parse::<i64>` and the
 * truncating division of `/` on signed integers.
 */
module Num {
  import opened Wrappers

  const I64Min: int := -0x8000_0000_0000_0000
  const I64Max: int := 0x7FFF_FFFF_FFFF_FFFF
  const U64Modulus: int := 0x1_0000_0000_0000_0000

  type U8 = x: int | 0 <= x < 0x100
  type U16 = x: int | 0 <= x < 0x1_0000
  type U32 = x: int | 0 <= x < 0x1_0000_0000
  type U64 = x: int | 0 <= x < 0x1_0000_0000_0000_0000
  type I32 = x: int | -0x8000_0000 <= x < 0x8000_0000
  type I64 = x: int | -0x8000_0000_0000_0000 <= x < 0x8000_0000_0000_0000

  predicate IsDigit(c: char)
  {
    '0' <= c <= '9'
  }

  predicate AllDigits(s: string)
  {
    forall i :: 0 <= i < |s| ==> IsDigit(s[i])
  }

  function DigitValue(c: char): (d: nat)
    requires IsDigit(c)
    ensures d < 10
  {
    c as int - '0' as int
  }

  function DigitChar(d: nat): (c: char)
    requires d < 10
    ensures IsDigit(c) && DigitValue(c) == d
  {
    ('0' as int + d) as char
  }

  /** The value of a string of decimal digits, read most significant digit first. */
  function DigitsValue(s: string): nat
    requires AllDigits(s)
    decreases |s|
  {
    if |s| == 0 then 0 else DigitsValue(s[..|s| - 1]) * 10 + DigitValue(s[|s| - 1])
  }

  /** `n.to_string()` for an unsigned integer: shortest decimal form, no sign, no leading zero. */
  function ShowNat(n: nat): (r: string)
    ensures |r| > 0 && AllDigits(r)
    ensures r[0] == '0' ==> n == 0
    decreases n
  {
    if n < 10 then [DigitChar(n)] else ShowNat(n / 10) + [DigitChar(n % 10)]
  }

  lemma {:induction false} ShowNatRoundTrip(n: nat)
    ensures DigitsValue(ShowNat(n)) == n
    decreases n
  {
    if n >= 10 {
      var s := ShowNat(n);
      ShowNatRoundTrip(n / 10);
      assert s[..|s| - 1] == ShowNat(n / 10);
    }
  }

  /** Distinct numbers print differently, so stringified keys never collide. */
  lemma ShowNatInjective(a: nat, b: nat)
    ensures ShowNat(a) == ShowNat(b) ==> a == b
  {
    ShowNatRoundTrip(a);
    ShowNatRoundTrip(b);
  }

  /** `i.to_string()` for a signed integer. */
  function ShowInt(i: int): (r: string)
    ensures |r| > 0
    ensures i < 0 <==> r[0] == '-'
  {
    if i < 0 then "-" + ShowNat(-i) else ShowNat(i)
  }

  /**
   * `s.parse::<i64>()`: an optional '+' or '-' sign followed by at least one
   * ASCII digit and nothing else; a value outside the i64 range is an error,
   * and so is the empty string or a sign on its own.
   */
  function ParseI64(s: string): (r: Option<int>)
    ensures r.Some? ==> I64Min <= r.value <= I64Max
    ensures r.Some? ==> |s| > 0
  {
    if |s| == 0 then None
    else if (s[0] == '+' || s[0] == '-') && |s| == 1 then None
    else
      var digits := if s[0] == '+' || s[0] == '-' then s[1..] else s;
      if !AllDigits(digits) then None
      else
        var v: int := if s[0] == '-' then -(DigitsValue(digits) as int) else DigitsValue(digits);
        if I64Min <= v <= I64Max then Some(v) else None
  }

  /** Printing and then parsing an i64 gives the same number back. */
  lemma ParseShowInt(i: int)
    requires I64Min <= i <= I64Max
    ensures ParseI64(ShowInt(i)) == Some(i)
  {
    if i < 0 {
      ShowNatRoundTrip(-i);
      ParseI64AcceptsNegative(ShowNat(-i));
    } else {
      ShowNatRoundTrip(i);
      ParseUnsigned(ShowNat(i));
    }
  }

  /** A leading zero does not change the value of a digit string. */
  lemma {:induction false} DigitsValueLeadingZero(d: string)
    requires AllDigits(d)
    ensures AllDigits("0" + d) && DigitsValue("0" + d) == DigitsValue(d)
    decreases |d|
  {
    var z := "0" + d;
    assert AllDigits(z);
    if |d| > 0 {
      DigitsValueLeadingZero(d[..|d| - 1]);
      assert z[..|z| - 1] == "0" + d[..|d| - 1];
    }
  }

  /** `parse` reads a non-empty digit run that fits, with no sign or a '+' in front; leading zeros are allowed. */
  lemma ParseI64Accepts(d: string)
    requires |d| > 0 && AllDigits(d) && DigitsValue(d) <= I64Max
    ensures ParseI64(d) == Some(DigitsValue(d))
    ensures ParseI64("+" + d) == Some(DigitsValue(d))
    ensures ParseI64("0" + d) == Some(DigitsValue(d))
  {
    ParseUnsigned(d);
    ParsePlus(d);
    DigitsValueLeadingZero(d);
    ParseUnsigned("0" + d);
  }

  lemma ParsePlus(d: string)
    requires |d| > 0 && AllDigits(d) && DigitsValue(d) <= I64Max
    ensures ParseI64("+" + d) == Some(DigitsValue(d))
  {
    var p := "+" + d;
    assert p[0] == '+' && p[1..] == d;
  }

  lemma ParseUnsigned(d: string)
    requires |d| > 0 && AllDigits(d) && DigitsValue(d) <= I64Max
    ensures ParseI64(d) == Some(DigitsValue(d))
  {
    assert IsDigit(d[0]);
  }

  /** `parse` reads a '-' followed by a digit run whose negation fits as that negative number. */
  lemma ParseI64AcceptsNegative(d: string)
    requires |d| > 0 && AllDigits(d) && DigitsValue(d) <= -I64Min
    ensures ParseI64("-" + d) == Some(-(DigitsValue(d) as int))
  {
    var m := "-" + d;
    assert m[0] == '-' && m[1..] == d;
  }

  /** A character that is not a digit, anywhere after the optional sign, makes `parse` fail. */
  lemma ParseI64RejectsNonDigit(s: string, i: nat)
    requires 0 < i < |s| || (i == 0 && |s| > 0 && s[0] != '+' && s[0] != '-')
    requires !IsDigit(s[i])
    ensures ParseI64(s).None?
  {
    if |s| > 1 && (s[0] == '+' || s[0] == '-') {
      assert s[1..][i - 1] == s[i];
    }
  }

  /** Rust's `a / b` on signed integers, which rounds toward zero (Dafny's `/` is Euclidean). */
  function DivTrunc(a: int, b: int): (q: int)
    requires b > 0
    ensures a >= 0 ==> q == a / b
    ensures a < 0 ==> q == -((-a) / b)
    ensures a >= 0 ==> q * b <= a < (q + 1) * b
    ensures a < 0 ==> (q - 1) * b < a <= q * b
  {
    if a >= 0 then a / b else -((-a) / b)
  }
}
