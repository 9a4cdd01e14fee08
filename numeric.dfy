/** Fixed-width integers and their decimal text form, as the Rust standard
    library handles them: `u16::from_str` (used through `str::parse::<u16>`)
    and the `Display` rendering used by `format!("{}", port)`. */
module Numeric {
  import opened Wrappers

  type byte = x: int | 0 <= x < 0x100
  type u16 = x: int | 0 <= x < 0x1_0000

  const U16_MAX: nat := 0xFFFF

  predicate IsDigit(c: char) { '0' <= c <= '9' }

  predicate AllDigits(s: string) { forall i :: 0 <= i < |s| ==> IsDigit(s[i]) }

  function DigitValue(c: char): (d: nat)
    requires IsDigit(c)
    ensures d < 10
  {
    (c as int) - ('0' as int)
  }

  function DigitChar(d: nat): (c: char)
    requires d < 10
    ensures IsDigit(c) && DigitValue(c) == d
  {
    ('0' as int + d) as char
  }

  /** The value of a string of decimal digits, most significant digit first. */
  function DigitsValue(s: string): nat
    requires AllDigits(s)
  {
    if s == [] then 0 else DigitsValue(s[..|s| - 1]) * 10 + DigitValue(s[|s| - 1])
  }

  /** Decimal rendering without leading zeros, as Rust displays an unsigned integer. */
  function DecimalString(n: nat): (s: string)
    ensures |s| >= 1 && AllDigits(s)
    ensures |s| == 1 <==> n < 10
    ensures |s| > 1 ==> s[0] != '0'
  {
    if n < 10 then [DigitChar(n)] else DecimalString(n / 10) + [DigitChar(n % 10)]
  }

  /** The digits that `u16::from_str` reads: everything after one optional leading '+'. */
  function UnsignedDigits(s: string): string
  {
    if |s| > 0 && s[0] == '+' then s[1..] else s
  }

  /** `u16::from_str(s).ok()`: an optional '+', then one or more ASCII digits
      (leading zeros allowed) whose value is at most 65535. A '-' sign, an
      empty string, a lone '+', any other character and an overflow all give None. */
  function ParseU16(s: string): (r: Option<u16>)
    ensures r.Some? ==> |s| > 0 && forall i :: 0 <= i < |s| ==> IsDigit(s[i]) || (i == 0 && s[i] == '+')
  {
    var digits := UnsignedDigits(s);
    if |digits| > 0 && AllDigits(digits) && DigitsValue(digits) <= U16_MAX
    then Some(DigitsValue(digits))
    else None
  }

  lemma {:induction false} DigitsValueOfDecimal(n: nat)
    ensures DigitsValue(DecimalString(n)) == n
  {
    if n >= 10 {
      var s := DecimalString(n);
      DigitsValueOfDecimal(n / 10);
      assert s[..|s| - 1] == DecimalString(n / 10);
    }
  }

  /** Leading zeros do not change the value. */
  lemma {:induction false} DigitsValueLeadingZero(s: string)
    requires AllDigits(s)
    ensures AllDigits("0" + s) && DigitsValue("0" + s) == DigitsValue(s)
  {
    if s != [] {
      var t := "0" + s;
      assert t[..|t| - 1] == "0" + s[..|s| - 1];
      DigitsValueLeadingZero(s[..|s| - 1]);
    }
  }

  /** Every port renders to text that parses back to it, with or without a '+' sign. */
  lemma ParseDecimal(p: u16)
    ensures ParseU16(DecimalString(p)) == Some(p)
    ensures ParseU16("+" + DecimalString(p)) == Some(p)
  {
    DigitsValueOfDecimal(p);
    assert UnsignedDigits("+" + DecimalString(p)) == DecimalString(p);
  }

  /** A leading zero is accepted and ignored. */
  lemma ParseLeadingZero(s: string)
    requires |s| > 0 && AllDigits(s)
    ensures ParseU16("0" + s) == ParseU16(s)
  {
    DigitsValueLeadingZero(s);
  }

  /** A value above 65535 is rejected rather than wrapped or saturated. */
  lemma ParseRejectsOverflow(n: nat)
    requires n > U16_MAX
    ensures ParseU16(DecimalString(n)) == None
  {
    DigitsValueOfDecimal(n);
  }

  /** Unsigned parsing has no minus sign: every string starting with '-' is rejected. */
  lemma ParseRejectsMinus(s: string)
    requires |s| > 0 && s[0] == '-'
    ensures ParseU16(s) == None
  {
    assert !IsDigit(UnsignedDigits(s)[0]);
  }

  /** Empty text and a lone sign are rejected. */
  lemma ParseRejectsEmpty()
    ensures ParseU16("") == None && ParseU16("+") == None
  {
  }
}
