/**
 * Decimal renderings and parsing of integers, as done by Rust's `to_string` on
 * integer types and `str::parse::<isize>` (isize taken to be 64 bits wide).
 */
module Decimal {
  import opened Wrappers

  const ISIZE_MIN: int := -0x8000_0000_0000_0000
  const ISIZE_MAX: int := 0x7fff_ffff_ffff_ffff

  /** The smaller of two naturals, as `usize::min`. */
  function Min(a: nat, b: nat): nat { if a < b then a else b }

  predicate IsDigit(c: char) {
    '0' <= c <= '9'
  }

  predicate AllDigits(s: string) {
    forall i :: 0 <= i < |s| ==> IsDigit(s[i])
  }

  function DigitChar(d: nat): (c: char)
    requires d < 10
    ensures IsDigit(c) && (c as int) - ('0' as int) == d
  {
    (('0' as int) + d) as char
  }

  /** The shortest decimal rendering of `n`: no sign, no leading zero. */
  function NatToString(n: nat): (s: string)
    ensures |s| > 0 && AllDigits(s)
    ensures s[0] == '0' ==> n == 0
    decreases n
  {
    if n < 10 then [DigitChar(n)] else NatToString(n / 10) + [DigitChar(n % 10)]
  }

  /** `i64::to_string`: a leading '-' for negative values. */
  function IntToString(i: int): string {
    if i < 0 then "-" + NatToString(-i) else NatToString(i)
  }

  /** The value of a string of decimal digits. */
  function DigitsValue(s: string): nat
    requires AllDigits(s)
  {
    if |s| == 0 then 0 else DigitsValue(s[..|s| - 1]) * 10 + ((s[|s| - 1] as int) - ('0' as int))
  }

  /**
   * `str::parse::<isize>`: an optional '+' or '-', then at least one ASCII
   * digit and nothing else, with a value that fits in 64 bits.
   */
  function ParseIsize(s: string): (r: Option<int>)
    ensures r.Some? ==> ISIZE_MIN <= r.value <= ISIZE_MAX
    // Rejected: the empty string, a lone sign, and any character other than
    // a leading sign and ASCII digits.
    ensures |s| == 0 || s == "+" || s == "-" ==> r.None?
    ensures (exists i :: 0 <= i < |s| && !IsDigit(s[i]) && !(i == 0 && (s[i] == '+' || s[i] == '-'))) ==> r.None?
    // Accepted: the value of the digits, with the sign applied.
    ensures r.Some? && s[0] == '-' ==> AllDigits(s[1..]) && r.value + DigitsValue(s[1..]) == 0
    ensures r.Some? && s[0] == '+' ==> AllDigits(s[1..]) && r.value == DigitsValue(s[1..])
    ensures r.Some? && s[0] != '-' && s[0] != '+' ==> AllDigits(s) && r.value == DigitsValue(s)
    // Every unsigned digit string whose value fits is accepted.
    ensures |s| > 0 && AllDigits(s) && DigitsValue(s) <= ISIZE_MAX ==> r == Some(DigitsValue(s))
  {
    var negative := |s| > 0 && s[0] == '-';
    var body := if |s| > 0 && (s[0] == '-' || s[0] == '+') then s[1..] else s;
    if |body| == 0 || !AllDigits(body) then None
    else
      var v: int := if negative then 0 - (DigitsValue(body) as int) else DigitsValue(body);
      if ISIZE_MIN <= v <= ISIZE_MAX then Some(v) else None
  }

  /** Keys the loader meets: signs and leading zeros are accepted, blanks,
      letters and bare signs are not. */
  lemma ParseIsizeExamples()
    ensures ParseIsize("") == None && ParseIsize("+") == None && ParseIsize("-") == None
    ensures ParseIsize("1a") == None && ParseIsize(" 1") == None
    ensures ParseIsize("+5") == Some(5) && ParseIsize("007") == Some(7) && ParseIsize("-0") == Some(0)
  {
    assert !IsDigit('a') && !IsDigit(' ');
    assert DigitsValue("0") == 0 && DigitsValue("00") == 0;
    assert "007"[..2] == "00" && "00"[..1] == "0";
  }

  lemma {:induction false} DigitsValueOfNatToString(n: nat)
    ensures DigitsValue(NatToString(n)) == n
    decreases n
  {
    var s := NatToString(n);
    if n >= 10 {
      DigitsValueOfNatToString(n / 10);
      assert s[..|s| - 1] == NatToString(n / 10);
    }
  }

  /** Rendering an isize and parsing it back gives the same value. */
  lemma ParseIsizeOfIntToString(i: int)
    requires ISIZE_MIN <= i <= ISIZE_MAX
    ensures ParseIsize(IntToString(i)) == Some(i)
  {
    if i < 0 {
      DigitsValueOfNatToString(-i);
      assert IntToString(i)[1..] == NatToString(-i);
    } else {
      DigitsValueOfNatToString(i);
    }
  }

  /** Distinct naturals have distinct renderings. */
  lemma NatToStringInjective(a: nat, b: nat)
    requires NatToString(a) == NatToString(b)
    ensures a == b
  {
    DigitsValueOfNatToString(a);
    DigitsValueOfNatToString(b);
  }
}
