/** Decimal text of integers, as `to_string` writes it and `parse` reads it. */
module Decimal {
  import opened Prelude

  function Digit(d: nat): char
    requires d < 10
  {
    ('0' as int + d) as char
  }

  predicate IsDigit(c: char) { '0' <= c <= '9' }

  function FromNat(n: nat): string {
    if n < 10 then [Digit(n)] else FromNat(n / 10) + [Digit(n % 10)]
  }

  function FromInt(i: int): string {
    if i < 0 then "-" + FromNat(-i) else FromNat(i)
  }

  /** Value of a non-empty run of digits. */
  function DigitsValue(s: string): Option<nat>
    decreases |s|
  {
    if s == [] || !IsDigit(s[|s| - 1]) then None
    else
      var last := s[|s| - 1] as int - '0' as int;
      if |s| == 1 then Some(last)
      else
        match DigitsValue(s[..|s| - 1])
        case None => None
        case Some(v) => Some(10 * v + last)
  }

  /** `str::parse` for a signed integer type with bounds `lo` and `hi`. */
  function ParseInt(s: string, lo: int, hi: int): Option<int> {
    if s == [] then None
    else
      var negative := s[0] == '-';
      var digits := if negative || s[0] == '+' then s[1..] else s;
      match DigitsValue(digits)
      case None => None
      case Some(v) =>
        var value: int := if negative then -(v as int) else v;
        if lo <= value <= hi then Some(value) else None
  }

  lemma {:induction false} DigitsOfNat(n: nat)
    ensures FromNat(n) != [] && IsDigit(FromNat(n)[0])
    ensures DigitsValue(FromNat(n)) == Some(n)
  {
    if n >= 10 {
      DigitsOfNat(n / 10);
      var s := FromNat(n);
      assert s[..|s| - 1] == FromNat(n / 10);
    }
  }

  lemma ParseDigits(s: string, n: nat, lo: int, hi: int)
    requires s != [] && IsDigit(s[0]) && DigitsValue(s) == Some(n) && lo <= n <= hi
    ensures ParseInt(s, lo, hi) == Some(n)
  {}

  lemma ParseNegative(s: string, n: nat, lo: int, hi: int)
    requires DigitsValue(s) == Some(n) && lo <= -(n as int) <= hi
    ensures ParseInt("-" + s, lo, hi) == Some(-(n as int))
  {
    assert ("-" + s)[1..] == s;
  }

  /** Reading back what was written, for a value of the type. */
  lemma ParseOfInt(i: int, lo: int, hi: int)
    requires lo <= i <= hi
    ensures ParseInt(FromInt(i), lo, hi) == Some(i)
  {
    if i < 0 {
      DigitsOfNat(-i);
      ParseNegative(FromNat(-i), -i, lo, hi);
    } else {
      DigitsOfNat(i);
      ParseDigits(FromNat(i), i, lo, hi);
    }
  }

  lemma FromNatInjective(m: nat, n: nat)
    requires FromNat(m) == FromNat(n)
    ensures m == n
  {
    DigitsOfNat(m);
    DigitsOfNat(n);
  }

  /** Nearest integer, ties to even. */
  function RoundHalfEven(x: real): int {
    var f := x.Floor;
    var d := x - f as real;
    if d < 0.5 then f else if d > 0.5 then f + 1 else if f % 2 == 0 then f else f + 1
  }

  function PadLeft(s: string, width: nat): string
    decreases width - |s|
  {
    if |s| >= width then s else PadLeft("0" + s, width)
  }

  /** Four decimal places (`{:.4}`). */
  function Fixed4(x: real): string {
    var n := RoundHalfEven((if x < 0.0 then -x else x) * 10000.0);
    (if x < 0.0 then "-" else "") + FromInt(n / 10000) + "." + PadLeft(FromInt(n % 10000), 4)
  }
}
