/** Decimal text of numbers, and reading it back. */
module Decimal {

  import opened PartPlan

  predicate IsDigit(c: char) {
    '0' <= c <= '9'
  }

  function Digit(d: nat): (c: char)
    requires d < 10
    ensures IsDigit(c)
  {
    ('0' as int + d) as char
  }

  function DigitValue(c: char): (d: nat)
    requires IsDigit(c)
  {
    c as int - '0' as int
  }

  /** `std::to_string` of an unsigned number. */
  function ToString(n: nat): (s: string)
    ensures |s| > 0 && forall i :: 0 <= i < |s| ==> IsDigit(s[i])
  {
    if n < 10 then [Digit(n)] else ToString(n / 10) + [Digit(n % 10)]
  }

  /** `std::to_string` of a signed number. */
  function IntToString(n: int): string {
    if n < 0 then "-" + ToString(-n) else ToString(n)
  }

  /** The longest run of digits at the front. */
  function DigitRun(s: string): (r: string)
    ensures r <= s && forall i :: 0 <= i < |r| ==> IsDigit(r[i])
    ensures |r| < |s| ==> !IsDigit(s[|r|])
  {
    if s == "" || !IsDigit(s[0]) then "" else [s[0]] + DigitRun(s[1..])
  }

  function DigitsValue(s: string): nat
    requires forall i :: 0 <= i < |s| ==> IsDigit(s[i])
  {
    if s == "" then 0 else 10 * DigitsValue(s[..|s| - 1]) + DigitValue(s[|s| - 1])
  }

  /** `_strtoui64` on digits: reads the leading run, saturating at 2^64 - 1. */
  function ReadU64(s: string): u64 {
    Min(DigitsValue(DigitRun(s)), U64 - 1)
  }

  /** `IntAttribute`: an optional minus sign and a run of digits. */
  function ReadInt(s: string): int {
    var negative := s != "" && s[0] == '-';
    var magnitude: int := DigitsValue(DigitRun(if negative then s[1..] else s));
    if negative then -magnitude else magnitude
  }

  lemma {:induction false} DigitsValueOfToString(n: nat)
    ensures DigitsValue(ToString(n)) == n
  {
    if n < 10 {
      assert DigitsValue([]) == 0;
    } else {
      DigitsValueOfToString(n / 10);
      assert ToString(n)[..|ToString(n)| - 1] == ToString(n / 10);
    }
  }

  /** The digits of a number end where the next non-digit starts. */
  lemma DigitRunOf(digits: string, rest: string)
    requires forall i :: 0 <= i < |digits| ==> IsDigit(digits[i])
    requires rest != "" ==> !IsDigit(rest[0])
    ensures DigitRun(digits + rest) == digits
  {
    var s, r := digits + rest, DigitRun(digits + rest);
    assert forall i :: 0 <= i < |digits| ==> s[i] == digits[i];
    assert rest != "" ==> s[|digits|] == rest[0];
    assert |r| == |digits|;
    assert r == s[..|r|];
  }

  lemma DecimalRoundTrip(n: nat, rest: string)
    requires rest != "" ==> !IsDigit(rest[0])
    ensures DigitRun(ToString(n) + rest) == ToString(n)
    ensures DigitsValue(DigitRun(ToString(n) + rest)) == n
  {
    DigitRunOf(ToString(n), rest);
    DigitsValueOfToString(n);
  }

  lemma ReadBack(n: int)
    ensures ReadInt(IntToString(n)) == n
    ensures 0 <= n < U64 ==> ReadU64(ToString(n)) == n
  {
    var a := if n < 0 then -n else n;
    DecimalRoundTrip(a, "");
    assert ToString(a) + "" == ToString(a);
    if n < 0 {
      assert IntToString(n)[1..] == ToString(a);
    }
  }
}
