/** Decimal text and Rust's `u16`.

    `u16::from_str` accepts one optional leading '+' followed by at least one
    ASCII digit, and rejects the text when the value exceeds 65535; there is
    no trimming and no '-' for an unsigned type. `Accumulate` reads the digits
    left to right and fails as soon as the running value overflows, the way
    the standard library's checked accumulation does; `DecimalValue` is an
    independent right-to-left reading used to state what it computes. */
module Decimal {
  import opened Wrappers

  /** Rust's `u16` as a range of the unbounded integers. */
  type U16 = x: int | 0 <= x <= 0xFFFF

  const U16Max: nat := 0xFFFF

  predicate IsDigit(c: char) {
    '0' <= c <= '9'
  }

  predicate AllDigits(s: string) {
    forall i :: 0 <= i < |s| ==> IsDigit(s[i])
  }

  function DigitValue(c: char): nat
    requires IsDigit(c)
  {
    c as int - '0' as int
  }

  function DigitChar(v: nat): char
    requires v < 10
  {
    ('0' as int + v) as char
  }

  function Pow10(n: nat): nat {
    if n == 0 then 1 else 10 * Pow10(n - 1)
  }

  /** The value of a digit string, read from its last (least significant) digit. */
  function DecimalValue(s: string): nat
    requires AllDigits(s)
    decreases |s|
  {
    if |s| == 0 then 0 else DecimalValue(s[..|s| - 1]) * 10 + DigitValue(s[|s| - 1])
  }

  /** The text `u16::from_str` reads as digits: all of it after one optional leading '+'. */
  function Magnitude(s: string): string {
    if |s| > 0 && s[0] == '+' then s[1..] else s
  }

  /** Exactly the strings `u16::from_str` accepts. */
  predicate IsU16Literal(s: string) {
    var m := Magnitude(s);
    |m| > 0 && AllDigits(m) && DecimalValue(m) <= U16Max
  }

  /** Reading a digit string from its first digit: the first digit weighs 10^(n-1). */
  lemma {:induction false} DecimalValueFromFront(s: string)
    requires |s| > 0 && AllDigits(s)
    ensures DecimalValue(s) == DigitValue(s[0]) * Pow10(|s| - 1) + DecimalValue(s[1..])
    decreases |s|
  {
    if |s| == 1 {
      assert s[1..] == [];
      assert s[..0] == [];
    } else {
      var init := s[..|s| - 1];
      DecimalValueFromFront(init);
      assert init[0] == s[0];
      assert init[1..] == s[1..][..|s[1..]| - 1];
      assert s[1..][|s[1..]| - 1] == s[|s| - 1];
      assert DecimalValue(s) == DecimalValue(init) * 10 + DigitValue(s[|s| - 1]);
      assert DecimalValue(s[1..]) == DecimalValue(init[1..]) * 10 + DigitValue(s[|s| - 1]);
      assert Pow10(|s| - 1) == Pow10(|s| - 2) * 10;
      ShiftDigit(DigitValue(s[0]), Pow10(|s| - 2), DecimalValue(init[1..]), DigitValue(s[|s| - 1]));
    }
  }

  lemma ShiftDigit(d: nat, p: nat, v: nat, e: nat)
    ensures (d * p + v) * 10 + e == d * (p * 10) + (v * 10 + e)
  {
    calc {
      (d * p + v) * 10 + e;
      (d * p) * 10 + v * 10 + e;
      d * (p * 10) + (v * 10 + e);
    }
  }

  /** Left-to-right accumulation of `digits` onto `acc` with an overflow check
      after every step; None on a non-digit or when the value leaves u16. */
  function Accumulate(digits: string, acc: U16): (r: Option<U16>)
    ensures r.Some? <==> AllDigits(digits) && acc * Pow10(|digits|) + DecimalValue(digits) <= U16Max
    ensures r.Some? ==> r.value == acc * Pow10(|digits|) + DecimalValue(digits)
    decreases |digits|
  {
    if |digits| == 0 then
      Some(acc)
    else if !IsDigit(digits[0]) then
      None
    else
      var next := acc * 10 + DigitValue(digits[0]);
      if next > U16Max then
        AccumulateOverflow(digits, acc);
        None
      else
        AccumulateStep(digits, acc);
        Accumulate(digits[1..], next)
  }

  lemma AccumulateStep(digits: string, acc: nat)
    requires |digits| > 0 && IsDigit(digits[0])
    ensures AllDigits(digits) <==> AllDigits(digits[1..])
    ensures AllDigits(digits) ==>
      acc * Pow10(|digits|) + DecimalValue(digits)
      == (acc * 10 + DigitValue(digits[0])) * Pow10(|digits| - 1) + DecimalValue(digits[1..])
  {
    if AllDigits(digits) {
      DecimalValueFromFront(digits);
      assert Pow10(|digits|) == 10 * Pow10(|digits| - 1);
      Regroup(acc, DigitValue(digits[0]), Pow10(|digits| - 1));
    } else {
      var i :| 0 <= i < |digits| && !IsDigit(digits[i]);
      assert digits[1..][i - 1] == digits[i];
    }
  }

  lemma Regroup(a: nat, d: nat, p: nat)
    ensures a * (10 * p) + d * p == (a * 10 + d) * p
  {
    calc {
      (a * 10 + d) * p;
      (a * 10) * p + d * p;
      a * (10 * p) + d * p;
    }
  }

  lemma AccumulateOverflow(digits: string, acc: nat)
    requires |digits| > 0 && IsDigit(digits[0])
    requires acc * 10 + DigitValue(digits[0]) > U16Max
    ensures !(AllDigits(digits) && acc * Pow10(|digits|) + DecimalValue(digits) <= U16Max)
  {
    if AllDigits(digits) {
      AccumulateStep(digits, acc);
      Pow10Positive(|digits| - 1);
      AtLeastOnce(acc * 10 + DigitValue(digits[0]), Pow10(|digits| - 1));
    }
  }

  lemma AtLeastOnce(n: nat, p: nat)
    requires p >= 1
    ensures n * p >= n
  {
    calc {
      n * p;
      n * (p - 1) + n;
    >= n;
    }
  }

  lemma {:induction false} Pow10Positive(n: nat)
    ensures Pow10(n) >= 1
  {
    if n > 0 {
      Pow10Positive(n - 1);
    }
  }

  /** Rust's `u16::from_str`. */
  function ParseU16(s: string): (r: Option<U16>)
    ensures r.Some? <==> IsU16Literal(s)
    ensures r.Some? ==> r.value == DecimalValue(Magnitude(s))
  {
    var digits := Magnitude(s);
    if |digits| == 0 then None else Accumulate(digits, 0)
  }

  /** The shortest decimal rendering of `n` (no sign, no leading zero). */
  function Format(n: nat): (s: string)
    ensures |s| > 0 && AllDigits(s) && DecimalValue(s) == n
    ensures s[0] == '0' ==> n == 0
    decreases n
  {
    if n < 10 then
      [DigitChar(n)]
    else
      var front := Format(n / 10);
      var s := front + [DigitChar(n % 10)];
      assert s[..|s| - 1] == front;
      s
  }

  /** Every u16 survives rendering and re-parsing. */
  lemma ParseFormat(n: U16)
    ensures ParseU16(Format(n)) == Some(n)
    ensures ParseU16("+" + Format(n)) == Some(n)
  {
    var s := Format(n);
    assert Magnitude(s) == s;
    assert Magnitude("+" + s) == s;
  }

  /** A leading '-' is never accepted, whatever follows it. */
  lemma ParseRejectsMinus(s: string)
    ensures ParseU16("-" + s) == None
  {
    assert !IsDigit(("-" + s)[0]);
  }

  /** Leading zeros do not change the value. */
  lemma {:induction false} LeadingZero(s: string)
    requires |s| > 0 && AllDigits(s)
    ensures ParseU16("0" + s) == ParseU16(s)
  {
    var z := "0" + s;
    assert Magnitude(z) == z;
    assert s[0] != '+';
    assert Magnitude(s) == s;
    assert AllDigits(z);
    DecimalValueFromFront(z);
    assert z[1..] == s;
  }
}
