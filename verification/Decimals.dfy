/** Decimal text of an integer, and Rust's parsing of an unsigned one. */
module Decimals {
  import opened Wrappers

  function Digit(d: int): char
    requires 0 <= d < 10
  {
    '0' + d as char
  }

  function Digits(n: nat): (s: string)
    ensures s != [] && '0' <= s[0] <= '9' && (s[0] == '0' ==> n == 0)
  {
    if n < 10 then [Digit(n)] else Digits(n / 10) + [Digit(n % 10)]
  }

  /** to_string of an i32. */
  function Decimal(x: int): string {
    if x < 0 then "-" + Digits(-x) else Digits(x)
  }

  /** Value of a text of decimal digits, None if anything else occurs in it. */
  function DigitsValue(s: string): Option<nat> {
    if s == "" then Some(0)
    else
      var front := DigitsValue(s[..|s| - 1]);
      var c := s[|s| - 1];
      if front.None? || !('0' <= c <= '9') then None
      else Some(front.value * 10 + (c as int - '0' as int))
  }

  /** str::parse of an unsigned integer: an optional plus sign, at least one
      digit, nothing else, and no overflow. */
  function ParseUnsigned(s: string, max: nat): (r: Option<nat>)
    ensures r.Some? ==> r.value <= max
  {
    var digits := if s != "" && s[0] == '+' then s[1..] else s;
    var value := DigitsValue(digits);
    if digits == "" || value.None? || value.value > max then None else value
  }

  lemma {:induction false} DigitsValueOfDigits(n: nat)
    ensures DigitsValue(Digits(n)) == Some(n)
  {
    var s := Digits(n);
    assert s[|s| - 1] == Digit(n % 10);
    if n < 10 {
      assert s[..0] == "";
    } else {
      assert s[..|s| - 1] == Digits(n / 10);
      DigitsValueOfDigits(n / 10);
    }
  }

  /** Printing and parsing an unsigned number gives it back. */
  lemma ParsePrinted(n: nat, max: nat)
    requires n <= max
    ensures ParseUnsigned(Digits(n), max) == Some(n)
  {
    DigitsValueOfDigits(n);
  }

  /** An i32 in text: a minus sign exactly when negative, then the digits of its
      magnitude. */
  lemma DecimalMeans(x: int)
    ensures x >= 0 ==> Decimal(x)[0] != '-' && DigitsValue(Decimal(x)) == Some(x)
    ensures x < 0 ==> Decimal(x)[0] == '-' && DigitsValue(Decimal(x)[1..]) == Some(-x)
  {
    DigitsValueOfDigits(if x < 0 then -x else x);
    assert x < 0 ==> Decimal(x)[1..] == Digits(-x);
  }

  lemma DecimalInjective(x: int, y: int)
    requires Decimal(x) == Decimal(y)
    ensures x == y
  {
    DecimalMeans(x);
    DecimalMeans(y);
  }

  // ----- what parses

  predicate AllDigits(s: string) {
    forall i :: 0 <= i < |s| ==> '0' <= s[i] <= '9'
  }

  lemma {:induction false} DigitsValueIff(s: string)
    ensures DigitsValue(s).Some? <==> AllDigits(s)
  {
    if s != "" {
      DigitsValueIff(s[..|s| - 1]);
    }
  }

  function AfterPlus(s: string): string {
    if s != "" && s[0] == '+' then s[1..] else s
  }

  /** Exactly which texts parse: after an optional plus sign, digits and at least
      one, of a value no larger than the greatest. */
  lemma ParsesIff(s: string, max: nat)
    ensures ParseUnsigned(s, max).Some? <==>
      && AfterPlus(s) != "" && AllDigits(AfterPlus(s))
      && DigitsValue(AfterPlus(s)).Some? && DigitsValue(AfterPlus(s)).value <= max
    ensures ParseUnsigned(s, max).Some? ==> ParseUnsigned(s, max) == DigitsValue(AfterPlus(s))
  {
    DigitsValueIff(AfterPlus(s));
  }

  lemma ParsePlus(n: nat, max: nat)
    requires n <= max
    ensures ParseUnsigned("+" + Digits(n), max) == Some(n)
  {
    DigitsValueOfDigits(n);
    assert ("+" + Digits(n))[1..] == Digits(n);
  }
}
