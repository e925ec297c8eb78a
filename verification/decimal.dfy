/**
 * Decimal text of integers, as JavaScript's String() writes an integral
 * number of magnitude at most 2^53, together with the parser that inverts it.
 */
module Decimal {
  import opened Wrappers

  predicate IsDigit(c: char) {
    '0' <= c <= '9'
  }

  predicate AllDigits(s: string) {
    forall i :: 0 <= i < |s| ==> IsDigit(s[i])
  }

  function DigitChar(d: nat): (c: char)
    requires d < 10
    ensures IsDigit(c) && c as int - '0' as int == d
  {
    ('0' as int + d) as char
  }

  function DigitValue(c: char): nat
    requires IsDigit(c)
  {
    c as int - '0' as int
  }

  /** The shortest decimal numeral of `n`: digits only, no leading zero. */
  function FromNat(n: nat): (s: string)
    ensures |s| >= 1 && AllDigits(s)
    ensures s[0] == '0' <==> n == 0
    decreases n
  {
    if n < 10 then [DigitChar(n)] else FromNat(n / 10) + [DigitChar(n % 10)]
  }

  /** The value of a digit string, most significant digit first. */
  function ValueOf(s: string): nat
    requires AllDigits(s)
  {
    if s == [] then 0 else 10 * ValueOf(s[..|s| - 1]) + DigitValue(s[|s| - 1])
  }

  lemma {:induction false} ValueOfFromNat(n: nat)
    ensures ValueOf(FromNat(n)) == n
  {
    if n >= 10 {
      var s := FromNat(n);
      assert s[..|s| - 1] == FromNat(n / 10);
      ValueOfFromNat(n / 10);
    }
  }

  /** Integral numbers as a template literal shows them: a minus sign, then the numeral. */
  function FromInt(i: int): (s: string)
    ensures |s| >= 1
    ensures s[0] == '-' <==> i < 0
  {
    if i < 0 then "-" + FromNat(-i) else FromNat(i)
  }

  /** Accepts exactly the canonical numerals that FromInt writes. */
  function ToInt(s: string): Option<int> {
    if |s| >= 2 && s[0] == '-' && AllDigits(s[1..]) && s[1] != '0' then
      var v: int := ValueOf(s[1..]);
      Some(-v)
    else if |s| >= 1 && AllDigits(s) && (s[0] != '0' || s == "0") then
      Some(ValueOf(s))
    else
      None
  }

  /** FromInt loses nothing: the numeral reads back as the number it was written from. */
  lemma FromIntRoundTrip(i: int)
    ensures ToInt(FromInt(i)) == Some(i)
  {
    if i < 0 {
      NegativeRoundTrip(i);
    } else {
      ValueOfFromNat(i);
    }
  }

  lemma NegativeRoundTrip(i: int)
    requires i < 0
    ensures ToInt(FromInt(i)) == Some(i)
  {
    var s := FromInt(i);
    var digits := FromNat(-i);
    assert s == "-" + digits;
    assert s[1..] == digits;
    assert s[1] == digits[0] != '0';
    ValueOfFromNat(-i);
  }

  lemma FromIntInjective(i: int, j: int)
    ensures FromInt(i) == FromInt(j) ==> i == j
  {
    FromIntRoundTrip(i);
    FromIntRoundTrip(j);
  }
}
