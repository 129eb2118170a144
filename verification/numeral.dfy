/** `getDate().toString()`: the day of the month as a plain decimal numeral, most
    significant digit first, with no leading zero. */
module Numeral {

  predicate IsDigit(ch: char) {
    '0' <= ch <= '9'
  }

  function Digit(d: nat): (ch: char)
    requires d < 10
    ensures IsDigit(ch)
    ensures DigitValue(ch) == d
  {
    ('0' as int + d) as char
  }

  /** The decimal numeral of `n`. */
  function Decimal(n: nat): (s: string)
    ensures |s| >= 1
    ensures forall i :: 0 <= i < |s| ==> IsDigit(s[i])
    ensures s[0] == '0' ==> n == 0
    ensures |s| == 1 <==> n < 10
    ensures n < 100 ==> |s| <= 2
    decreases n
  {
    if n < 10 then [Digit(n)] else Decimal(n / 10) + [Digit(n % 10)]
  }

  /** The value a string of digits denotes (the reading a user makes of the icon). */
  function ValueOf(s: string): nat
    requires forall i :: 0 <= i < |s| ==> IsDigit(s[i])
    decreases |s|
  {
    if |s| == 0 then 0
    else ValueOf(s[..|s| - 1]) * 10 + DigitValue(s[|s| - 1])
  }

  function DigitValue(ch: char): nat
    requires IsDigit(ch)
  {
    (ch as int) - ('0' as int)
  }

  /** Reading the numeral back gives the day: nothing is lost or reordered. */
  lemma {:induction false} DecimalRoundTrip(n: nat)
    ensures ValueOf(Decimal(n)) == n
    decreases n
  {
    var s := Decimal(n);
    if n >= 10 {
      DecimalRoundTrip(n / 10);
      assert s[..|s| - 1] == Decimal(n / 10);
    }
  }

  /** Different days give different numerals. */
  lemma DecimalInjective(m: nat, n: nat)
    requires Decimal(m) == Decimal(n)
    ensures m == n
  {
    DecimalRoundTrip(m);
    DecimalRoundTrip(n);
  }

  /** Days 1 to 9 are one digit and days 10 to 31 two, never zero-padded. */
  lemma DayOfMonthNumeral(day: nat)
    requires 1 <= day <= 31
    ensures |Decimal(day)| == (if day < 10 then 1 else 2)
    ensures Decimal(day)[0] != '0'
  {
  }

  lemma Examples()
    ensures Decimal(7) == "7"
    ensures Decimal(10) == "10"
    ensures Decimal(31) == "31"
  {
  }
}
