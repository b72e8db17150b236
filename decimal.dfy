/**
 * Decimal rendering of integers, as the `create` arguments are built with
 * `BigNumber(..).integerValue().toString()` and `Number.prototype.toString()`,
 * together with the reading a receiver applies to such a numeral.
 */
module Decimal {
  import opened Wrappers

  predicate IsDigit(c: char) {
    '0' <= c <= '9'
  }

  predicate AllDigits(s: string) {
    forall i :: 0 <= i < |s| ==> IsDigit(s[i])
  }

  function DigitValue(c: char): (d: nat)
    requires IsDigit(c)
    ensures d < 10
  {
    c as int - '0' as int
  }

  function DigitChar(d: nat): (c: char)
    requires d < 10
    ensures IsDigit(c) && DigitValue(c) == d
  {
    ('0' as int + d) as char
  }

  /** The numeral of a natural number: digits only, and no leading zero except for 0 itself. */
  function NatString(x: nat): (s: string)
    ensures |s| > 0 && AllDigits(s)
    ensures s[0] == '0' <==> x == 0
    ensures x == 0 ==> s == "0"
    decreases x
  {
    if x < 10 then [DigitChar(x)] else NatString(x / 10) + [DigitChar(x % 10)]
  }

  /** The value of a run of digits, most significant first; the empty run is worth 0. */
  function DigitsValue(s: string): nat
    requires AllDigits(s)
    decreases |s|
  {
    if s == [] then 0 else DigitsValue(s[..|s| - 1]) * 10 + DigitValue(s[|s| - 1])
  }

  /** An integer as its string form: a minus sign for negative values, then the numeral of the magnitude. */
  function DecimalString(x: int): (s: string)
    ensures |s| > 0
    ensures s[0] == '-' <==> x < 0
  {
    if x < 0 then "-" + NatString(-x) else NatString(x)
  }

  /** Reads an optionally signed decimal numeral; anything else is rejected. */
  function ParseDecimal(s: string): Option<int> {
    var magnitude := if |s| > 0 && s[0] == '-' then s[1..] else s;
    if |magnitude| == 0 || !AllDigits(magnitude) then None
    else if magnitude == s then Some(DigitsValue(magnitude))
    else Some(0 - DigitsValue(magnitude))
  }

  lemma {:induction false} NatStringRoundTrip(x: nat)
    ensures DigitsValue(NatString(x)) == x
  {
    if x >= 10 {
      var s := NatString(x);
      assert s[..|s| - 1] == NatString(x / 10);
      NatStringRoundTrip(x / 10);
    }
  }

  /** Every integer's string form reads back as that integer. */
  lemma DecimalRoundTrip(x: int)
    ensures ParseDecimal(DecimalString(x)) == Some(x)
  {
    if x < 0 {
      var s := DecimalString(x);
      assert s[1..] == NatString(-x);
      NatStringRoundTrip(-x);
    } else {
      NatStringRoundTrip(x);
    }
  }

  /** Distinct integers never render to the same string. */
  lemma DecimalStringInjective(x: int, y: int)
    ensures DecimalString(x) == DecimalString(y) ==> x == y
  {
    DecimalRoundTrip(x);
    DecimalRoundTrip(y);
  }
}
