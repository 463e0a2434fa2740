/**
 * The identifiers GETB issues for a barcode series: the series prefix, the eight-digit
 * number `range * 1000000 + serial`, a check digit, and the country code. The check
 * digit is the one of the UPU S10 standard for postal item identifiers: the eight
 * digits weighted by 8, 6, 4, 2, 3, 5, 9, 7, the sum taken modulo 11, and the
 * remainder mapped 0 to 5, 1 to 0 and any other r to 11 - r.
 */
module Barcode {
  import opened Wrappers
  import opened Text
  import opened Entities

  /** The weights of the eight digits. */
  const Factors: seq<nat> := [8, 6, 4, 2, 3, 5, 9, 7]

  /** The number a series' next identifier carries. */
  function SerialNumber(b: BarcodeGroup): int {
    b.range * 1000000 + b.serial
  }

  /** The weighted sum of the first `n` digits of an identifier's numeral. */
  function WeightedSum(digits: string, n: nat): nat
    requires n <= 8 && n <= |digits| && AllDigits(digits)
  {
    if n == 0 then 0
    else WeightedSum(digits, n - 1) + Factors[n - 1] * DigitValue(digits[n - 1])
  }

  /** The check digit of a weighted sum. It makes the sum plus the digit a multiple of 11 unless the remainder is 0 or 1. */
  function CheckDigit(sum: nat): (d: nat)
    ensures d < 10
    ensures sum % 11 == 0 ==> d == 5
    ensures sum % 11 == 1 ==> d == 0
    ensures sum % 11 >= 2 ==> (sum + d) % 11 == 0
  {
    var r := sum % 11;
    if r == 0 then 5 else if r == 1 then 0 else 11 - r
  }

  /**
   * The identifier GETB replies with, or nothing when the number is negative (its
   * `%08d` numeral then starts with `-`, which `int()` refuses).
   */
  function IdentifierOf(b: BarcodeGroup): (r: Option<string>)
    ensures r.Some? <==> SerialNumber(b) >= 0
  {
    var no := SerialNumber(b);
    if no < 0 then None
    else
      var digits := Pad8(no);
      Some(b.prefix + digits + [DigitChar(CheckDigit(WeightedSum(digits, 8)))] + b.country)
  }

  /** What an identifier is made of: prefix, the padded number, the check digit of its first eight digits, country. */
  lemma IdentifierParts(b: BarcodeGroup)
    requires SerialNumber(b) >= 0
    ensures var digits := Pad8(SerialNumber(b));
      && IdentifierOf(b) == Some(b.prefix + digits + [DigitChar(CheckDigit(WeightedSum(digits, 8)))] + b.country)
      && ParseInt(digits) == Some(SerialNumber(b))
  {
    ParseIntOfPad8(SerialNumber(b));
  }

  /** Computes the identifier as GETB does, summing the weighted digits in a loop. */
  method Identify(b: BarcodeGroup) returns (r: Option<string>)
    ensures r == IdentifierOf(b)
  {
    var no := b.range * 1000000 + b.serial;
    if no < 0 {
      return None;
    }
    var digits := Pad8(no);
    var sum := 0;
    var i := 0;
    while i < |Factors|
      invariant 0 <= i <= 8
      invariant sum == WeightedSum(digits, i)
    {
      sum := sum + Factors[i] * DigitValue(digits[i]);
      i := i + 1;
    }
    var check := sum % 11;
    if check == 0 {
      check := 5;
    } else if check == 1 {
      check := 0;
    } else {
      check := 11 - check;
    }
    r := Some(b.prefix + digits + [DigitChar(check)] + b.country);
  }

  /** The value of an eight-digit numeral, digit by digit. */
  lemma EightDigitsValue(d: string)
    requires |d| == 8 && AllDigits(d)
    ensures DigitsValue(d) == ((((((DigitValue(d[0]) * 10 + DigitValue(d[1])) * 10 + DigitValue(d[2])) * 10
      + DigitValue(d[3])) * 10 + DigitValue(d[4])) * 10 + DigitValue(d[5])) * 10 + DigitValue(d[6])) * 10 + DigitValue(d[7])
  {
    assert d[..1][..0] == [];
    assert DigitsValue(d[..1]) == DigitValue(d[0]);
    assert d[..2][..1] == d[..1];
    assert DigitsValue(d[..2]) == DigitsValue(d[..1]) * 10 + DigitValue(d[1]);
    assert d[..3][..2] == d[..2];
    assert DigitsValue(d[..3]) == DigitsValue(d[..2]) * 10 + DigitValue(d[2]);
    assert d[..4][..3] == d[..3];
    assert DigitsValue(d[..4]) == DigitsValue(d[..3]) * 10 + DigitValue(d[3]);
    assert d[..5][..4] == d[..4];
    assert DigitsValue(d[..5]) == DigitsValue(d[..4]) * 10 + DigitValue(d[4]);
    assert d[..6][..5] == d[..5];
    assert DigitsValue(d[..6]) == DigitsValue(d[..5]) * 10 + DigitValue(d[5]);
    assert d[..7][..6] == d[..6];
    assert DigitsValue(d[..7]) == DigitsValue(d[..6]) * 10 + DigitValue(d[6]);
    assert d[..7] == d[..|d| - 1];
  }

  /** The weighted sum of an eight-digit numeral, digit by digit. */
  lemma EightDigitsSum(d: string)
    requires |d| == 8 && AllDigits(d)
    ensures WeightedSum(d, 8) == 8 * DigitValue(d[0]) + 6 * DigitValue(d[1]) + 4 * DigitValue(d[2]) + 2 * DigitValue(d[3])
      + 3 * DigitValue(d[4]) + 5 * DigitValue(d[5]) + 9 * DigitValue(d[6]) + 7 * DigitValue(d[7])
  {
    assert WeightedSum(d, 1) == 8 * DigitValue(d[0]);
    assert WeightedSum(d, 2) == WeightedSum(d, 1) + 6 * DigitValue(d[1]);
    assert WeightedSum(d, 3) == WeightedSum(d, 2) + 4 * DigitValue(d[2]);
    assert WeightedSum(d, 4) == WeightedSum(d, 3) + 2 * DigitValue(d[3]);
    assert WeightedSum(d, 5) == WeightedSum(d, 4) + 3 * DigitValue(d[4]);
    assert WeightedSum(d, 6) == WeightedSum(d, 5) + 5 * DigitValue(d[5]);
    assert WeightedSum(d, 7) == WeightedSum(d, 6) + 9 * DigitValue(d[6]);
  }

  /**
   * The identifier of a series whose number is written by the eight-digit numeral `d`
   * with no leading zero, and the weighted sum of that numeral.
   */
  lemma IdentifierOfNumeral(b: BarcodeGroup, d: string)
    requires |d| == 8 && AllDigits(d) && d[0] != '0'
    requires SerialNumber(b) == DigitsValue(d)
    ensures IdentifierOf(b) == Some(b.prefix + d + [DigitChar(CheckDigit(WeightedSum(d, 8)))] + b.country)
  {
    NatToStringOfNumeral(d);
    assert Pad8(SerialNumber(b)) == d;
  }

  /** The identifier of the example series EE-16-AU at serial 56796 is EE160567961AU. */
  lemma FirstExampleIdentifier(b: BarcodeGroup, d: string)
    requires b.prefix == "EE" && b.range == 16 && b.country == "AU" && b.serial == 56796
    requires d == "16056796"
    ensures IdentifierOf(b) == Some("EE160567961AU")
  {
    EightDigitsValue(d);
    EightDigitsSum(d);
    IdentifierOfNumeral(b, d);
    assert WeightedSum(d, 8) == 230 && CheckDigit(230) == 1;
    assert "EE" + d + [DigitChar(1)] + "AU" == "EE160567961AU";
  }

  /** The next identifier of the same series is EE160567975AU. */
  lemma SecondExampleIdentifier(b: BarcodeGroup, d: string)
    requires b.prefix == "EE" && b.range == 16 && b.country == "AU" && b.serial == 56797
    requires d == "16056797"
    ensures IdentifierOf(b) == Some("EE160567975AU")
  {
    EightDigitsValue(d);
    EightDigitsSum(d);
    IdentifierOfNumeral(b, d);
    assert WeightedSum(d, 8) == 237 && CheckDigit(237) == 5;
    assert "EE" + d + [DigitChar(5)] + "AU" == "EE160567975AU";
  }
}
