/** The zero-padding formatter the logger uses for logical timestamps and
    message counters. */
module Logger {
  import opened Decimal

  /** Minimum width of a formatted number. */
  const LoggerNumberDigits: nat := 4

  /** The formatter's `unsigned long` argument (64 bits wide). */
  type ULong = n: nat | n < 0x1_0000_0000_0000_0000

  function Max(a: nat, b: nat): nat {
    if a < b then b else a
  }

  /** The decimal numeral of `number`, left-padded with '0' up to the minimum
      width; numerals already that wide are left as they are. */
  function FormattedNumber(number: ULong): (r: string)
    ensures |r| == Max(|NatToString(number)|, LoggerNumberDigits)
    ensures AllDigits(r)
    ensures r[|r| - |NatToString(number)|..] == NatToString(number)
    ensures forall i :: 0 <= i < |r| - |NatToString(number)| ==> r[i] == '0'
  {
    var numberAsString := NatToString(number);
    if |numberAsString| < LoggerNumberDigits then
      Zeros(LoggerNumberDigits - |numberAsString|) + numberAsString
    else
      numberAsString
  }

  /** Reading a formatted number as decimal gives the number back. */
  lemma FormattedNumberRoundTrip(number: ULong)
    ensures ParseNat(FormattedNumber(number)) == number
  {
    var s := NatToString(number);
    ParseNatToString(number);
    if |s| < LoggerNumberDigits {
      ParseNatLeadingZeros(LoggerNumberDigits - |s|, s);
    }
  }

  /** A numeral of at least the minimum width is returned unchanged. */
  lemma FormattedNumberWide(number: ULong)
    requires |NatToString(number)| >= LoggerNumberDigits
    ensures FormattedNumber(number) == NatToString(number)
  {
  }

  /** Numbers below 10000 come out exactly four characters wide. */
  lemma FormattedNumberNarrow(number: ULong)
    requires number < 10000
    ensures |FormattedNumber(number)| == LoggerNumberDigits
  {
    NumeralLengthBound(number, 4);
  }

  /** A number below 10^k has a numeral of at most k digits. */
  lemma {:induction false} NumeralLengthBound(n: nat, k: nat)
    requires n < Pow10(k)
    ensures |NatToString(n)| <= Max(k, 1)
  {
    if n >= 10 {
      assert k >= 2;
      NumeralLengthBound(n / 10, k - 1);
    }
  }

  function Pow10(k: nat): (p: nat)
    ensures p >= 1
  {
    if k == 0 then 1 else 10 * Pow10(k - 1)
  }
}
