/**
 * Booking identifiers: `'BK-' + n`, where JavaScript renders the integer `n`
 * in decimal. The random draw of `n` is a parameter of the model.
 */
module BookingIds {

  predicate IsDigit(c: char) {
    '0' <= c <= '9'
  }

  predicate AllDigits(s: string) {
    forall i :: 0 <= i < |s| ==> IsDigit(s[i])
  }

  function DigitChar(d: nat): (c: char)
    requires d < 10
    ensures IsDigit(c) && (c as int) - ('0' as int) == d
  {
    (('0' as int) + d) as char
  }

  /** The decimal rendering of a non-negative integer, without leading zeros. */
  function Decimal(n: nat): (s: string)
    ensures |s| >= 1 && AllDigits(s)
    ensures n >= 10 ==> s[0] != '0'
    decreases n
  {
    if n < 10 then [DigitChar(n)] else Decimal(n / 10) + [DigitChar(n % 10)]
  }

  /** The value of a string of decimal digits. */
  function ParseDecimal(s: string): (n: nat)
    requires AllDigits(s)
  {
    if s == [] then 0
    else ParseDecimal(s[..|s| - 1]) * 10 + ((s[|s| - 1] as int) - ('0' as int))
  }

  lemma {:induction false} ParseDecimalOfDecimal(n: nat)
    ensures ParseDecimal(Decimal(n)) == n
    decreases n
  {
    if n >= 10 {
      var s := Decimal(n);
      assert s[..|s| - 1] == Decimal(n / 10);
      ParseDecimalOfDecimal(n / 10);
    }
  }

  /** Numbers with a given count of digits: 10^(k-1) <= n < 10^k. */
  lemma {:induction false} DecimalLength(n: nat)
    ensures n < 10 ==> |Decimal(n)| == 1
    ensures 10 <= n < 100 ==> |Decimal(n)| == 2
    ensures 100 <= n < 1000 ==> |Decimal(n)| == 3
    ensures 1000 <= n < 10000 ==> |Decimal(n)| == 4
    decreases n
  {
    if n >= 10 {
      DecimalLength(n / 10);
    }
  }

  function BookingId(n: nat): (id: string)
    ensures |id| == 3 + |Decimal(n)| && id[..3] == "BK-"
    ensures id[3..] == Decimal(n)
  {
    "BK-" + Decimal(n)
  }

  /**
   * For the range the random draw produces, the identifier is `BK-` and then
   * exactly four digits that read back as `n`.
   */
  lemma BookingIdShape(n: nat)
    requires 1000 <= n <= 9999
    ensures |BookingId(n)| == 7
    ensures BookingId(n)[..3] == "BK-"
    ensures AllDigits(BookingId(n)[3..]) && BookingId(n)[3] != '0'
    ensures ParseDecimal(BookingId(n)[3..]) == n
  {
    DecimalLength(n);
    assert BookingId(n)[3..] == Decimal(n);
    ParseDecimalOfDecimal(n);
  }

  /** Two bookings get the same identifier exactly when the draws coincide. */
  lemma BookingIdInjective(n: nat, m: nat)
    ensures BookingId(n) == BookingId(m) <==> n == m
  {
    if BookingId(n) == BookingId(m) {
      assert BookingId(n)[3..] == Decimal(n);
      assert BookingId(m)[3..] == Decimal(m);
      ParseDecimalOfDecimal(n);
      ParseDecimalOfDecimal(m);
    }
  }
}
