/**
 * Generated identifiers: the `uuid4().hex` based suffixes of SKUs, order numbers and
 * ticket numbers, and the `%Y%m%d` date stamp of order numbers.  The random and
 * clock-derived inputs are parameters: `hex` stands for `uuid.uuid4().hex` and
 * `today` for `datetime.now()`.
 */
module Identifiers {

  predicate IsLowerHexChar(c: char) { '0' <= c <= '9' || 'a' <= c <= 'f' }

  predicate IsUpperHexChar(c: char) { '0' <= c <= '9' || 'A' <= c <= 'F' }

  predicate IsDigitChar(c: char) { '0' <= c <= '9' }

  predicate AllLowerHex(s: string) { forall i | 0 <= i < |s| :: IsLowerHexChar(s[i]) }

  predicate AllUpperHex(s: string) { forall i | 0 <= i < |s| :: IsUpperHexChar(s[i]) }

  predicate AllDigits(s: string) { forall i | 0 <= i < |s| :: IsDigitChar(s[i]) }

  /** What `uuid.uuid4().hex` always yields: 32 lower-case hexadecimal digits. */
  predicate IsUuidHex(s: string) { |s| == 32 && AllLowerHex(s) }

  /** `str.upper` on one hexadecimal digit. */
  function UpperChar(c: char): char
  {
    if 'a' <= c <= 'f' then (c as int - 32) as char else c
  }

  /** `str.upper` on a string of hexadecimal digits. */
  function UpperHex(s: string): (r: string)
    requires AllLowerHex(s)
    ensures |r| == |s| && AllUpperHex(r)
    ensures forall i | 0 <= i < |s| :: r[i] == UpperChar(s[i])
  {
    seq(|s|, i requires 0 <= i < |s| => UpperChar(s[i]))
  }

  /** Upper-casing loses nothing: different hex strings give different identifiers. */
  lemma UpperHexInjective(a: string, b: string)
    requires AllLowerHex(a) && AllLowerHex(b)
    requires UpperHex(a) == UpperHex(b)
    ensures a == b
  {
    assert |a| == |b|;
    forall i | 0 <= i < |a|
      ensures a[i] == b[i]
    {
      assert UpperChar(a[i]) == UpperHex(a)[i] == UpperHex(b)[i] == UpperChar(b[i]);
    }
  }

  function Pow10(n: nat): (r: nat)
    ensures r >= 1
  {
    if n == 0 then 1 else 10 * Pow10(n - 1)
  }

  function DigitChar(d: nat): (c: char)
    requires d < 10
    ensures IsDigitChar(c)
  {
    ('0' as int + d) as char
  }

  function DigitValue(c: char): (d: nat)
    requires IsDigitChar(c)
    ensures d < 10
  {
    c as int - '0' as int
  }

  /** `n` written in decimal, zero-padded (or cut) to `width` digits. */
  function Digits(n: nat, width: nat): (r: string)
    ensures |r| == width && AllDigits(r)
  {
    if width == 0 then [] else Digits(n / 10, width - 1) + [DigitChar(n % 10)]
  }

  /** The number a string of decimal digits denotes. */
  function DigitsValue(s: string): nat
    requires AllDigits(s)
  {
    if s == [] then 0 else DigitsValue(s[..|s| - 1]) * 10 + DigitValue(s[|s| - 1])
  }

  /** Zero-padding to a wide enough field is undone by reading the digits back. */
  lemma {:induction false} DigitsRoundTrip(n: nat, width: nat)
    requires n < Pow10(width)
    ensures DigitsValue(Digits(n, width)) == n
  {
    if width > 0 {
      var s := Digits(n, width);
      assert s[..|s| - 1] == Digits(n / 10, width - 1);
      DigitsRoundTrip(n / 10, width - 1);
    }
  }

  datatype Date = Date(year: nat, month: nat, day: nat)

  /** The dates `datetime` can represent. */
  predicate ValidDate(d: Date)
  {
    1 <= d.year <= 9999 && 1 <= d.month <= 12 && 1 <= d.day <= 31
  }

  /** `strftime('%Y%m%d')`: four-digit year, two-digit month, two-digit day. */
  function DateStamp(d: Date): (r: string)
    requires ValidDate(d)
    ensures |r| == 8 && AllDigits(r)
  {
    Digits(d.year, 4) + Digits(d.month, 2) + Digits(d.day, 2)
  }

  function ParseDateStamp(s: string): Date
    requires |s| == 8 && AllDigits(s)
  {
    Date(DigitsValue(s[..4]), DigitsValue(s[4..6]), DigitsValue(s[6..]))
  }

  /** The date stamp determines the date it was made from. */
  lemma DateStampRoundTrip(d: Date)
    requires ValidDate(d)
    ensures ParseDateStamp(DateStamp(d)) == d
  {
    var s := DateStamp(d);
    assert s[..4] == Digits(d.year, 4);
    assert s[4..6] == Digits(d.month, 2);
    assert s[6..] == Digits(d.day, 2);
    assert Pow10(4) == 10000 && Pow10(2) == 100;
    DigitsRoundTrip(d.year, 4);
    DigitsRoundTrip(d.month, 2);
    DigitsRoundTrip(d.day, 2);
  }

  /** `max_length` of `Order.order_number` and `SupportTicket.ticket_number`. */
  const NumberMaxLength: nat := 20

  /** `Order.save`: "AG", the date stamp, then six upper-case hex digits of a fresh uuid. */
  function OrderNumber(today: Date, hex: string): (r: string)
    requires ValidDate(today) && IsUuidHex(hex)
    ensures |r| == 16 && |r| <= NumberMaxLength
    ensures r[..2] == "AG" && AllDigits(r[2..10]) && AllUpperHex(r[10..])
    ensures r[2..10] == DateStamp(today)
  {
    "AG" + DateStamp(today) + UpperHex(hex[..6])
  }

  /** An order number records the day it was generated. */
  lemma OrderNumberCarriesDate(today: Date, hex: string)
    requires ValidDate(today) && IsUuidHex(hex)
    ensures ParseDateStamp(OrderNumber(today, hex)[2..10]) == today
  {
    DateStampRoundTrip(today);
  }

  /** Order numbers generated on different days never collide. */
  lemma OrderNumbersOfDifferentDays(d1: Date, h1: string, d2: Date, h2: string)
    requires ValidDate(d1) && IsUuidHex(h1) && ValidDate(d2) && IsUuidHex(h2)
    requires d1 != d2
    ensures OrderNumber(d1, h1) != OrderNumber(d2, h2)
  {
    OrderNumberCarriesDate(d1, h1);
    OrderNumberCarriesDate(d2, h2);
  }

  /** `Product.save`: "FARM-" and eight upper-case hex digits of a fresh uuid. */
  function Sku(hex: string): (r: string)
    requires IsUuidHex(hex)
    ensures |r| == 13 && r[..5] == "FARM-" && AllUpperHex(r[5..])
  {
    "FARM-" + UpperHex(hex[..8])
  }

  /** Two SKUs are equal only when the uuids they came from agree on their first eight digits. */
  lemma SkuDeterminedByHex(h1: string, h2: string)
    requires IsUuidHex(h1) && IsUuidHex(h2)
    requires Sku(h1) == Sku(h2)
    ensures h1[..8] == h2[..8]
  {
    assert Sku(h1)[5..] == UpperHex(h1[..8]);
    assert Sku(h2)[5..] == UpperHex(h2[..8]);
    UpperHexInjective(h1[..8], h2[..8]);
  }

  /** `SupportTicket.save`: "TKT-" and eight upper-case hex digits of a fresh uuid. */
  function TicketNumber(hex: string): (r: string)
    requires IsUuidHex(hex)
    ensures |r| == 12 && |r| <= NumberMaxLength
    ensures r[..4] == "TKT-" && AllUpperHex(r[4..])
  {
    "TKT-" + UpperHex(hex[..8])
  }
}
