/** Calendar dates as LocalDate holds them, months counted on one axis, and
    the "yyyy-MM" prefix of LocalDate.toString used as a revenue key. */
module Dates {
  import opened Decimal

  datatype Date = Date(year: int, month: int, day: int)

  datatype YearMonth = YearMonth(year: int, month: int)

  /** Month and day in range; month lengths are not checked, the model only compares dates. */
  predicate ValidDate(d: Date) {
    1 <= d.month <= 12 && 1 <= d.day <= 31
  }

  predicate ValidMonth(ym: YearMonth) {
    1 <= ym.month <= 12
  }

  /** LocalDate's isBefore-or-equal: year, then month, then day. */
  predicate DateLe(a: Date, b: Date) {
    a.year < b.year
    || (a.year == b.year && a.month < b.month)
    || (a.year == b.year && a.month == b.month && a.day <= b.day)
  }

  function MonthOf(d: Date): YearMonth {
    YearMonth(d.year, d.month)
  }

  /** Months since January of year 0; consecutive calendar months get consecutive indices. */
  function MonthIndex(ym: YearMonth): int {
    ym.year * 12 + ym.month - 1
  }

  /** The calendar month with a given index (floor division, as LocalDate.plusMonths does). */
  function FromIndex(i: int): (ym: YearMonth)
    ensures ValidMonth(ym) && MonthIndex(ym) == i
  {
    YearMonth(i / 12, i % 12 + 1)
  }

  lemma FromIndexOfMonthIndex(ym: YearMonth)
    requires ValidMonth(ym)
    ensures FromIndex(MonthIndex(ym)) == ym
  {
    var i := MonthIndex(ym);
    assert i == ym.year * 12 + (ym.month - 1) && 0 <= ym.month - 1 < 12;
    assert i / 12 == ym.year && i % 12 == ym.month - 1;
  }

  /** LocalDate.plusMonths / minusMonths, on the month part (the day plays no part here). */
  function PlusMonths(ym: YearMonth, n: int): (r: YearMonth)
    ensures ValidMonth(r) && MonthIndex(r) == MonthIndex(ym) + n
  {
    FromIndex(MonthIndex(ym) + n)
  }

  lemma MonthIndexInjective(a: YearMonth, b: YearMonth)
    requires ValidMonth(a) && ValidMonth(b) && MonthIndex(a) == MonthIndex(b)
    ensures a == b
  {
    FromIndexOfMonthIndex(a);
    FromIndexOfMonthIndex(b);
  }

  /** Earlier dates never fall in later months. */
  lemma DateLeMonthIndex(a: Date, b: Date)
    requires ValidDate(a) && ValidDate(b) && DateLe(a, b)
    ensures MonthIndex(MonthOf(a)) <= MonthIndex(MonthOf(b))
  {
  }

  /** Years LocalDate.toString writes as exactly four digits with no sign. */
  predicate FourDigitYear(ym: YearMonth) {
    0 <= ym.year <= 9999
  }

  /** LocalDate.toString().substring(0, 7) of any day in the month: "yyyy-MM". */
  function MonthKey(ym: YearMonth): (key: string)
    requires ValidMonth(ym) && FourDigitYear(ym)
    ensures |key| == 7 && key[4] == '-'
  {
    assert Pow10(4) == 10000 && Pow10(2) == 100;
    FixedDigits(ym.year, 4) + "-" + FixedDigits(ym.month, 2)
  }

  function ParseMonthKey(key: string): YearMonth
    requires |key| == 7 && AllDigits(key[..4]) && AllDigits(key[5..])
  {
    YearMonth(DigitsValue(key[..4]), DigitsValue(key[5..]))
  }

  lemma MonthKeyRoundTrip(ym: YearMonth)
    requires ValidMonth(ym) && FourDigitYear(ym)
    ensures var key := MonthKey(ym);
            AllDigits(key[..4]) && AllDigits(key[5..]) && ParseMonthKey(key) == ym
  {
    assert Pow10(4) == 10000 && Pow10(2) == 100;
    var key := MonthKey(ym);
    assert key[..4] == FixedDigits(ym.year, 4);
    assert key[5..] == FixedDigits(ym.month, 2);
    FixedDigitsRoundTrip(ym.year, 4);
    FixedDigitsRoundTrip(ym.month, 2);
  }

  /** Distinct months get distinct keys, so a HashMap keyed by them has one entry per month. */
  lemma MonthKeyInjective(a: YearMonth, b: YearMonth)
    requires ValidMonth(a) && FourDigitYear(a) && ValidMonth(b) && FourDigitYear(b)
    requires MonthKey(a) == MonthKey(b)
    ensures a == b
  {
    MonthKeyRoundTrip(a);
    MonthKeyRoundTrip(b);
  }
}
