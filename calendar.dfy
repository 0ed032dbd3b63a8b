/**
 * Proleptic Gregorian dates as Python's `datetime.date` handles them: validity,
 * day numbers (`toordinal`), the next day (`+ timedelta(days=1)`), month and year
 * addition with end-of-month clamping (`dateutil.relativedelta`), and ISO text.
 */
module Calendar {
  import opened Wrappers
  import opened Text

  datatype Date = Date(year: int, month: int, day: int)

  predicate IsLeap(y: int) {
    y % 4 == 0 && (y % 100 != 0 || y % 400 == 0)
  }

  function DaysInMonth(y: int, m: int): (n: int)
    requires 1 <= m <= 12
    ensures 28 <= n <= 31
    ensures n == 29 <==> (m == 2 && IsLeap(y))
  {
    if m == 2 then (if IsLeap(y) then 29 else 28)
    else if m == 4 || m == 6 || m == 9 || m == 11 then 30
    else 31
  }

  /** Python accepts years from 1 on; the upper bound 9999 is not modelled. */
  predicate ValidDate(d: Date) {
    1 <= d.year && 1 <= d.month <= 12 && 1 <= d.day <= DaysInMonth(d.year, d.month)
  }

  function YearLength(y: int): int {
    if IsLeap(y) then 366 else 365
  }

  /** Days in the years before `y` (year 1 starts at 0). */
  function DaysBeforeYear(y: int): int
    requires y >= 1
  {
    var p := y - 1;
    365 * p + p / 4 - p / 100 + p / 400
  }

  /** Days in the months of year `y` before month `m`; `m == 13` gives the whole year. */
  function DaysBeforeMonth(y: int, m: int): int
    requires 1 <= m <= 13
  {
    var leap := if m > 2 && IsLeap(y) then 1 else 0;
    leap + (if m == 1 then 0 else if m == 2 then 31 else if m == 3 then 59 else if m == 4 then 90
            else if m == 5 then 120 else if m == 6 then 151 else if m == 7 then 181
            else if m == 8 then 212 else if m == 9 then 243 else if m == 10 then 273
            else if m == 11 then 304 else if m == 12 then 334 else 365)
  }

  /** `date.toordinal()`: 0001-01-01 is day 1. */
  function DayNumber(d: Date): int
    requires ValidDate(d)
  {
    DaysBeforeYear(d.year) + DaysBeforeMonth(d.year, d.month) + d.day
  }

  lemma MonthStep(y: int, m: int)
    requires 1 <= m <= 12
    ensures DaysBeforeMonth(y, m + 1) == DaysBeforeMonth(y, m) + DaysInMonth(y, m)
    ensures DaysBeforeMonth(y, m + 1) <= DaysBeforeMonth(y, 13)
    ensures DaysBeforeMonth(y, 13) == YearLength(y)
  {
  }

  lemma YearStep(y: int)
    requires y >= 1
    ensures DaysBeforeYear(y + 1) == DaysBeforeYear(y) + YearLength(y)
  {
    QuotientStep4(y - 1);
    QuotientStep100(y - 1);
    QuotientStep400(y - 1);
    LeapChain(y);
  }

  /** A multiple of 400 is one of 100, and a multiple of 100 one of 4. */
  lemma LeapChain(y: int)
    ensures y % 100 == 0 ==> y % 4 == 0
    ensures y % 400 == 0 ==> y % 100 == 0
  {
    if y % 100 == 0 {
      CenturyIsLeapMultiple(y, y / 100);
    }
    if y % 400 == 0 {
      QuadCenturyIsCentury(y, y / 400);
    }
  }

  lemma CenturyIsLeapMultiple(y: int, q: int)
    requires y == 100 * q
    ensures y % 4 == 0
  {
    assert y == 4 * (25 * q);
  }

  lemma QuadCenturyIsCentury(y: int, q: int)
    requires y == 400 * q
    ensures y % 100 == 0
  {
    assert y == 100 * (4 * q);
  }

  /** Adding one to `p` moves `p / k` up by one exactly when `p + 1` is a multiple of `k`. */
  lemma QuotientStep4(p: int)
    ensures (p + 1) / 4 == p / 4 + (if (p + 1) % 4 == 0 then 1 else 0)
  {
  }

  lemma QuotientStep100(p: int)
    ensures (p + 1) / 100 == p / 100 + (if (p + 1) % 100 == 0 then 1 else 0)
  {
  }

  lemma QuotientStep400(p: int)
    ensures (p + 1) / 400 == p / 400 + (if (p + 1) % 400 == 0 then 1 else 0)
  {
  }

  lemma {:induction false} YearsApart(y1: int, y2: int)
    requires 1 <= y1 < y2
    ensures DaysBeforeYear(y1) + YearLength(y1) <= DaysBeforeYear(y2)
    decreases y2 - y1
  {
    YearStep(y1);
    if y1 + 1 < y2 {
      YearsApart(y1 + 1, y2);
    }
  }

  /** Lexicographic order on (year, month, day): Python's `<` on dates. */
  predicate Before(a: Date, b: Date) {
    a.year < b.year
    || (a.year == b.year && a.month < b.month)
    || (a.year == b.year && a.month == b.month && a.day < b.day)
  }

  lemma {:induction false} BeforeDayNumber(a: Date, b: Date)
    requires ValidDate(a) && ValidDate(b) && Before(a, b)
    ensures DayNumber(a) < DayNumber(b)
  {
    MonthStep(a.year, a.month);
    if a.year < b.year {
      YearsApart(a.year, b.year);
    } else if a.month < b.month {
      assert DaysBeforeMonth(a.year, a.month + 1) <= DaysBeforeMonth(a.year, b.month);
    }
  }

  /** Day numbers order dates exactly as Python compares them. */
  lemma DayNumberOrder(a: Date, b: Date)
    requires ValidDate(a) && ValidDate(b)
    ensures Before(a, b) <==> DayNumber(a) < DayNumber(b)
    ensures a == b <==> DayNumber(a) == DayNumber(b)
  {
    if Before(a, b) {
      BeforeDayNumber(a, b);
    } else if Before(b, a) {
      BeforeDayNumber(b, a);
    }
  }

  /** `d + timedelta(days=1)`. */
  function NextDay(d: Date): (r: Date)
    requires ValidDate(d)
    ensures ValidDate(r)
    ensures DayNumber(r) == DayNumber(d) + 1
  {
    MonthStep(d.year, d.month);
    if d.day < DaysInMonth(d.year, d.month) then Date(d.year, d.month, d.day + 1)
    else if d.month < 12 then Date(d.year, d.month + 1, 1)
    else
      YearStep(d.year);
      Date(d.year + 1, 1, 1)
  }

  /** `(b - a).days`. */
  function DaysBetween(a: Date, b: Date): int
    requires ValidDate(a) && ValidDate(b)
  {
    DayNumber(b) - DayNumber(a)
  }

  function Min(a: int, b: int): int {
    if a <= b then a else b
  }

  /** Months since year 0 January: adding n months adds n to it. */
  function MonthIndex(d: Date): int {
    12 * d.year + (d.month - 1)
  }

  /**
   * `d + relativedelta(months=n)`: move the month index forward by n and keep the
   * day, clamped to the last day of the target month.
   */
  function AddMonths(d: Date, n: nat): (r: Date)
    requires ValidDate(d)
    ensures ValidDate(r)
    ensures MonthIndex(r) == MonthIndex(d) + n
    ensures r.day == Min(d.day, DaysInMonth(r.year, r.month))
    ensures r.day <= d.day
  {
    var k := d.month - 1 + n;
    var y := d.year + k / 12;
    var m := k % 12 + 1;
    Date(y, m, Min(d.day, DaysInMonth(y, m)))
  }

  /** `d + relativedelta(years=n)`: same month, day clamped (29 February becomes 28 February). */
  function AddYears(d: Date, n: nat): (r: Date)
    requires ValidDate(d)
    ensures ValidDate(r)
    ensures r.year == d.year + n && r.month == d.month
    ensures r.day == Min(d.day, DaysInMonth(r.year, r.month))
  {
    Date(d.year + n, d.month, Min(d.day, DaysInMonth(d.year + n, d.month)))
  }

  /** A year of months is the same as a year. */
  lemma AddYearsIsTwelveMonths(d: Date, n: nat)
    requires ValidDate(d)
    ensures AddYears(d, n) == AddMonths(d, 12 * n)
  {
    var r := AddMonths(d, 12 * n);
    assert MonthIndex(r) == 12 * (d.year + n) + (d.month - 1);
    assert r.year == d.year + n && r.month == d.month;
  }

  /** Adding a positive number of months always gives a strictly later date. */
  lemma AddMonthsLater(d: Date, n: nat)
    requires ValidDate(d) && n >= 1
    ensures Before(d, AddMonths(d, n))
    ensures DayNumber(d) < DayNumber(AddMonths(d, n))
  {
    var r := AddMonths(d, n);
    assert d.year < r.year || (d.year == r.year && d.month < r.month);
    DayNumberOrder(d, r);
  }

  /** The first day of the month that follows `d`'s month. */
  function FirstOfNextMonth(d: Date): (r: Date)
    requires ValidDate(d)
    ensures ValidDate(r) && r.day == 1
    ensures MonthIndex(r) == MonthIndex(d) + 1
  {
    if d.month == 12 then Date(d.year + 1, 1, 1) else Date(d.year, d.month + 1, 1)
  }

  /**
   * The day count of `d`'s month as the occupancy report derives it: the first of
   * the next month is `(d.replace(day=28) + timedelta(days=4)).replace(day=1)`
   * (four days after the 28th always lies in the next month), and the count is the
   * day of the day before it, i.e. the days from the 1st of `d`'s month to it.
   */
  function DaysInMonthViaNextMonth(d: Date): (n: int)
    requires ValidDate(d)
    ensures n == DaysInMonth(d.year, d.month)
    ensures 28 <= n <= 31
  {
    var d28 := Date(d.year, d.month, 28);
    var later := NextDay(NextDay(NextDay(NextDay(d28))));
    var first := Date(later.year, later.month, 1);
    MonthStep(d.year, d.month);
    if d.month == 12 then
      YearStep(d.year);
      DaysBetween(Date(d.year, d.month, 1), first)
    else
      DaysBetween(Date(d.year, d.month, 1), first)
  }

  /** `date.isoformat()`: `YYYY-MM-DD`. */
  function IsoDate(d: Date): string
    requires ValidDate(d)
  {
    ZeroPad(d.year, 4) + "-" + ZeroPad(d.month, 2) + "-" + ZeroPad(d.day, 2)
  }

  /** Two digits at most, at least one. */
  predicate ShortNumber(s: string) {
    1 <= |s| <= 2 && AllDigits(s)
  }

  /**
   * Django's `parse_date` on text of the form `\d{4}-\d{1,2}-\d{1,2}` (ASCII digits):
   * `None` when the text has another shape or names no valid date.
   */
  function ParseIsoDate(s: string): (r: Option<Date>)
    ensures r.Some? ==> ValidDate(r.value) && r.value.year <= 9999
  {
    if |s| < 5 || !AllDigits(s[..4]) || s[4] != '-' then None
    else
      var rest := s[5..];
      var k := IndexOf(rest, '-');
      if k == |rest| then None
      else
        var mm := rest[..k];
        var dd := rest[k + 1..];
        if !ShortNumber(mm) || !ShortNumber(dd) then None
        else
          var d := Date(DigitsValue(s[..4]), DigitsValue(mm), DigitsValue(dd));
          if ValidDate(d) && d.year <= 9999 then Some(d) else None
  }

  /** Reading back the ISO text of a date gives the date again. */
  lemma {:induction false} IsoDateRoundTrip(d: Date)
    requires ValidDate(d) && d.year <= 9999
    ensures ParseIsoDate(IsoDate(d)) == Some(d)
  {
    NatToStringShort(d.year, 4);
    NatToStringShort(d.month, 2);
    NatToStringShort(d.day, 2);
    ParseIsoParts(ZeroPad(d.year, 4), ZeroPad(d.month, 2), ZeroPad(d.day, 2));
  }

  /** Four digits, a dash, two digits, a dash and two digits read back as the numbers they spell. */
  lemma ParseIsoParts(y: string, m: string, dd: string)
    requires |y| == 4 && |m| == 2 && |dd| == 2 && AllDigits(y) && AllDigits(m) && AllDigits(dd)
    requires ValidDate(Date(DigitsValue(y), DigitsValue(m), DigitsValue(dd)))
    requires DigitsValue(y) <= 9999
    ensures ParseIsoDate(y + "-" + m + "-" + dd) == Some(Date(DigitsValue(y), DigitsValue(m), DigitsValue(dd)))
  {
    var s := y + "-" + m + "-" + dd;
    var rest := m + "-" + dd;
    assert s == y + "-" + rest;
    assert s[..4] == y;
    assert s[4] == '-';
    assert s[5..] == rest;
    DashAfterTwo(m, dd);
    assert rest[..2] == m;
    assert rest[3..] == dd;
  }

  lemma DashAfterTwo(m: string, dd: string)
    requires |m| == 2 && AllDigits(m)
    ensures IndexOf(m + "-" + dd, '-') == 2
  {
    var rest := m + "-" + dd;
    assert rest[0] == m[0] && rest[1] == m[1] && rest[2] == '-';
  }
}
