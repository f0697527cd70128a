/**
 * The part of chrono the news client relies on: a timestamp in whole seconds
 * since 1970-01-01T00:00:00, the proleptic Gregorian date it falls on, and
 * the two date patterns the client formats with, `%Y-%m-%d` and `%Y-%d-%m`.
 */
module Calendar {
  import opened Decimal
  import opened Options

  /** Seconds since 1970-01-01T00:00:00 in the clock's own time zone. */
  type Timestamp = int

  const SecondsPerDay: int := 86400

  datatype Civil = Civil(year: int, month: int, day: int)

  predicate IsLeapYear(y: int) {
    y % 4 == 0 && (y % 100 != 0 || y % 400 == 0)
  }

  function YearLength(y: int): int {
    if IsLeapYear(y) then 366 else 365
  }

  function MonthLength(y: int, m: int): int
    requires 1 <= m <= 12
  {
    if m == 2 then (if IsLeapYear(y) then 29 else 28)
    else if m == 4 || m == 6 || m == 9 || m == 11 then 30
    else 31
  }

  /** Days of year `y` that lie before the first of month `m`. */
  function DaysBeforeMonth(y: int, m: int): int
    requires 1 <= m <= 12
  {
    [0, 31, 59, 90, 120, 151, 181, 212, 243, 273, 304, 334][m - 1]
    + (if m > 2 && IsLeapYear(y) then 1 else 0)
  }

  predicate Valid(c: Civil) {
    1 <= c.month <= 12 && 1 <= c.day <= MonthLength(c.year, c.month)
  }

  /** Days from 1970-01-01 to the first of January of year `y` (negative before 1970). */
  function DaysBeforeYear(y: int): int
    decreases if y < 1970 then 1970 - y else y - 1970
  {
    if y == 1970 then 0
    else if y > 1970 then DaysBeforeYear(y - 1) + YearLength(y - 1)
    else DaysBeforeYear(y + 1) - YearLength(y)
  }

  lemma NextYear(y: int)
    ensures DaysBeforeYear(y + 1) == DaysBeforeYear(y) + YearLength(y)
  {
  }

  lemma NextMonth(y: int, m: int)
    requires 1 <= m < 12
    ensures DaysBeforeMonth(y, m + 1) == DaysBeforeMonth(y, m) + MonthLength(y, m)
  {
  }

  /** Day number (days since 1970-01-01) of a civil date. */
  function DaysFromCivil(c: Civil): int
    requires Valid(c)
  {
    DaysBeforeYear(c.year) + DaysBeforeMonth(c.year, c.month) + c.day - 1
  }

  /**
   * Starting from year `y`, finds the year that holds the day `d` days after
   * the first of January of `y`, and the day's offset within that year.
   */
  function YearOf(y: int, d: int): (r: (int, int))
    ensures 0 <= r.1 < YearLength(r.0)
    ensures DaysBeforeYear(r.0) + r.1 == DaysBeforeYear(y) + d
    decreases if d < 0 then 366 - d else d
  {
    if 0 <= d < YearLength(y) then (y, d)
    else if d >= YearLength(y) then
      NextYear(y);
      YearOf(y + 1, d - YearLength(y))
    else
      NextYear(y - 1);
      YearOf(y - 1, d + YearLength(y - 1))
  }

  /**
   * Starting from month `m` of year `y`, finds the month that holds the day
   * `d` days after the first of `m`, and the day's offset within that month.
   */
  function MonthOf(y: int, m: int, d: int): (r: (int, int))
    requires 1 <= m <= 12 && 0 <= d && DaysBeforeMonth(y, m) + d < YearLength(y)
    ensures 1 <= r.0 <= 12 && 0 <= r.1 < MonthLength(y, r.0)
    ensures DaysBeforeMonth(y, r.0) + r.1 == DaysBeforeMonth(y, m) + d
    decreases 12 - m
  {
    if d < MonthLength(y, m) then (m, d)
    else
      NextMonth(y, m);
      MonthOf(y, m + 1, d - MonthLength(y, m))
  }

  /** The civil date of day number `n`; it is valid and denotes day `n`. */
  function CivilFromDays(n: int): (c: Civil)
    ensures Valid(c) && DaysFromCivil(c) == n
  {
    var (y, d) := YearOf(1970, n);
    var (m, dd) := MonthOf(y, 1, d);
    Civil(y, m, dd + 1)
  }

  /** The date a timestamp falls on (chrono rounds towards the past). */
  function DateOf(t: Timestamp): (c: Civil)
    ensures Valid(c) && DaysFromCivil(c) == t / SecondsPerDay
  {
    CivilFromDays(t / SecondsPerDay)
  }

  /** Years after `y` start at least a full year of days after `y` does. */
  lemma {:induction false} YearsIncrease(y: int, z: int)
    requires y < z
    ensures DaysBeforeYear(y) + YearLength(y) <= DaysBeforeYear(z)
    decreases z - y
  {
    NextYear(y);
    if y + 1 < z {
      YearsIncrease(y + 1, z);
      NextYear(y + 1);
    }
  }

  lemma {:induction false} MonthsIncrease(y: int, m: int, k: int)
    requires 1 <= m < k <= 12
    ensures DaysBeforeMonth(y, m) + MonthLength(y, m) <= DaysBeforeMonth(y, k)
    decreases k - m
  {
    NextMonth(y, m);
    if m + 1 < k {
      MonthsIncrease(y, m + 1, k);
    }
  }

  /** Different valid dates have different day numbers. */
  lemma DaysFromCivilInjective(a: Civil, b: Civil)
    requires Valid(a) && Valid(b) && DaysFromCivil(a) == DaysFromCivil(b)
    ensures a == b
  {
    var da := DaysBeforeMonth(a.year, a.month) + a.day - 1;
    var db := DaysBeforeMonth(b.year, b.month) + b.day - 1;
    assert da < YearLength(a.year) by { LastMonth(a.year, a.month); }
    assert db < YearLength(b.year) by { LastMonth(b.year, b.month); }
    if a.year < b.year {
      YearsIncrease(a.year, b.year);
    } else if b.year < a.year {
      YearsIncrease(b.year, a.year);
    }
    if a.month < b.month {
      MonthsIncrease(a.year, a.month, b.month);
    } else if b.month < a.month {
      MonthsIncrease(a.year, b.month, a.month);
    }
  }

  lemma LastMonth(y: int, m: int)
    requires 1 <= m <= 12
    ensures DaysBeforeMonth(y, m) + MonthLength(y, m) <= YearLength(y)
  {
  }

  /** Day numbers and valid civil dates are in one-to-one correspondence. */
  lemma CivilRoundTrip(c: Civil)
    requires Valid(c)
    ensures CivilFromDays(DaysFromCivil(c)) == c
  {
    DaysFromCivilInjective(CivilFromDays(DaysFromCivil(c)), c);
  }

  /** Going back `k` whole days from a timestamp goes back `k` calendar days. */
  lemma DaysEarlier(t: Timestamp, k: int)
    ensures DaysFromCivil(DateOf(t - k * SecondsPerDay)) == DaysFromCivil(DateOf(t)) - k
  {
    assert (t - k * SecondsPerDay) / SecondsPerDay == t / SecondsPerDay - k;
  }

  /** chrono's `%Y`: four digits, zero-padded, with a sign outside 0..9999. */
  function YearField(y: int): (s: string)
    ensures '&' !in s && '?' !in s
    ensures 0 <= y <= 9999 ==> |s| == 4 && AllDigits(s) && ValueOf(s) == y
  {
    if 0 <= y <= 9999 then ZeroPad(y, 4)
    else if y > 9999 then "+" + NatToDecimal(y)
    else "-" + ZeroPad(-y, 4)
  }

  /** `%Y-%m-%d`: the ISO 8601 calendar date. */
  function FormatYmd(c: Civil): (s: string)
    requires Valid(c)
    ensures '&' !in s
  {
    YearField(c.year) + "-" + ZeroPad(c.month, 2) + "-" + ZeroPad(c.day, 2)
  }

  /** `%Y-%d-%m`: year, then day of month, then month. */
  function FormatYdm(c: Civil): (s: string)
    requires Valid(c)
    ensures '&' !in s
  {
    YearField(c.year) + "-" + ZeroPad(c.day, 2) + "-" + ZeroPad(c.month, 2)
  }

  /** Reads `YYYY-MM-DD` the way an ISO 8601 consumer does. */
  function ParseIsoDate(s: string): Option<Civil> {
    if |s| == 10 && s[4] == '-' && s[7] == '-'
       && AllDigits(s[..4]) && AllDigits(s[5..7]) && AllDigits(s[8..])
    then
      var c := Civil(ValueOf(s[..4]), ValueOf(s[5..7]), ValueOf(s[8..]));
      if Valid(c) then Some(c) else None
    else None
  }

  lemma FieldsAt(y: string, a: string, b: string)
    requires |y| == 4 && |a| == 2 && |b| == 2
    ensures var s := y + "-" + a + "-" + b;
      |s| == 10 && s[..4] == y && s[4] == '-' && s[5..7] == a && s[7] == '-' && s[8..] == b
  {
    var s := y + "-" + a + "-" + b;
    assert s[..4] == y;
    assert s[5..7] == a;
    assert s[8..] == b;
  }

  /** For years 0..9999, `%Y-%m-%d` is read back as the same date. */
  lemma IsoDateRoundTrip(c: Civil)
    requires Valid(c) && 0 <= c.year <= 9999
    ensures ParseIsoDate(FormatYmd(c)) == Some(c)
  {
    FieldsAt(YearField(c.year), ZeroPad(c.month, 2), ZeroPad(c.day, 2));
  }

  /**
   * A `%Y-%d-%m` date read as ISO 8601 names the date with day and month
   * swapped, and is no date at all when the day of month exceeds 12.
   */
  lemma DayMonthReadAsIso(c: Civil)
    requires Valid(c) && 0 <= c.year <= 9999
    ensures var swapped := Civil(c.year, c.day, c.month);
      ParseIsoDate(FormatYdm(c)) == if Valid(swapped) then Some(swapped) else None
    ensures c.day > 12 ==> ParseIsoDate(FormatYdm(c)).None?
  {
    FieldsAt(YearField(c.year), ZeroPad(c.day, 2), ZeroPad(c.month, 2));
  }
}
