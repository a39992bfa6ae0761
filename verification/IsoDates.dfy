/** Calendar dates and ISO 8601 week dates (`MenuParser.get_date`, `weekday_positions`). */
module IsoDates {
  import opened Common

  /** A calendar date as its proleptic Gregorian day number: 0001-01-01 is day 1, as in
      Python's `date.toordinal()`. Consecutive days have consecutive numbers. */
  type Date = int

  predicate IsLeapYear(y: int) {
    y % 4 == 0 && (y % 100 != 0 || y % 400 == 0)
  }

  function DaysInMonth(y: int, m: int): int
    requires 1 <= m <= 12
  {
    if m == 2 then (if IsLeapYear(y) then 29 else 28)
    else if m == 4 || m == 6 || m == 9 || m == 11 then 30
    else 31
  }

  function DaysBeforeMonth(y: int, m: int): int
    requires 1 <= m <= 12
  {
    if m == 1 then 0 else DaysBeforeMonth(y, m - 1) + DaysInMonth(y, m - 1)
  }

  /** Days in the years 1 .. y-1. */
  function DaysBeforeYear(y: int): int
    requires y >= 1
  {
    var p := y - 1;
    p * 365 + p / 4 - p / 100 + p / 400
  }

  /** The day number of the Gregorian date y-m-d. */
  function FromCivil(y: int, m: int, d: int): Date
    requires y >= 1 && 1 <= m <= 12
  {
    DaysBeforeYear(y) + DaysBeforeMonth(y, m) + d
  }

  /** The last date Python's `date` can represent, 9999-12-31. */
  const MaxDate: Date := FromCivil(9999, 12, 31)

  /** Python's `date.weekday()`: Monday is 0, Sunday is 6 (0001-01-01 was a Monday). */
  function Weekday(n: Date): (wd: int)
    ensures 0 <= wd < 7
  {
    (n + 6) % 7
  }

  /** The Monday of ISO week 1 of year `y`: the Monday of the week holding 4 January. */
  function Week1Monday(y: int): Date
    requires y >= 1
  {
    var jan4 := FromCivil(y, 1, 4);
    jan4 - Weekday(jan4)
  }

  /** Number of ISO weeks of year `y`: the weeks from its week 1 to the next year's. */
  function WeeksInYear(y: int): int
    requires y >= 1
  {
    (Week1Monday(y + 1) - Week1Monday(y)) / 7
  }

  /** ISO 8601:2004 section 4.1.4: day `n` lies in week `w` of ISO year `y` when the Thursday
      of its Monday-to-Sunday week falls in Gregorian year `y`, `w - 1` whole weeks after
      1 January. */
  predicate InIsoWeek(n: Date, y: int, w: int)
    requires y >= 1
  {
    var thursday := n - Weekday(n) + 3;
    FromCivil(y, 1, 1) <= thursday < FromCivil(y + 1, 1, 1)
    && w == (thursday - FromCivil(y, 1, 1)) / 7 + 1
  }

  /** `MenuParser.get_date(year, week_number, day)`: `strptime("%d-W%d-%d", "%G-W%V-%u")`.
      `%G` reads exactly four digits, `%u` one digit 1..7, and the week must be one of the
      ISO year's weeks; anything else, or a date past 9999-12-31, is a ValueError. */
  function GetDate(year: int, week: int, day: int): (r: Result<Date>)
    ensures r.Ok? ==> 1000 <= year <= 9999 && 1 <= day <= 7 && 1 <= week <= 53
    ensures r.Ok? ==> Weekday(r.value) == day - 1 && InIsoWeek(r.value, year, week)
    ensures r.Err? ==> r.error == ValueError
  {
    if 1000 <= year <= 9999 && 1 <= week <= WeeksInYear(year) && 1 <= day <= 7
       && Week1Monday(year) + 7 * (week - 1) + (day - 1) <= MaxDate
    then
      var n := Week1Monday(year) + 7 * (week - 1) + (day - 1);
      GetDateFacts(year, week, day, n);
      Ok(n)
    else Err(ValueError)
  }

  /** `weekday_positions`: "mon" .. "sun" to the ISO weekdays 1 .. 7. */
  const WeekdayPositions: map<string, int> :=
    map["mon" := 1, "tue" := 2, "wed" := 3, "thu" := 4, "fri" := 5, "sat" := 6, "sun" := 7]

  /** The weekday keys in the order the source's dictionary literals list them. */
  const WeekdayKeys: seq<string> := ["mon", "tue", "wed", "thu", "fri", "sat", "sun"]

  // ---------------------------------------------------------------------------------------
  // Arithmetic facts behind the week-date properties

  /** A Gregorian year has 366 days when it is a leap year and 365 otherwise. */
  lemma YearLength(y: int)
    requires y >= 1
    ensures DaysBeforeYear(y + 1) - DaysBeforeYear(y) == if IsLeapYear(y) then 366 else 365
  {
    assert y / 4 - (y - 1) / 4 == if y % 4 == 0 then 1 else 0;
    assert y / 100 - (y - 1) / 100 == if y % 100 == 0 then 1 else 0;
    assert y / 400 - (y - 1) / 400 == if y % 400 == 0 then 1 else 0;
  }

  lemma Week1MondayBounds(y: int)
    requires y >= 1
    ensures Weekday(Week1Monday(y)) == 0
    ensures FromCivil(y, 1, 1) - 3 <= Week1Monday(y) <= FromCivil(y, 1, 1) + 3
  {
    assert FromCivil(y, 1, 4) == FromCivil(y, 1, 1) + 3;
    MondayOnOrBefore(FromCivil(y, 1, 4));
  }

  /** The Monday on or before a day falls within the six days before it. */
  lemma MondayOnOrBefore(n: int)
    ensures (n - (n + 6) % 7 + 6) % 7 == 0
    ensures n - 6 <= n - (n + 6) % 7 <= n
  {
    var q := (n + 6) / 7;
    assert n + 6 == 7 * q + (n + 6) % 7;
    assert n - (n + 6) % 7 + 6 == 7 * q;
  }

  lemma SameWeekdayDiff(a: Date, b: Date)
    requires Weekday(a) == Weekday(b)
    ensures (b - a) % 7 == 0
  {
    assert a + 6 == 7 * ((a + 6) / 7) + Weekday(a);
    assert b + 6 == 7 * ((b + 6) / 7) + Weekday(b);
    assert b - a == 7 * ((b + 6) / 7 - (a + 6) / 7);
  }

  lemma Week1MondayGap(y: int)
    requires y >= 1
    ensures Week1Monday(y + 1) - Week1Monday(y) == 7 * WeeksInYear(y)
    ensures WeeksInYear(y) == 52 || WeeksInYear(y) == 53
  {
    Week1MondayBounds(y);
    Week1MondayBounds(y + 1);
    YearLength(y);
    SameWeekdayDiff(Week1Monday(y), Week1Monday(y + 1));
  }

  lemma GetDateFacts(year: int, week: int, day: int, n: Date)
    requires 1000 <= year <= 9999 && 1 <= week <= WeeksInYear(year) && 1 <= day <= 7
    requires n == Week1Monday(year) + 7 * (week - 1) + (day - 1)
    ensures week <= 53
    ensures Weekday(n) == day - 1 && InIsoWeek(n, year, week)
  {
    Week1MondayBounds(year);
    Week1MondayBounds(year + 1);
    Week1MondayGap(year);
    WeekArithmetic(Week1Monday(year), Week1Monday(year + 1), FromCivil(year, 1, 1),
                   FromCivil(year + 1, 1, 1), WeeksInYear(year), week, day);
  }

  /** The arithmetic of GetDateFacts, apart from the calendar functions. */
  lemma WeekArithmetic(m: int, m': int, jan1: int, jan1': int, weeks: int, week: int, day: int)
    requires (m + 6) % 7 == 0 && jan1 - 3 <= m <= jan1 + 3 && jan1' - 3 <= m' <= jan1' + 3
    requires m' - m == 7 * weeks && 1 <= week <= weeks && 1 <= day <= 7
    ensures var n := m + 7 * (week - 1) + (day - 1);
      var t := n - (n + 6) % 7 + 3;
      (n + 6) % 7 == day - 1 && jan1 <= t < jan1' && (t - jan1) / 7 == week - 1
  {
    var n := m + 7 * (week - 1) + (day - 1);
    assert n + 6 == (m + 6) + 7 * (week - 1) + (day - 1);
    assert (n + 6) % 7 == day - 1;
    var t := m + 7 * (week - 1) + 3;
    assert jan1 + 7 * (week - 1) <= t <= jan1 + 7 * (week - 1) + 6;
    assert t - jan1 == 7 * (week - 1) + (t - jan1 - 7 * (week - 1));
  }

  // ---------------------------------------------------------------------------------------
  // Properties of get_date

  /** Every year has 52 or 53 ISO weeks, and consecutive years' week 1 Mondays are a whole
      number of weeks apart. */
  lemma WeeksPerYear(y: int)
    requires y >= 1
    ensures WeeksInYear(y) == 52 || WeeksInYear(y) == 53
    ensures Week1Monday(y + 1) == Week1Monday(y) + 7 * WeeksInYear(y)
  {
    Week1MondayGap(y);
  }

  /** For any week of years 1000..9998, weekdays 1..7 give seven consecutive dates, Monday
      first. */
  lemma {:induction false} GetDateConsecutive(y: int, w: int, d: int)
    requires 1000 <= y <= 9998 && 1 <= w <= WeeksInYear(y) && 1 <= d <= 7
    ensures GetDate(y, w, 1).Ok? && GetDate(y, w, d).Ok?
    ensures GetDate(y, w, d).value == GetDate(y, w, 1).value + (d - 1)
  {
    Week1MondayGap(y);
    Week1MondayBounds(y + 1);
    YearsMonotone(y + 1, 9999);
    assert FromCivil(y + 1, 1, 1) + 3 < MaxDate;
  }

  lemma {:induction false} YearsMonotone(a: int, b: int)
    requires 1 <= a <= b
    ensures DaysBeforeYear(a) <= DaysBeforeYear(b)
    decreases b - a
  {
    if a < b {
      YearLength(a);
      YearsMonotone(a + 1, b);
    }
  }

  /** The dates of the source's unit test: 2017-W44-1 is 2017-10-30. */
  lemma GetDateExample2017()
    ensures GetDate(2017, 44, 1) == Ok(FromCivil(2017, 10, 30))
  {
    Week1MondayValues();
    assert DaysBeforeMonth(2017, 10) == 273;
    MaxDateValue();
  }

  /** 2018-W01-1 is 2018-01-01. */
  lemma GetDateExample2018()
    ensures GetDate(2018, 1, 1) == Ok(FromCivil(2018, 1, 1))
  {
    Week1MondayValues();
    MaxDateValue();
  }

  /** 2019-W02-1 is 2019-01-07: week 1 of 2019 starts in 2018. */
  lemma GetDateExample2019()
    ensures GetDate(2019, 2, 1) == Ok(FromCivil(2019, 1, 7))
  {
    Week1MondayValues();
    MaxDateValue();
  }

  lemma Week1MondayValues()
    ensures Week1Monday(2017) == 736331 && Week1Monday(2018) == 736695
    ensures Week1Monday(2019) == 737059 && Week1Monday(2020) == 737423
  {
    assert DaysBeforeYear(2017) == 736329 && DaysBeforeYear(2018) == 736694;
    assert DaysBeforeYear(2019) == 737059 && DaysBeforeYear(2020) == 737424;
  }

  lemma MaxDateValue()
    ensures MaxDate == 3652059
  {
    assert DaysBeforeYear(9999) == 3651694;
    assert DaysBeforeMonth(9999, 12) == 334;
  }
}
