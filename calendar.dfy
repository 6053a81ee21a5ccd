/**
 * Proleptic Gregorian calendar arithmetic as the JavaScript `Date` object does it:
 * `new Date(y, m, d)`, `Date.UTC(y, m, d)` and `setDate(d)` accept out-of-range
 * months and days and roll them over into neighbouring months and years.
 *
 * A date is a triple (year, month, day) with a 0-based month (0 = January), as in
 * JavaScript. `Days` counts days from 1970-01-01, which is what a JavaScript
 * timestamp counts in milliseconds.
 */
module Calendar {

  datatype Date = Date(year: int, month: int, day: int) {
    /** A real calendar date: month 0..11, day within that month. */
    predicate Valid() {
      0 <= month < 12 && 1 <= day <= DaysInMonth(year, month)
    }
  }

  /** A date that is a real calendar day (what every stored record carries). */
  type CalendarDate = d: Date | d.Valid() witness Date(1970, 0, 1)

  predicate IsLeapYear(y: int) {
    (y % 4 == 0 && y % 100 != 0) || y % 400 == 0
  }

  function DaysInMonth(y: int, m: int): int
    requires 0 <= m < 12
  {
    if m == 1 then (if IsLeapYear(y) then 29 else 28)
    else if m == 3 || m == 5 || m == 8 || m == 10 then 30
    else 31
  }

  function YearLength(y: int): int {
    if IsLeapYear(y) then 366 else 365
  }

  /** Number of leap years among 1..n (negated count for n < 0, by floor division). */
  function LeapYearsThrough(n: int): int {
    n / 4 - n / 100 + n / 400
  }

  /** Day count of January 1st of year y, counted from 1970-01-01. */
  function YearStart(y: int): int {
    365 * (y - 1970) + LeapYearsThrough(y - 1) - LeapYearsThrough(1969)
  }

  /** Days of year y before the first of month m (m = 12 gives the year's length). */
  function DaysBeforeMonth(y: int, m: int): int
    requires 0 <= m <= 12
  {
    var common :=
      if m == 0 then 0 else if m == 1 then 31 else if m == 2 then 59
      else if m == 3 then 90 else if m == 4 then 120 else if m == 5 then 151
      else if m == 6 then 181 else if m == 7 then 212 else if m == 8 then 243
      else if m == 9 then 273 else if m == 10 then 304 else if m == 11 then 334
      else 365;
    if m >= 2 && IsLeapYear(y) then common + 1 else common
  }

  /**
   * The day count of the (possibly out-of-range) triple (y, m, d), as ECMAScript's
   * MakeDay computes it: the month is first folded into the year by floor
   * division, then day d of that month is counted from its first day.
   */
  function Days(y: int, m: int, d: int): int {
    YearStart(y + m / 12) + DaysBeforeMonth(y + m / 12, m % 12) + d - 1
  }

  function DayNumber(d: Date): int {
    Days(d.year, d.month, d.day)
  }

  /** The year the Date constructor and Date.UTC use: 0..99 means 1900..1999. */
  function FullYear(y: int): int {
    if 0 <= y <= 99 then 1900 + y else y
  }

  // ---------------------------------------------------------------------------
  // Facts about the day count
  // ---------------------------------------------------------------------------

  /** Among consecutive integers, y is the one that adds a multiple of k. */
  lemma QuotientStep4(y: int)
    ensures y / 4 - (y - 1) / 4 == if y % 4 == 0 then 1 else 0
  {
  }

  lemma QuotientStep100(y: int)
    ensures y / 100 - (y - 1) / 100 == if y % 100 == 0 then 1 else 0
  {
  }

  lemma QuotientStep400(y: int)
    ensures y / 400 - (y - 1) / 400 == if y % 400 == 0 then 1 else 0
  {
  }

  /** Multiples of 400 are multiples of 100, which are multiples of 4. */
  lemma MultipleChain(y: int)
    ensures y % 400 == 0 ==> y % 100 == 0
    ensures y % 100 == 0 ==> y % 4 == 0
  {
    var q4, q100, q400 := y / 4, y / 100, y / 400;
    assert y == 4 * q4 + y % 4 && 0 <= y % 4 < 4;
    assert y == 100 * q100 + y % 100 && 0 <= y % 100 < 100;
    assert y == 400 * q400 + y % 400 && 0 <= y % 400 < 400;
    if y % 400 == 0 {
      assert y % 100 == y - 100 * q100 == 100 * (4 * q400 - q100);
    }
    if y % 100 == 0 {
      assert y % 4 == y - 4 * q4 == 4 * (25 * q100 - q4);
    }
  }

  /** The number of leap years through y grows by one exactly in a leap year. */
  lemma LeapCountStep(y: int)
    ensures LeapYearsThrough(y) - LeapYearsThrough(y - 1) == if IsLeapYear(y) then 1 else 0
  {
    QuotientStep4(y);
    QuotientStep100(y);
    QuotientStep400(y);
    MultipleChain(y);
  }

  lemma YearStep(y: int)
    ensures YearStart(y + 1) == YearStart(y) + YearLength(y)
  {
    LeapCountStep(y);
  }

  /** Years further apart start further apart: at least 365 days per year. */
  lemma {:induction false} YearStartGrows(a: int, b: int)
    requires a <= b
    ensures YearStart(b) - YearStart(a) >= 365 * (b - a)
    decreases b - a
  {
    if a < b {
      YearStartGrows(a, b - 1);
      YearStep(b - 1);
    }
  }

  /** The first of the month after (y, m) lies DaysInMonth(y, m) days later. */
  lemma MonthStep(y: int, m: int)
    requires 0 <= m < 12
    ensures Days(y, m + 1, 1) == Days(y, m, 1) + DaysInMonth(y, m)
  {
    InYear(y, m, 1);
    if m == 11 {
      YearEnd(y);
    } else {
      InYear(y, m + 1, 1);
      MonthOrder(y, m, m + 1);
    }
  }

  /** Month 12 is January of the next year, which starts a year's length after January 1st. */
  lemma YearEnd(y: int)
    ensures Days(y, 12, 1) == YearStart(y) + YearLength(y)
    ensures DaysBeforeMonth(y, 11) + DaysInMonth(y, 11) == YearLength(y)
  {
    assert 12 / 12 == 1 && 12 % 12 == 0;
    YearStep(y);
  }

  /** For an in-range month the day count needs no folding of the month into the year. */
  lemma InYear(y: int, m: int, d: int)
    requires 0 <= m < 12
    ensures Days(y, m, d) == YearStart(y) + DaysBeforeMonth(y, m) + d - 1
  {
    assert m / 12 == 0 && m % 12 == m;
  }

  /** Within a valid date the month and day contribute less than a year. */
  lemma WithinYear(d: Date)
    requires d.Valid()
    ensures YearStart(d.year) <= DayNumber(d) < YearStart(d.year) + YearLength(d.year)
    ensures DayNumber(d) == YearStart(d.year) + DaysBeforeMonth(d.year, d.month) + d.day - 1
  {
  }

  /** Lexicographic order on (year, month, day). */
  predicate Before(a: Date, b: Date) {
    a.year < b.year
    || (a.year == b.year && a.month < b.month)
    || (a.year == b.year && a.month == b.month && a.day < b.day)
  }

  /** A date in an earlier year has a smaller day count. */
  lemma {:induction false} EarlierYear(a: Date, b: Date)
    requires a.Valid() && b.Valid() && a.year < b.year
    ensures DayNumber(a) < DayNumber(b)
  {
    WithinYear(a);
    WithinYear(b);
    YearStep(a.year);
    YearStartGrows(a.year + 1, b.year);
  }

  /** Within one year the day count follows (month, day). */
  lemma {:induction false} SameYear(a: Date, b: Date)
    requires a.Valid() && b.Valid() && a.year == b.year
    ensures DayNumber(a) - DayNumber(b)
         == DaysBeforeMonth(a.year, a.month) + a.day - DaysBeforeMonth(b.year, b.month) - b.day
  {
    WithinYear(a);
    WithinYear(b);
  }

  /**
   * The day count orders valid dates exactly as the calendar does, so in
   * particular two valid dates with the same day count are the same date.
   */
  lemma {:induction false} DayNumberOrder(a: Date, b: Date)
    requires a.Valid() && b.Valid()
    ensures DayNumber(a) < DayNumber(b) <==> Before(a, b)
    ensures DayNumber(a) == DayNumber(b) <==> a == b
  {
    if a.year < b.year {
      EarlierYear(a, b);
    } else if b.year < a.year {
      EarlierYear(b, a);
    } else {
      SameYear(a, b);
      if a.month < b.month {
        MonthOrder(a.year, a.month, b.month);
      } else if b.month < a.month {
        MonthOrder(a.year, b.month, a.month);
      }
    }
  }

  lemma MonthOrder(y: int, m1: int, m2: int)
    requires 0 <= m1 < m2 < 12
    ensures DaysBeforeMonth(y, m1) + DaysInMonth(y, m1) <= DaysBeforeMonth(y, m2)
  {
  }

  // ---------------------------------------------------------------------------
  // Rolling an out-of-range triple over into a real date
  // ---------------------------------------------------------------------------

  /** Counting day d of month m back from the previous month. */
  lemma {:induction false} FromPreviousMonth(y: int, m: int, d: int, py: int, pm: int)
    requires 0 <= m < 12
    requires py == (if m == 0 then y - 1 else y) && pm == (if m == 0 then 11 else m - 1)
    ensures Days(y, m, d) == Days(py, pm, d + DaysInMonth(py, pm))
  {
    MonthStep(py, pm);
    InYear(py, pm, 1);
    InYear(py, pm, d + DaysInMonth(py, pm));
    InYear(y, m, 1);
    InYear(y, m, d);
    if m == 0 {
      assert (pm + 1) / 12 == 1 && (pm + 1) % 12 == 0 && py + 1 == y;
    } else {
      InYear(py, pm + 1, 1);
    }
  }

  /** Counting day d of month m on from the next month. */
  lemma {:induction false} FromNextMonth(y: int, m: int, d: int, ny: int, nm: int)
    requires 0 <= m < 12
    requires ny == (if m == 11 then y + 1 else y) && nm == (if m == 11 then 0 else m + 1)
    ensures Days(y, m, d) == Days(ny, nm, d - DaysInMonth(y, m))
  {
    MonthStep(y, m);
    InYear(y, m, 1);
    InYear(y, m, d);
    InYear(ny, nm, 1);
    InYear(ny, nm, d - DaysInMonth(y, m));
    if m == 11 {
      assert (m + 1) / 12 == 1 && (m + 1) % 12 == 0;
    } else {
      InYear(y, m + 1, 1);
    }
  }

  /**
   * Day d of month m of year y, rolled over month by month: day 0 is the last day
   * of the previous month, a day past the month's end continues in the next.
   */
  function RollDays(y: int, m: int, d: int): (r: Date)
    requires 0 <= m < 12
    ensures r.Valid()
    ensures DayNumber(r) == Days(y, m, d)
    decreases if d < 1 then 1 else 0, if d < 1 then 1 - d else d
  {
    if d < 1 then
      var py, pm := if m == 0 then y - 1 else y, if m == 0 then 11 else m - 1;
      FromPreviousMonth(y, m, d, py, pm);
      RollDays(py, pm, d + DaysInMonth(py, pm))
    else if d > DaysInMonth(y, m) then
      var ny, nm := if m == 11 then y + 1 else y, if m == 11 then 0 else m + 1;
      FromNextMonth(y, m, d, ny, nm);
      RollDays(ny, nm, d - DaysInMonth(y, m))
    else
      Date(y, m, d)
  }

  /**
   * The real date that ECMAScript's MakeDay(y, m, d) denotes: the month is folded
   * into the year, then the day rolls over. It is the only valid date with that
   * day count (see DayNumberOrder).
   */
  function MakeDate(y: int, m: int, d: int): (r: CalendarDate)
    ensures DayNumber(r) == Days(y, m, d)
  {
    InYear(y + m / 12, m % 12, d);
    RollDays(y + m / 12, m % 12, d)
  }

  /** `new Date(y, m, d)` (local) and `Date.UTC(y, m, d)`, as a calendar date. */
  function NewDate(y: int, m: int, d: int): (r: CalendarDate)
    ensures DayNumber(r) == Days(FullYear(y), m, d)
  {
    MakeDate(FullYear(y), m, d)
  }

  /** Day 1 of month m. */
  function FirstOfMonth(y: int, m: int): CalendarDate
    requires 0 <= m < 12
  {
    Date(y, m, 1)
  }

  /** The last day of month m: the 28th, 29th, 30th or 31st. */
  function LastOfMonth(y: int, m: int): CalendarDate
    requires 0 <= m < 12
  {
    Date(y, m, DaysInMonth(y, m))
  }

  /** An in-range triple is left as it is. */
  lemma MakeDateValid(d: Date)
    requires d.Valid()
    ensures MakeDate(d.year, d.month, d.day) == d
  {
    DayNumberOrder(MakeDate(d.year, d.month, d.day), d);
  }

  /** Day 0 of the month after m is the last day of month m (any year, any month). */
  lemma {:induction false} DayZeroIsLastDay(y: int, m: int)
    requires 0 <= m < 12
    ensures MakeDate(y, m + 1, 0) == Date(y, m, DaysInMonth(y, m))
  {
    MonthStep(y, m);
    DaysShift(y, m + 1, 0, 1);
    DaysShift(y, m, 1, DaysInMonth(y, m) - 1);
    DayNumberOrder(MakeDate(y, m + 1, 0), Date(y, m, DaysInMonth(y, m)));
  }

  /** Day DaysInMonth(y, m) + d of month m is day d of the following month (day 28 exists in every month). */
  lemma RollIntoNextMonth(y: int, m: int, d: int)
    requires 0 <= m < 12 && 1 <= d <= 28
    ensures MakeDate(y, m, DaysInMonth(y, m) + d) == (if m == 11 then Date(y + 1, 0, d) else Date(y, m + 1, d))
  {
    var ny, nm := if m == 11 then y + 1 else y, if m == 11 then 0 else m + 1;
    FromNextMonth(y, m, DaysInMonth(y, m) + d, ny, nm);
    DayNumberOrder(MakeDate(y, m, DaysInMonth(y, m) + d), Date(ny, nm, d));
  }

  /** Consecutive days: the day count grows by one per day, whatever the month. */
  lemma DaysShift(y: int, m: int, d: int, k: int)
    ensures Days(y, m, d + k) == Days(y, m, d) + k
  {
  }

  // ---------------------------------------------------------------------------
  // Weekday
  // ---------------------------------------------------------------------------

  /** The weekday of day count n: 0 = Sunday .. 6 = Saturday; 1970-01-01 was a Thursday. */
  function WeekdayOf(n: int): (w: int)
    ensures 0 <= w < 7
  {
    (n + 4) % 7
  }

  /** `getDay()`. */
  function Weekday(d: Date): (w: int)
    ensures 0 <= w < 7
  {
    WeekdayOf(DayNumber(d))
  }

  /** Stepping back by the weekday lands on a Sunday, and six days after a Sunday is a Saturday. */
  lemma BackToSunday(n: int)
    ensures WeekdayOf(n - WeekdayOf(n)) == 0
    ensures WeekdayOf(n - WeekdayOf(n) + 6) == 6
  {
    var w, q := WeekdayOf(n), (n + 4) / 7;
    assert n + 4 == 7 * q + w;
    assert n - w + 4 == 7 * q;
    assert n - w + 6 + 4 == 7 * q + 6;
  }

  /** The weekdays cycle: the next day's weekday is one more, modulo 7. */
  lemma WeekdayOfNextDay(a: Date, b: Date)
    requires DayNumber(b) == DayNumber(a) + 1
    ensures Weekday(b) == (Weekday(a) + 1) % 7
  {
    NextWeekday(DayNumber(a));
  }

  lemma NextWeekday(n: int)
    ensures WeekdayOf(n + 1) == (WeekdayOf(n) + 1) % 7
  {
    var w, q := WeekdayOf(n), (n + 4) / 7;
    assert n + 4 == 7 * q + w;
    assert n + 1 + 4 == 7 * q + (w + 1);
  }

  /** An anchor for the weekday numbering: 29 February 2024 has `getDay` 4, a Thursday. */
  lemma LeapDay2024WasThursday()
    ensures Weekday(Date(2024, 1, 29)) == 4
  {
    assert LeapYearsThrough(2023) == 490 && LeapYearsThrough(1969) == 477;
    assert YearStart(2024) == 19723;
    assert DayNumber(Date(2024, 1, 29)) == 19782;
    assert WeekdayOf(19782) == 4;
  }

  /** The range [first, last] holds exactly the valid dates between them in calendar order. */
  lemma {:induction false} InRange(first: Date, last: Date, d: Date)
    requires first.Valid() && last.Valid() && d.Valid()
    ensures DayNumber(first) <= DayNumber(d) <= DayNumber(last)
        <==> !Before(d, first) && !Before(last, d)
  {
    DayNumberOrder(d, first);
    DayNumberOrder(last, d);
  }
}
