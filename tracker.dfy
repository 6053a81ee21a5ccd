/**
 * The analytics page: the period selector that turns (mode, year, month, week)
 * into the `from`/`to` strings of a report request, the totals it shows, and the
 * timeline that merges the returned expenses and sales into day groups,
 * newest day first.
 */
module Tracker {
  import opened Calendar
  import opened IsoDate
  import opened Sorting
  import opened Grouping
  import opened Records
  import opened Outcomes

  datatype Mode = Week | Month | Year | Custom

  // ---------------------------------------------------------------------------
  // Period selection
  // ---------------------------------------------------------------------------

  /** The first and last day a derived mode selects, as `new Date(year, month, day)` builds them. */
  function Period(mode: Mode, year: int, month: int, week: int): (CalendarDate, CalendarDate)
    requires mode != Custom
  {
    match mode
    case Week => (NewDate(year, month, 1 + (week - 1) * 7), NewDate(year, month, week * 7))
    case Month => (NewDate(year, month, 1), NewDate(year, month + 1, 0))
    case Year => (NewDate(year, 0, 1), NewDate(year, 11, 31))
  }

  /**
   * `calculateDateRange`: the (startDate, endDate) strings it stores. A custom
   * range is stored exactly as typed; every other mode stores its period's days
   * in `YYYY-MM-DD` form (see RangeNamesPeriod).
   */
  function CalculateDateRange(mode: Mode, year: int, month: int, week: int, customStart: string, customEnd: string)
    : (r: (string, string))
    ensures mode == Custom ==> r.0 == customStart && r.1 == customEnd
  {
    if mode == Custom then (customStart, customEnd)
    else
      var (start, end) := Period(mode, year, month, week);
      (Format(start), Format(end))
  }

  /** WEEK, any week of any month: the end is exactly six days after the start. */
  lemma WeekSpansSevenDays(year: int, month: int, week: int)
    ensures DayNumber(Period(Week, year, month, week).1) == DayNumber(Period(Week, year, month, week).0) + 6
  {
    DaysShift(FullYear(year), month, 1 + (week - 1) * 7, 6);
  }

  /** WEEK 1..4: days 7w-6 .. 7w of the selected month itself (7w is at most 28). */
  lemma WeekWithinMonth(year: int, month: int, week: int)
    requires 0 <= month < 12 && 1 <= week <= 4
    ensures Period(Week, year, month, week).0 == Date(FullYear(year), month, 7 * week - 6)
    ensures Period(Week, year, month, week).1 == Date(FullYear(year), month, 7 * week)
  {
    MakeDateValid(Date(FullYear(year), month, 7 * week - 6));
    MakeDateValid(Date(FullYear(year), month, 7 * week));
  }

  /**
   * WEEK 5 starts on the 29th, which every month has except February of a
   * common year: there it rolls to March 1st.
   */
  lemma WeekFiveStart(year: int, month: int)
    requires 0 <= month < 12
    ensures Period(Week, year, month, 5).0
         == if month == 1 && !IsLeapYear(FullYear(year)) then Date(FullYear(year), 2, 1)
            else Date(FullYear(year), month, 29)
  {
    var y := FullYear(year);
    if DaysInMonth(y, month) >= 29 {
      MakeDateValid(Date(y, month, 29));
    } else {
      RollIntoNextMonth(y, month, 1);
    }
  }

  /** WEEK 5 ends in the next month, on day 35 minus the month's length; December's ends on January 4th. */
  lemma WeekFiveEnd(year: int, month: int)
    requires 0 <= month < 12
    ensures Period(Week, year, month, 5).1
         == if month == 11 then Date(FullYear(year) + 1, 0, 4)
            else Date(FullYear(year), month + 1, 35 - DaysInMonth(FullYear(year), month))
  {
    var y := FullYear(year);
    RollIntoNextMonth(y, month, 35 - DaysInMonth(y, month));
  }

  /** MONTH: the first to the true last day of the month, covering exactly that month's days. */
  lemma MonthPeriod(year: int, month: int)
    requires 0 <= month < 12
    ensures Period(Month, year, month, 1).0 == Date(FullYear(year), month, 1)
    ensures Period(Month, year, month, 1).1 == Date(FullYear(year), month, DaysInMonth(FullYear(year), month))
    ensures forall d: Date :: d.Valid() ==>
      (DayNumber(Period(Month, year, month, 1).0) <= DayNumber(d) <= DayNumber(Period(Month, year, month, 1).1)
       <==> d.year == FullYear(year) && d.month == month)
  {
    var y := FullYear(year);
    var first, last := Date(y, month, 1), Date(y, month, DaysInMonth(y, month));
    MakeDateValid(first);
    DayZeroIsLastDay(y, month);
    assert Period(Month, year, month, 1).0 == first && Period(Month, year, month, 1).1 == last;
    forall d: Date | d.Valid()
      ensures DayNumber(first) <= DayNumber(d) <= DayNumber(last) <==> d.year == y && d.month == month
    {
      InRange(first, last, d);
    }
  }

  /** YEAR: January 1st to December 31st, covering exactly that year's days. */
  lemma YearPeriod(year: int)
    ensures Period(Year, year, 0, 1).0 == Date(FullYear(year), 0, 1)
    ensures Period(Year, year, 0, 1).1 == Date(FullYear(year), 11, 31)
    ensures forall d: Date :: d.Valid() ==>
      (DayNumber(Period(Year, year, 0, 1).0) <= DayNumber(d) <= DayNumber(Period(Year, year, 0, 1).1)
       <==> d.year == FullYear(year))
  {
    var y := FullYear(year);
    var first, last := Date(y, 0, 1), Date(y, 11, 31);
    MakeDateValid(first);
    MakeDateValid(last);
    assert Period(Year, year, 0, 1).0 == first && Period(Year, year, 0, 1).1 == last;
    forall d: Date | d.Valid()
      ensures DayNumber(first) <= DayNumber(d) <= DayNumber(last) <==> d.year == y
    {
      InRange(first, last, d);
    }
  }

  /**
   * The strings a derived mode stores name its period's days: the server reads
   * back exactly the first and last day (for years that toISOString writes with
   * four digits).
   */
  lemma RangeNamesPeriod(mode: Mode, year: int, month: int, week: int)
    requires mode != Custom && 0 <= month < 12 && 1 <= week <= 5
    requires 0 <= FullYear(year) <= 9998
    ensures Parse(CalculateDateRange(mode, year, month, week, "", "").0) == Some(Period(mode, year, month, week).0)
    ensures Parse(CalculateDateRange(mode, year, month, week, "", "").1) == Some(Period(mode, year, month, week).1)
  {
    var p := Period(mode, year, month, week);
    PeriodYears(mode, year, month, week);
    ParseFormat(p.0);
    ParseFormat(p.1);
  }

  /** A derived period lies in the selected year, or reaches at most into the next. */
  lemma PeriodYears(mode: Mode, year: int, month: int, week: int)
    requires mode != Custom && 0 <= month < 12 && 1 <= week <= 5
    ensures FullYear(year) <= Period(mode, year, month, week).0.year
    ensures Period(mode, year, month, week).0.year <= Period(mode, year, month, week).1.year <= FullYear(year) + 1
  {
    if mode == Week {
      WeekYears(year, month, week);
    } else if mode == Month {
      MonthPeriod(year, month);
    } else {
      YearPeriod(year);
    }
  }

  lemma WeekYears(year: int, month: int, week: int)
    requires 0 <= month < 12 && 1 <= week <= 5
    ensures Period(Week, year, month, week).0.year == FullYear(year)
    ensures Period(Week, year, month, week).0.year <= Period(Week, year, month, week).1.year <= FullYear(year) + 1
  {
    if week <= 4 {
      WeekWithinMonth(year, month, week);
    } else {
      assert week == 5;
      WeekFiveStart(year, month);
      WeekFiveEnd(year, month);
    }
  }

  // ---------------------------------------------------------------------------
  // The week selected on first load
  // ---------------------------------------------------------------------------

  /** `Math.ceil(dayOfMonth / 7)`. */
  function ApproxWeek(dayOfMonth: int): int {
    (dayOfMonth + 6) / 7
  }

  /** The week button lit on first load: the approximate week, capped at 5. */
  function DefaultWeek(dayOfMonth: int): (w: int)
    ensures w <= 5
    ensures ApproxWeek(dayOfMonth) <= 5 ==> w == ApproxWeek(dayOfMonth)
  {
    var a := ApproxWeek(dayOfMonth);
    if a > 5 then 5 else a
  }

  /**
   * For every real day of a month the cap has no effect: the week lies in 1..5
   * and its days 7w-6 .. 7w contain the day.
   */
  lemma CapNeverApplies(dayOfMonth: int)
    requires 1 <= dayOfMonth <= 31
    ensures DefaultWeek(dayOfMonth) == ApproxWeek(dayOfMonth)
    ensures 1 <= ApproxWeek(dayOfMonth) <= 5
    ensures 7 * ApproxWeek(dayOfMonth) - 6 <= dayOfMonth <= 7 * ApproxWeek(dayOfMonth)
  {
    var w := ApproxWeek(dayOfMonth);
    assert dayOfMonth + 6 == 7 * w + (dayOfMonth + 6) % 7;
  }

  /**
   * The range computed on first load, week `ceil(day / 7)` of today's month,
   * contains today (for years outside 0..99, which the Date constructor would
   * read as 1900..1999).
   */
  lemma FirstLoadCoversToday(today: CalendarDate)
    requires !(0 <= today.year <= 99)
    ensures DayNumber(Period(Week, today.year, today.month, ApproxWeek(today.day)).0) <= DayNumber(today)
    ensures DayNumber(today) <= DayNumber(Period(Week, today.year, today.month, ApproxWeek(today.day)).1)
  {
    var y, m, d := today.year, today.month, today.day;
    var w := ApproxWeek(d);
    CapNeverApplies(d);
    assert FullYear(y) == y;
    DaysShift(y, m, 1 + (w - 1) * 7, d - (1 + (w - 1) * 7));
    DaysShift(y, m, d, w * 7 - d);
  }

  // ---------------------------------------------------------------------------
  // Totals
  // ---------------------------------------------------------------------------

  /** What the page shows after an analysis: the two record lists and the totals cards. */
  datatype Report = Report(expenses: seq<Expense>, sales: seq<Sale>, totals: Stats)

  /**
   * `handleAnalyze`: with no estate selected nothing changes; otherwise the page
   * shows the returned lists and the server's totals, with profit = income - expense.
   */
  function HandleAnalyze(selectedIds: seq<string>, current: Report,
                         expenses: seq<Expense>, expenseTotal: real, sales: seq<Sale>, incomeTotal: real)
    : (r: Report)
    ensures |selectedIds| == 0 ==> r == current
    ensures |selectedIds| > 0 ==> r.expenses == expenses && r.sales == sales
    ensures |selectedIds| > 0 ==>
      r.totals.income == incomeTotal && r.totals.expense == expenseTotal && r.totals.profit == incomeTotal - expenseTotal
  {
    if |selectedIds| == 0 then current
    else Report(expenses, sales, ComputeStats(incomeTotal, expenseTotal))
  }

  // ---------------------------------------------------------------------------
  // Timeline
  // ---------------------------------------------------------------------------

  /** The group label `Mon, Feb 3`: weekday, month and day, without the year. */
  datatype DayLabel = DayLabel(weekday: int, month: int, day: int)

  function DayLabelOf(t: Transaction): DayLabel {
    var d := t.When();
    DayLabel(Weekday(d), d.month, d.day)
  }

  /** The groups object: one entry per label that occurs, holding that label's items in list order. */
  function Timeline(combined: seq<Transaction>): map<DayLabel, seq<Transaction>> {
    GroupsOf(combined, DayLabelOf)
  }

  /**
   * `getMergedTimeline`: the groups, and their labels in the order the object
   * received them (what `Object.keys` returns).
   */
  method GetMergedTimeline(expenses: seq<Expense>, sales: seq<Sale>)
    returns (groups: map<DayLabel, seq<Transaction>>, labels: seq<DayLabel>)
    ensures groups == Timeline(Merged(expenses, sales))
    ensures labels == KeysOf(Merged(expenses, sales), DayLabelOf)
  {
    var combined := TagExpenses(expenses) + TagSales(sales);
    groups, labels := map[], [];
    ghost var done: seq<Transaction> := [];
    var i := 0;
    while i < |combined|
      invariant 0 <= i <= |combined|
      invariant done == combined[..i]
      invariant GroupedSoFar(done, DayLabelOf, groups, labels)
    {
      var item := combined[i];
      var k := DayLabelOf(item);
      GroupStep(done, item, DayLabelOf, groups, labels);
      ghost var next := AddToGroup(groups, item, DayLabelOf);
      if k !in groups {
        groups := groups[k := []];
        labels := labels + [k];
      }
      groups := groups[k := groups[k] + [item]];
      assert groups == next;
      PrefixStep(combined, i);
      done := done + [item];
      i := i + 1;
    }
    assert combined[..i] == combined;
    GroupedAll(combined, DayLabelOf, groups, labels);
  }

  /** The date of a group's first item: the representative the comparator reads. */
  function GroupDate(groups: map<DayLabel, seq<Transaction>>, k: DayLabel): int {
    if k in groups && groups[k] != [] then DayNumber(groups[k][0].When()) else 0
  }

  function NewestGroupFirst(groups: map<DayLabel, seq<Transaction>>): DayLabel -> int {
    k => -GroupDate(groups, k)
  }

  /** `sortedDates`: the labels, newest representative first; labels with the same date keep their order. */
  function SortedDates(groups: map<DayLabel, seq<Transaction>>, labels: seq<DayLabel>): (r: seq<DayLabel>)
    ensures multiset(r) == multiset(labels)
    ensures forall i, j :: 0 <= i < j < |r| ==> GroupDate(groups, r[i]) >= GroupDate(groups, r[j])
  {
    var r := SortBy(labels, NewestGroupFirst(groups));
    assert forall i, j :: 0 <= i < j < |r| ==> NewestGroupFirst(groups)(r[i]) <= NewestGroupFirst(groups)(r[j]);
    r
  }

  /** Counting every item once: `s.length` as a sum. */
  function One(t: Transaction): real { 1.0 }

  lemma {:induction false} CountIsLength(s: seq<Transaction>)
    ensures SumOf(s, One) == |s| as real
    decreases |s|
  {
    if s != [] {
      CountIsLength(s[..|s| - 1]);
    }
  }

  /**
   * The timeline partitions the merged records: each lands in the group of its
   * own label and in no other, no group is empty, the group sizes add up to the
   * number of records, and a group lists its expenses first and then its
   * sales, each in the order the server returned them.
   */
  lemma TimelinePartition(expenses: seq<Expense>, sales: seq<Sale>)
    ensures var c := Merged(expenses, sales); var t := Timeline(c);
      && (forall i :: 0 <= i < |c| ==> DayLabelOf(c[i]) in t && c[i] in t[DayLabelOf(c[i])])
      && (forall k, x :: k in t && x in t[k] ==> DayLabelOf(x) == k)
      && (forall k :: k in t ==> t[k] != [])
      && GroupSum(KeysOf(c, DayLabelOf), c, DayLabelOf, One) == |c| as real
      && (forall k :: k in t ==>
            t[k] == Matching(TagExpenses(expenses), DayLabelOf, k) + Matching(TagSales(sales), DayLabelOf, k))
  {
    var c := Merged(expenses, sales);
    var t := Timeline(c);
    forall i | 0 <= i < |c|
      ensures DayLabelOf(c[i]) in t && c[i] in t[DayLabelOf(c[i])]
    {
      InOwnGroup(c, DayLabelOf, i);
    }
    forall k | k in t
      ensures t[k] != []
      ensures t[k] == Matching(TagExpenses(expenses), DayLabelOf, k) + Matching(TagSales(sales), DayLabelOf, k)
    {
      MatchingEmpty(c, DayLabelOf, k);
      MatchingAppend(TagExpenses(expenses), TagSales(sales), DayLabelOf, k);
    }
    PartitionSum(c, DayLabelOf, One);
    CountIsLength(c);
  }

  /** Within a group no sale comes before an expense. */
  lemma ExpensesBeforeSales(expenses: seq<Expense>, sales: seq<Sale>, k: DayLabel, i: int, j: int)
    requires k in Timeline(Merged(expenses, sales))
    requires 0 <= i < j < |Timeline(Merged(expenses, sales))[k]|
    requires Timeline(Merged(expenses, sales))[k][j].Spent?
    ensures Timeline(Merged(expenses, sales))[k][i].Spent?
  {
    var c := Merged(expenses, sales);
    assert Timeline(c)[k] == Matching(c, DayLabelOf, k);
    FirstPartFirst(TagExpenses(expenses), TagSales(sales), DayLabelOf, k, IsSpent, i, j);
  }

  predicate IsSpent(t: Transaction) {
    t.Spent?
  }

  /** A group's representative is the first merged record with its label. */
  lemma GroupDateIsFirst(c: seq<Transaction>, i: nat)
    requires i < |c|
    requires forall j :: 0 <= j < i ==> DayLabelOf(c[j]) != DayLabelOf(c[i])
    ensures GroupDate(Timeline(c), DayLabelOf(c[i])) == DayNumber(c[i].When())
  {
    GroupHead(c, DayLabelOf, i);
    MatchingEmpty(c, DayLabelOf, DayLabelOf(c[i]));
  }

  /**
   * Labels omit the year, so one group can hold several years' records under one
   * label. When all records fall in one year, every record of a group has the
   * group's date, and the newest-first order is the order of the days themselves.
   */
  lemma OneYearGroupsShareADate(c: seq<Transaction>, year: int, k: DayLabel, x: Transaction)
    requires forall i :: 0 <= i < |c| ==> c[i].When().year == year
    requires k in Timeline(c) && x in Timeline(c)[k]
    ensures x.When() == Timeline(c)[k][0].When()
    ensures GroupDate(Timeline(c), k) == DayNumber(x.When())
  {
    var g := Timeline(c)[k];
    MatchingEmpty(c, DayLabelOf, k);
    MatchingFrom(c, DayLabelOf, k);
    assert g[0] in c && x in c;
  }

  /**
   * An anchor for the label encoding: two records with the same label in
   * different years, so the label holds both.
   */
  lemma LabelsIgnoreTheYear()
    ensures DayLabelOf(Spent(Expense("", Date(2019, 0, 7), "", 0.0, "")))
         == DayLabelOf(Spent(Expense("", Date(2013, 0, 7), "", 0.0, "")))
  {
    assert DayNumber(Date(2013, 0, 7)) == 15712;
    assert DayNumber(Date(2019, 0, 7)) == 17903;
  }
}
