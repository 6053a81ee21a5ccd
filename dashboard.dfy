/**
 * The dashboard: the reporting period relative to today, the summary cards, the
 * six most recent transactions and the income/expense chart, whose buckets are
 * months for a year or quarter and days otherwise.
 */
module Dashboard {
  import opened Calendar
  import opened IsoDate
  import opened Sorting
  import opened Grouping
  import opened Records
  import opened Outcomes

  datatype Mode = Week | Month | Quarter | Year | Custom

  // ---------------------------------------------------------------------------
  // The reporting period
  // ---------------------------------------------------------------------------

  /** A JavaScript `Date` object, reduced to the calendar day it shows. */
  class LocalDate {
    var date: CalendarDate

    constructor(d: CalendarDate)
      ensures date == d
    {
      date := d;
    }

    /** `setDate(dt)`: day dt of the current month, rolled over; returns the new day count. */
    method SetDate(dt: int) returns (t: int)
      modifies this
      ensures date == MakeDate(old(date).year, old(date).month, dt)
      ensures t == DayNumber(date) == DayNumber(old(date)) + dt - old(date).day
    {
      date := MakeDate(date.year, date.month, dt);
      t := DayNumber(date);
    }
  }

  /**
   * What `getDates` produces: the first and last day of the period (sent as
   * `YYYY-MM-DD` strings), null while a custom bound is still empty, or an
   * exception when a custom bound names no date.
   */
  datatype Resolution = Resolved(start: CalendarDate, end: CalendarDate) | Waiting | Unparseable

  /** Both custom bounds are filled in and name dates. */
  predicate Ready(customStart: string, customEnd: string) {
    customStart != "" && customEnd != "" && Parse(customStart).Some? && Parse(customEnd).Some?
  }

  /** The period `getDates` resolves for a mode, today and the two custom bounds. */
  function Resolve(mode: Mode, now: CalendarDate, customStart: string, customEnd: string): Resolution {
    match mode
    case Week => Resolved(WeekStart(now), WeekEnd(now))
    case Month => MonthsSpan(now.year, now.month, now.month)
    case Quarter => QuarterSpan(now.year, now.month)
    case Year => YearSpan(now.year)
    case Custom => CustomRange(customStart, customEnd)
  }

  /** The date `setDate(getDate() - getDay())` leaves: today stepped back by its weekday. */
  function WeekStart(now: CalendarDate): CalendarDate {
    MakeDate(now.year, now.month, now.day - Weekday(now))
  }

  /** The date the second `setDate` leaves: six days after the week's start. */
  function WeekEnd(now: CalendarDate): CalendarDate {
    var start := WeekStart(now);
    MakeDate(start.year, start.month, start.day + 6)
  }

  /** `getDates`, with today's local date passed in. */
  method GetDates(mode: Mode, now: CalendarDate, customStart: string, customEnd: string) returns (r: Resolution)
    ensures r == Resolve(mode, now, customStart, customEnd)
    ensures mode == Week ==> r.Resolved? && SundayToSaturday(now, r.start, r.end)
    ensures mode == Month ==> r == Resolved(FirstOfMonth(FullYear(now.year), now.month), LastOfMonth(FullYear(now.year), now.month))
    ensures mode == Quarter ==>
      r == Resolved(FirstOfMonth(FullYear(now.year), now.month / 3 * 3), LastOfMonth(FullYear(now.year), now.month / 3 * 3 + 2))
    ensures mode == Year ==> r == Resolved(FirstOfMonth(FullYear(now.year), 0), LastOfMonth(FullYear(now.year), 11))
    ensures mode != Custom ==> r.Resolved?
    ensures mode == Custom ==> r == CustomRange(customStart, customEnd)
  {
    if mode == Week {
      var start, end := WeekRange(now);
      r := Resolved(start, end);
    } else if mode == Month {
      r := MonthsSpan(now.year, now.month, now.month);
    } else if mode == Quarter {
      r := QuarterSpan(now.year, now.month);
    } else if mode == Year {
      r := YearSpan(now.year);
    } else {
      r := CustomRange(customStart, customEnd);
    }
  }

  /**
   * The custom branch: nothing to fetch while either bound is empty, else the
   * two dates the strings name, or Unparseable when one names none.
   */
  function CustomRange(customStart: string, customEnd: string): (r: Resolution)
    ensures r == Waiting <==> customStart == "" || customEnd == ""
    ensures r.Resolved? <==> Ready(customStart, customEnd)
    ensures r.Resolved? ==> Parse(customStart) == Some(r.start) && Parse(customEnd) == Some(r.end)
  {
    if customStart == "" || customEnd == "" then Waiting
    else
      var start, end := Parse(customStart), Parse(customEnd);
      if start.Some? && end.Some? then Resolved(start.value, end.value) else Unparseable
  }

  /** The week holding today, from its Sunday to its Saturday. */
  predicate SundayToSaturday(now: Date, start: Date, end: Date) {
    && Weekday(start) == 0
    && DayNumber(start) == DayNumber(now) - Weekday(now)
    && DayNumber(end) == DayNumber(start) + 6
  }

  /** The week case: step today's date back to Sunday, then forward six days. */
  method WeekRange(now: CalendarDate) returns (start: CalendarDate, end: CalendarDate)
    ensures start == WeekStart(now) && end == WeekEnd(now)
    ensures SundayToSaturday(now, start, end)
  {
    var clock := new LocalDate(now);
    var day := Weekday(clock.date);
    var diff := clock.date.day - day;
    var _ := clock.SetDate(diff);
    start := clock.date;
    var _ := clock.SetDate(start.day + 6);
    end := clock.date;
    SundayBefore(now);
  }

  /**
   * `new Date(y, first, 1)` to `new Date(y, last + 1, 0)`: from the first day of
   * one month to the last day of another, day 0 of a month being the last day
   * of the month before.
   */
  function MonthsSpan(year: int, first: int, last: int): (r: Resolution)
    requires 0 <= first <= last < 12
    ensures r == Resolved(FirstOfMonth(FullYear(year), first), LastOfMonth(FullYear(year), last))
  {
    MakeDateValid(Date(FullYear(year), first, 1));
    DayZeroIsLastDay(FullYear(year), last);
    Resolved(NewDate(year, first, 1), NewDate(year, last + 1, 0))
  }

  /** The quarter holding month m: from the first day of its first month to the last day of its third. */
  function QuarterSpan(year: int, month: int): (r: Resolution)
    requires 0 <= month < 12
    ensures r == Resolved(FirstOfMonth(FullYear(year), month / 3 * 3), LastOfMonth(FullYear(year), month / 3 * 3 + 2))
  {
    var currQuarter := month / 3;
    assert 0 <= currQuarter < 4;
    MonthsSpan(year, currQuarter * 3, currQuarter * 3 + 2)
  }

  /** `new Date(y, 0, 1)` to `new Date(y, 11, 31)`: New Year's Day to New Year's Eve. */
  function YearSpan(year: int): (r: Resolution)
    ensures r == Resolved(FirstOfMonth(FullYear(year), 0), LastOfMonth(FullYear(year), 11))
  {
    MakeDateValid(Date(FullYear(year), 0, 1));
    MakeDateValid(Date(FullYear(year), 11, 31));
    Resolved(NewDate(year, 0, 1), NewDate(year, 11, 31))
  }

  /** Stepping back by today's weekday lands on a Sunday. */
  lemma SundayBefore(now: Date)
    ensures Weekday(MakeDate(now.year, now.month, now.day - Weekday(now))) == 0
  {
    var n := DayNumber(now);
    DaysShift(now.year, now.month, now.day, -WeekdayOf(n));
    BackToSunday(n);
  }

  /**
   * The week runs Sunday to Saturday around today, so it contains today even
   * when it starts in the previous month or ends in the next (or in another year).
   */
  lemma WeekContainsToday(now: CalendarDate, start: Date, end: Date)
    requires DayNumber(start) == DayNumber(now) - Weekday(now)
    requires DayNumber(end) == DayNumber(start) + 6
    ensures DayNumber(start) <= DayNumber(now) <= DayNumber(end)
    ensures Weekday(start) == 0 && Weekday(end) == 6
  {
    BackToSunday(DayNumber(now));
  }

  /**
   * A quarter covers exactly the days of its three months: a day is inside
   * the range exactly when it has the same year and the same quarter.
   */
  lemma QuarterCovers(year: int, month: int, d: Date)
    requires 0 <= month < 12 && d.Valid()
    ensures var q := month / 3 * 3;
      DayNumber(Date(year, q, 1)) <= DayNumber(d) <= DayNumber(Date(year, q + 2, DaysInMonth(year, q + 2)))
      <==> d.year == year && d.month / 3 == month / 3
  {
    var q := month / 3 * 3;
    InRange(Date(year, q, 1), Date(year, q + 2, DaysInMonth(year, q + 2)), d);
  }

  /**
   * The period of every mode but CUSTOM contains today, for years outside
   * 0..99 (which the Date constructor would read as 1900..1999).
   */
  lemma PeriodContainsToday(now: CalendarDate, start: Date, end: Date, mode: Mode)
    requires !(0 <= now.year <= 99)
    requires mode == Month ==> start == FirstOfMonth(now.year, now.month) && end == LastOfMonth(now.year, now.month)
    requires mode == Quarter ==>
      start == FirstOfMonth(now.year, now.month / 3 * 3) && end == LastOfMonth(now.year, now.month / 3 * 3 + 2)
    requires mode == Year ==> start == FirstOfMonth(now.year, 0) && end == LastOfMonth(now.year, 11)
    requires mode == Month || mode == Quarter || mode == Year
    ensures DayNumber(start) <= DayNumber(now) <= DayNumber(end)
  {
    if mode == Quarter {
      QuarterCovers(now.year, now.month, now);
    } else {
      InRange(start, end, now);
    }
  }

  /** The query strings of a resolved period: `{ from: format(start), to: format(end) }`. */
  function Query(r: Resolution): (q: (string, string))
    requires r.Resolved?
    ensures 0 <= r.start.year <= 9999 ==> Parse(q.0) == Some(r.start)
    ensures 0 <= r.end.year <= 9999 ==> Parse(q.1) == Some(r.end)
  {
    FourDigitRoundTrip(r.start);
    FourDigitRoundTrip(r.end);
    (Format(r.start), Format(r.end))
  }

  lemma FourDigitRoundTrip(d: CalendarDate)
    ensures 0 <= d.year <= 9999 ==> Parse(Format(d)) == Some(d)
  {
    if 0 <= d.year <= 9999 {
      ParseFormat(d);
    }
  }

  // ---------------------------------------------------------------------------
  // Chart buckets
  // ---------------------------------------------------------------------------

  datatype Granularity = ByMonth | ByDay

  /** Month buckets for a year or a quarter, day buckets otherwise. */
  function GranularityOf(mode: Mode): (g: Granularity)
    ensures g == ByMonth <==> mode == Year || mode == Quarter
  {
    if mode == Year || mode == Quarter then ByMonth else ByDay
  }

  /** The bucket label, `Jan` or `Jan 05`: the month, or the day and month, never the year. */
  datatype BucketKey = MonthKey(month: int) | DayKey(day: int, month: int)

  function KeyFor(g: Granularity, t: Transaction): BucketKey {
    if g == ByMonth then MonthKey(t.When().month) else DayKey(t.When().day, t.When().month)
  }

  function BucketKeyOf(g: Granularity): Transaction -> BucketKey {
    t => KeyFor(g, t)
  }

  /** One chart point: `{ name, Income, Expense, sortDate }`, sortDate being the date of the item that created it. */
  datatype Bucket = Bucket(name: BucketKey, income: real, expense: real, sortDate: Date)

  function NameOf(b: Bucket): BucketKey { b.name }
  function IncomeOf(b: Bucket): real { b.income }
  function ExpenseOf(b: Bucket): real { b.expense }
  /** The sort key of `(a, b) => a.sortDate - b.sortDate`. */
  function SortDateOf(b: Bucket): int { DayNumber(b.sortDate) }

  /** The chart folds the sales first, then the expenses. */
  function ChartItems(expenses: seq<Expense>, sales: seq<Sale>): seq<Transaction> {
    TagSales(sales) + TagExpenses(expenses)
  }

  /**
   * The bucket for label k: the income and expense of the items with that
   * label, dated by the first such item (the one that created the bucket).
   */
  function BucketFor(items: seq<Transaction>, key: Transaction -> BucketKey, k: BucketKey): Bucket {
    BucketHolding(k, Matching(items, key, k))
  }

  /** The bucket labelled k that holds the items m: their totals, dated by the first of them. */
  function BucketHolding(k: BucketKey, m: seq<Transaction>): Bucket {
    Bucket(k, SumOf(m, IncomePart), SumOf(m, ExpensePart), if m == [] then Date(1970, 0, 1) else m[0].When())
  }

  /** One more item adds its amount to the bucket; the first item also dates it. */
  lemma BucketHoldingSnoc(k: BucketKey, m: seq<Transaction>, x: Transaction)
    ensures BucketHolding(k, m + [x]) == Added(if m == [] then Fresh(k, x) else BucketHolding(k, m), x)
  {
    SumOfSnoc(m, x, IncomePart);
    SumOfSnoc(m, x, ExpensePart);
    assert (m + [x])[0] == if m == [] then x else m[0];
  }

  function BucketsFor(ks: seq<BucketKey>, items: seq<Transaction>, key: Transaction -> BucketKey): (r: seq<Bucket>)
    ensures |r| == |ks|
    ensures forall i :: 0 <= i < |ks| ==> r[i] == BucketFor(items, key, ks[i])
  {
    if ks == [] then [] else BucketsFor(ks[..|ks| - 1], items, key) + [BucketFor(items, key, ks[|ks| - 1])]
  }

  /** `chartData`: one bucket per label in order of creation, then sorted by sortDate, ties kept in order. */
  function Chart(expenses: seq<Expense>, sales: seq<Sale>, mode: Mode): seq<Bucket> {
    var items := ChartItems(expenses, sales);
    var key := BucketKeyOf(GranularityOf(mode));
    SortBy(BucketsFor(KeysOf(items, key), items, key), SortDateOf)
  }

  /** What the fold holds after the items `done`: the labels in order of creation, and each one's bucket. */
  ghost predicate FoldedSoFar(done: seq<Transaction>, key: Transaction -> BucketKey,
                              dataMap: map<BucketKey, Bucket>, order: seq<BucketKey>) {
    && order == KeysOf(done, key)
    && (forall k :: k in order ==> k in dataMap)
    && (forall k :: k in dataMap ==> k in order && dataMap[k] == BucketFor(done, key, k))
  }

  /** `dataMap[key].Income += item.grandTotal` for a sale, `dataMap[key].Expense += item.amount` for an expense. */
  function Added(b: Bucket, x: Transaction): Bucket {
    if x.Earned? then b.(income := b.income + x.sale.grandTotal) else b.(expense := b.expense + x.expense.amount)
  }

  /** The empty bucket an item creates on first sight of its label. */
  function Fresh(k: BucketKey, x: Transaction): Bucket {
    Bucket(k, 0.0, 0.0, x.When())
  }

  /** One more item changes only its own label's bucket, and adds its amount to it. */
  lemma BucketStep(done: seq<Transaction>, x: Transaction, key: Transaction -> BucketKey, k: BucketKey)
    ensures BucketFor(done + [x], key, k)
         == if key(x) != k then BucketFor(done, key, k)
            else if Matching(done, key, k) == [] then Added(Fresh(k, x), x)
            else Added(BucketFor(done, key, k), x)
  {
    if key(x) == k {
      BucketGrows(done, x, key);
    } else {
      MatchingSnoc(done, x, key, k);
      assert Matching(done, key, k) + [] == Matching(done, key, k);
    }
  }

  /** The item's own bucket: created by the item when new, and its amount added in its column. */
  lemma BucketGrows(done: seq<Transaction>, x: Transaction, key: Transaction -> BucketKey)
    ensures var k := key(x);
      BucketFor(done + [x], key, k)
         == if Matching(done, key, k) == [] then Added(Fresh(k, x), x)
            else Added(BucketFor(done, key, k), x)
  {
    var k := key(x);
    MatchingSnoc(done, x, key, k);
    BucketHoldingSnoc(k, Matching(done, key, k), x);
  }

  /** The map after one item: its label's bucket created if missing, then the item's amount added to it. */
  function FoldItem(dataMap: map<BucketKey, Bucket>, x: Transaction, key: Transaction -> BucketKey): (r: map<BucketKey, Bucket>)
    ensures r.Keys == dataMap.Keys + {key(x)}
  {
    var k := key(x);
    var created := if k in dataMap then dataMap else dataMap[k := Fresh(k, x)];
    created[k := Added(created[k], x)]
  }

  /** One step of the fold keeps the fold's invariant, with the label appended on first sight. */
  lemma FoldStep(done: seq<Transaction>, x: Transaction, key: Transaction -> BucketKey,
                 dataMap: map<BucketKey, Bucket>, order: seq<BucketKey>)
    requires FoldedSoFar(done, key, dataMap, order)
    ensures FoldedSoFar(done + [x], key, FoldItem(dataMap, x, key), if key(x) in dataMap then order else order + [key(x)])
  {
    var dataMap' := FoldItem(dataMap, x, key);
    var order' := if key(x) in dataMap then order else order + [key(x)];
    FoldKeys(done, x, key, dataMap, order);
    forall k' | k' in dataMap'
      ensures k' in order' && dataMap'[k'] == BucketFor(done + [x], key, k')
    {
      FoldValue(done, x, key, dataMap, order, k');
    }
  }

  /** After one step, the labels are those of the items seen so far, and each has an entry. */
  lemma FoldKeys(done: seq<Transaction>, x: Transaction, key: Transaction -> BucketKey,
                 dataMap: map<BucketKey, Bucket>, order: seq<BucketKey>)
    requires FoldedSoFar(done, key, dataMap, order)
    ensures var order' := if key(x) in dataMap then order else order + [key(x)];
      && order' == KeysOf(done + [x], key)
      && (forall k' :: k' in order' <==> k' in FoldItem(dataMap, x, key))
  {
    KeysOfSnoc(done, x, key);
  }

  /** After one step, each label's entry is the bucket of the items seen so far. */
  lemma FoldValue(done: seq<Transaction>, x: Transaction, key: Transaction -> BucketKey,
                  dataMap: map<BucketKey, Bucket>, order: seq<BucketKey>, k': BucketKey)
    requires FoldedSoFar(done, key, dataMap, order)
    requires k' in FoldItem(dataMap, x, key)
    ensures k' in dataMap || k' == key(x)
    ensures FoldItem(dataMap, x, key)[k'] == BucketFor(done + [x], key, k')
  {
    var k := key(x);
    var dataMap' := FoldItem(dataMap, x, key);
    BucketStep(done, x, key, k');
    if k' == k {
      MatchingEmpty(done, key, k);
      if k in dataMap {
        assert dataMap'[k] == Added(BucketFor(done, key, k), x);
      } else {
        assert dataMap'[k] == Added(Fresh(k, x), x);
      }
    } else {
      assert dataMap'[k'] == dataMap[k'];
    }
  }

  /** The state of `addToMap`'s fold: the map, and its labels in insertion order. */
  datatype Fold = Fold(dataMap: map<BucketKey, Bucket>, order: seq<BucketKey>)

  /** The fold after one more item: a new label is appended to the order, and the item goes into its bucket. */
  function FoldStepOf(f: Fold, x: Transaction, key: Transaction -> BucketKey): (r: Fold)
    ensures r.dataMap.Keys == f.dataMap.Keys + {key(x)}
    ensures key(x) in f.dataMap ==> r.order == f.order
  {
    Fold(FoldItem(f.dataMap, x, key), if key(x) in f.dataMap then f.order else f.order + [key(x)])
  }

  /** The fold after the items s, from an empty map. */
  function FoldOf(s: seq<Transaction>, key: Transaction -> BucketKey): Fold {
    if s == [] then Fold(map[], [])
    else FoldStepOf(FoldOf(s[..|s| - 1], key), s[|s| - 1], key)
  }

  lemma FoldOfSnoc(s: seq<Transaction>, x: Transaction, key: Transaction -> BucketKey)
    ensures FoldOf(s + [x], key) == FoldStepOf(FoldOf(s, key), x, key)
  {
    assert (s + [x])[..|s|] == s;
  }

  /** The fold of any list holds each label's bucket, the labels in order of first appearance. */
  lemma {:induction false} FoldOfFolded(s: seq<Transaction>, key: Transaction -> BucketKey)
    ensures FoldedSoFar(s, key, FoldOf(s, key).dataMap, FoldOf(s, key).order)
    decreases |s|
  {
    if s != [] {
      var p, x := s[..|s| - 1], s[|s| - 1];
      SplitLast([], s);
      var f := FoldOf(p, key);
      assert FoldOf(s, key) == FoldStepOf(f, x, key);
      FoldOfFolded(p, key);
      FoldStep(p, x, key, f.dataMap, f.order);
    }
  }

  /**
   * The `forEach` callback of `addToMap`: open the item's bucket, dated by the
   * item, when its label is new, then add the item to its column.
   */
  method AddItem(dataMap: map<BucketKey, Bucket>, order: seq<BucketKey>, item: Transaction, key: Transaction -> BucketKey)
    returns (dataMap': map<BucketKey, Bucket>, order': seq<BucketKey>)
    ensures Fold(dataMap', order') == FoldStepOf(Fold(dataMap, order), item, key)
  {
    var k := key(item);
    dataMap', order' := dataMap, order;
    if k !in dataMap' {
      dataMap' := dataMap'[k := Fresh(k, item)];
      order' := order' + [k];
    }
    dataMap' := dataMap'[k := Added(dataMap'[k], item)];
  }

  /**
   * `addToMap(list, keyField)`: fold one list into the map. The sales list is
   * folded as tagged sales (`keyField === 'income'`), the expenses as tagged
   * expenses, so the tag decides the column.
   */
  method AddToMap(dataMap: map<BucketKey, Bucket>, order: seq<BucketKey>, ghost before: seq<Transaction>,
                  list: seq<Transaction>, key: Transaction -> BucketKey)
    returns (dataMap': map<BucketKey, Bucket>, order': seq<BucketKey>)
    requires Fold(dataMap, order) == FoldOf(before, key)
    ensures Fold(dataMap', order') == FoldOf(before + list, key)
  {
    dataMap', order' := dataMap, order;
    ghost var done := before;
    var i := 0;
    while i < |list|
      invariant 0 <= i <= |list|
      invariant done == before + list[..i]
      invariant Fold(dataMap', order') == FoldOf(done, key)
    {
      var item := list[i];
      FoldOfSnoc(done, item, key);
      dataMap', order' := AddItem(dataMap', order', item, key);
      TakeOneMore(before, list, i);
      done := done + [item];
      i := i + 1;
    }
    assert list[..i] == list;
  }

  /** `processChartData`: fold the sales, then the expenses, take the map's values and sort them by sortDate. */
  method ProcessChartData(expList: seq<Expense>, saleList: seq<Sale>, mode: Mode) returns (chart: seq<Bucket>)
    ensures chart == Chart(expList, saleList, mode)
  {
    var key := BucketKeyOf(GranularityOf(mode));
    var sales, expenses := TagSales(saleList), TagExpenses(expList);
    FoldEmpty(sales, key);
    var dataMap, order := AddToMap(map[], [], [], sales, key);
    dataMap, order := AddToMap(dataMap, order, sales, expenses, key);
    FoldOfFolded(sales + expenses, key);
    FoldedValues(sales + expenses, key, dataMap, order);
    var values := ValuesInOrder(dataMap, order);
    chart := SortBy(values, SortDateOf);
  }

  /** The fold starts from an empty map and no labels; a list folded onto nothing is itself. */
  lemma FoldEmpty(s: seq<Transaction>, key: Transaction -> BucketKey)
    ensures FoldOf([], key) == Fold(map[], [])
    ensures [] + s == s
  {
  }

  /** The map's values in the order of their labels are the buckets of those labels. */
  lemma FoldedValues(done: seq<Transaction>, key: Transaction -> BucketKey,
                     dataMap: map<BucketKey, Bucket>, order: seq<BucketKey>)
    requires FoldedSoFar(done, key, dataMap, order)
    ensures forall i :: 0 <= i < |order| ==> order[i] in dataMap
    ensures ValuesInOrder(dataMap, order) == BucketsFor(KeysOf(done, key), done, key)
  {
  }

  /** `Object.values(dataMap)`: the entries in the order their labels were inserted. */
  function ValuesInOrder(dataMap: map<BucketKey, Bucket>, order: seq<BucketKey>): (r: seq<Bucket>)
    requires forall i :: 0 <= i < |order| ==> order[i] in dataMap
    ensures |r| == |order|
    ensures forall i :: 0 <= i < |order| ==> r[i] == dataMap[order[i]]
  {
    seq(|order|, i requires 0 <= i < |order| => dataMap[order[i]])
  }

  lemma {:induction false} BucketColumns(ks: seq<BucketKey>, items: seq<Transaction>, key: Transaction -> BucketKey)
    ensures SumOf(BucketsFor(ks, items, key), IncomeOf) == GroupSum(ks, items, key, IncomePart)
    ensures SumOf(BucketsFor(ks, items, key), ExpenseOf) == GroupSum(ks, items, key, ExpensePart)
    decreases |ks|
  {
    if ks != [] {
      BucketColumns(ks[..|ks| - 1], items, key);
      assert BucketsFor(ks, items, key)[..|ks| - 1] == BucketsFor(ks[..|ks| - 1], items, key);
    }
  }

  /**
   * The chart accounts for every amount exactly once: its income column adds up
   * to the sales' grand totals and its expense column to the expenses' amounts.
   */
  lemma ChartReconciles(expenses: seq<Expense>, sales: seq<Sale>, mode: Mode)
    ensures SumOf(Chart(expenses, sales, mode), IncomeOf) == SumOf(sales, GrandTotalOf)
    ensures SumOf(Chart(expenses, sales, mode), ExpenseOf) == SumOf(expenses, AmountOf)
  {
    var items := ChartItems(expenses, sales);
    var key := BucketKeyOf(GranularityOf(mode));
    var ks := KeysOf(items, key);
    var unsorted := BucketsFor(ks, items, key);
    SumOfPermutation(Chart(expenses, sales, mode), unsorted, IncomeOf);
    SumOfPermutation(Chart(expenses, sales, mode), unsorted, ExpenseOf);
    BucketColumns(ks, items, key);
    PartitionSum(items, key, IncomePart);
    PartitionSum(items, key, ExpensePart);
    SumOfAppend(TagSales(sales), TagExpenses(expenses), IncomePart);
    SumOfAppend(TagSales(sales), TagExpenses(expenses), ExpensePart);
    SalesColumns(sales);
    ExpenseColumns(expenses);
  }

  /**
   * The chart's shape: its labels are distinct and are exactly the labels of
   * the records, each bucket is the one its label's records make, and the
   * buckets ascend by sortDate.
   */
  lemma ChartShape(expenses: seq<Expense>, sales: seq<Sale>, mode: Mode)
    ensures var items := ChartItems(expenses, sales); var key := BucketKeyOf(GranularityOf(mode));
      var chart := Chart(expenses, sales, mode);
      && DistinctBy(chart, NameOf)
      && |chart| == |KeysOf(items, key)|
      && (forall i :: 0 <= i < |items| ==> BucketFor(items, key, key(items[i])) in chart)
      && (forall b :: b in chart ==> b == BucketFor(items, key, b.name) && b.name in KeysOf(items, key))
      && SortedBy(chart, SortDateOf)
  {
    var items := ChartItems(expenses, sales);
    var key := BucketKeyOf(GranularityOf(mode));
    var unsorted := BucketsFor(KeysOf(items, key), items, key);
    var chart := Chart(expenses, sales, mode);
    assert chart == SortBy(unsorted, SortDateOf);
    BucketNamesDistinct(items, key);
    PermutationKeepsDistinct(unsorted, chart, NameOf);
    ImagesReordered(KeysOf(items, key), unsorted, chart, BucketOf(items, key), NameOf);
  }

  /** The unsorted buckets carry the distinct labels in order. */
  lemma BucketNamesDistinct(items: seq<Transaction>, key: Transaction -> BucketKey)
    ensures DistinctBy(BucketsFor(KeysOf(items, key), items, key), NameOf)
  {
    var ks := KeysOf(items, key);
    var unsorted := BucketsFor(ks, items, key);
    forall i, j | 0 <= i < j < |unsorted| ensures NameOf(unsorted[i]) != NameOf(unsorted[j]) {
      assert unsorted[i].name == ks[i] && unsorted[j].name == ks[j];
    }
  }

  function BucketOf(items: seq<Transaction>, key: Transaction -> BucketKey): BucketKey -> Bucket {
    k => BucketFor(items, key, k)
  }

  /** A bucket is dated by the first record with its label, sales before expenses. */
  lemma BucketDatedByFirstItem(expenses: seq<Expense>, sales: seq<Sale>, mode: Mode, i: nat)
    requires i < |ChartItems(expenses, sales)|
    requires var items := ChartItems(expenses, sales); var key := BucketKeyOf(GranularityOf(mode));
      forall j :: 0 <= j < i ==> key(items[j]) != key(items[i])
    ensures var items := ChartItems(expenses, sales); var key := BucketKeyOf(GranularityOf(mode));
      BucketFor(items, key, key(items[i])).sortDate == items[i].When()
  {
    var items := ChartItems(expenses, sales);
    var key := BucketKeyOf(GranularityOf(mode));
    GroupHead(items, key, i);
  }

  // ---------------------------------------------------------------------------
  // Recent transactions
  // ---------------------------------------------------------------------------

  /** The sort key of `(a, b) => new Date(b.date) - new Date(a.date)`: newest first. */
  function NewestFirst(t: Transaction): int {
    -DayNumber(t.When())
  }

  /** All records, tagged and merged (expenses first), sorted newest first; records of one day keep that order. */
  function ByRecency(expenses: seq<Expense>, sales: seq<Sale>): (r: seq<Transaction>)
    ensures multiset(r) == multiset(Merged(expenses, sales))
    ensures forall i, j :: 0 <= i < j < |r| ==> DayNumber(r[i].When()) >= DayNumber(r[j].When())
  {
    var r := SortBy(Merged(expenses, sales), NewestFirst);
    assert forall i, j :: 0 <= i < j < |r| ==> NewestFirst(r[i]) <= NewestFirst(r[j]);
    r
  }

  /** `allTx.slice(0, 6)`. */
  function RecentTransactions(expenses: seq<Expense>, sales: seq<Sale>): (r: seq<Transaction>)
    ensures |r| == if |expenses| + |sales| < 6 then |expenses| + |sales| else 6
    ensures forall i, j :: 0 <= i < j < |r| ==> DayNumber(r[i].When()) >= DayNumber(r[j].When())
    ensures multiset(r) <= multiset(Merged(expenses, sales))
  {
    var all := ByRecency(expenses, sales);
    assert |all| == |multiset(all)| == |multiset(Merged(expenses, sales))| == |expenses| + |sales|;
    var n := if |all| < 6 then |all| else 6;
    PrefixIncluded(all, n);
    all[..n]
  }

  /** A record that did not make the list (one of its copies, for duplicates) is no newer than any listed one. */
  lemma RecentOmitsNothingNewer(expenses: seq<Expense>, sales: seq<Sale>, t: Transaction, x: Transaction)
    requires multiset(RecentTransactions(expenses, sales))[t] < multiset(Merged(expenses, sales))[t]
    requires x in RecentTransactions(expenses, sales)
    ensures DayNumber(x.When()) >= DayNumber(t.When())
  {
    var all := SortBy(Merged(expenses, sales), NewestFirst);
    var n := |RecentTransactions(expenses, sales)|;
    assert RecentTransactions(expenses, sales) == all[..n];
    OmittedComeLater(all, n, t, x, NewestFirst);
  }

  /** Records of the same day keep the merged order: expenses before sales, each in server order. */
  lemma SameDayKeepsOrder(expenses: seq<Expense>, sales: seq<Sale>, v: int)
    ensures WithKey(ByRecency(expenses, sales), NewestFirst, v) == WithKey(Merged(expenses, sales), NewestFirst, v)
  {
    SortByIsStable(Merged(expenses, sales), NewestFirst, v);
  }

  // ---------------------------------------------------------------------------
  // The page state
  // ---------------------------------------------------------------------------

  /** The parameters of both report requests: the selected estates and the formatted period. */
  datatype ReportQuery = ReportQuery(estates: seq<string>, from: string, to: string)

  class DashboardView {
    var stats: Stats
    var chartData: seq<Bucket>
    var recentTx: seq<Transaction>

    /** The initial state: zero cards, no chart, no transactions. */
    constructor()
      ensures stats == NoStats && chartData == [] && recentTx == []
    {
      stats, chartData, recentTx := NoStats, [], [];
    }

    /** `resetData`. */
    method ResetData()
      modifies this
      ensures stats == NoStats && chartData == [] && recentTx == []
    {
      stats, chartData, recentTx := NoStats, [], [];
    }

    /**
     * `fetchData`: resolve the period and, when it resolves, send the query
     * and show the server's answer (its lists and totals are parameters here).
     * While a custom bound is empty, or when one names no date, nothing changes
     * and nothing is sent.
     */
    method FetchData(selectedIds: seq<string>, mode: Mode, now: CalendarDate, customStart: string, customEnd: string,
                     expenses: seq<Expense>, expenseTotal: real, sales: seq<Sale>, incomeTotal: real)
      returns (sent: Option<ReportQuery>)
      modifies this
      ensures mode == Custom && !Ready(customStart, customEnd) ==> sent == None && unchanged(this)
      ensures mode != Custom || Ready(customStart, customEnd)
        ==> && sent.Some? && sent.value.estates == selectedIds
            && stats == ComputeStats(incomeTotal, expenseTotal)
            && recentTx == RecentTransactions(expenses, sales)
            && chartData == Chart(expenses, sales, mode)
      ensures sent.Some? ==>
        && Resolve(mode, now, customStart, customEnd).Resolved?
        && (sent.value.from, sent.value.to) == Query(Resolve(mode, now, customStart, customEnd))
      ensures mode == Custom && sent.Some? ==> sent.value.from == customStart && sent.value.to == customEnd
    {
      var range := GetDates(mode, now, customStart, customEnd);
      assert range.Resolved? <==> mode != Custom || Ready(customStart, customEnd);
      if !range.Resolved? {
        return None;
      }
      var (from, to) := Query(range);
      if mode == Custom {
        FormatParse(customStart);
        FormatParse(customEnd);
      }
      sent := Some(ReportQuery(selectedIds, from, to));
      var chart := ProcessChartData(expenses, sales, mode);
      stats, recentTx, chartData := ComputeStats(incomeTotal, expenseTotal), RecentTransactions(expenses, sales), chart;
    }

    /** The data effect: fetch when some estate is selected, reset otherwise. */
    method Refresh(selectedIds: seq<string>, mode: Mode, now: CalendarDate, customStart: string, customEnd: string,
                   expenses: seq<Expense>, expenseTotal: real, sales: seq<Sale>, incomeTotal: real)
      returns (sent: Option<ReportQuery>)
      modifies this
      ensures |selectedIds| == 0 ==> sent == None && stats == NoStats && chartData == [] && recentTx == []
      ensures |selectedIds| > 0 && mode == Custom && !Ready(customStart, customEnd) ==> sent == None && unchanged(this)
      ensures |selectedIds| > 0 && (mode != Custom || Ready(customStart, customEnd))
        ==> && sent.Some? && sent.value.estates == selectedIds
            && stats == ComputeStats(incomeTotal, expenseTotal)
            && recentTx == RecentTransactions(expenses, sales)
            && chartData == Chart(expenses, sales, mode)
      ensures sent.Some? ==>
        && Resolve(mode, now, customStart, customEnd).Resolved?
        && (sent.value.from, sent.value.to) == Query(Resolve(mode, now, customStart, customEnd))
      ensures mode == Custom && sent.Some? ==> sent.value.from == customStart && sent.value.to == customEnd
    {
      if |selectedIds| > 0 {
        sent := FetchData(selectedIds, mode, now, customStart, customEnd, expenses, expenseTotal, sales, incomeTotal);
      } else {
        ResetData();
        sent := None;
      }
    }
  }
}
