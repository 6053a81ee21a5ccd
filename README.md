# Estate manager front end: reporting periods, charts, timeline and sale cart

This project models the logic inside four pages of a React front end for a
plantation-estate bookkeeping service, and proves properties of it in Dafny.

- **Tracker** (analytics page): turns a mode (week, month, year or custom) and
  a selected year, month and week into the `from`/`to` strings of a report
  request. It also sets the default week on first load, shows the totals card,
  and builds the timeline. The timeline tags and merges the expenses and sales
  the server returns, groups them by day label, and orders the groups newest
  first.
- **Dashboard**: resolves the reporting period relative to today (week,
  month, quarter, year or custom) and builds the summary cards. It lists the
  six most recent transactions, and folds sales and expenses into chart
  buckets: month buckets for a year or quarter, day buckets otherwise. The
  buckets are sorted by the date of the item that created each one.
- **Expense entry**: derives the logging date of a week from the chosen year,
  month and week (`Date.UTC(year, month, week * 7)`, rolled over). It checks a
  general expense or a wage payment before sending it.
- **Sales entry**: a cart of bill lines built from the rubber sheet/scrap
  fields or the generic crop fields. Lines can be removed by index or all at
  once, the cart is totalled, and it is sent as one sale.
- The estate multi-select shared by the tracker and the dashboard.

Dates are modelled by `Calendar` as JavaScript's `Date` treats them.
`Days(y, m, d)` is ECMAScript's MakeDay, a day count from 1970-01-01 that
accepts out-of-range months and days. `MakeDate` is the unique real calendar
day with that count. `NewDate` adds the constructor's reading of years 0..99 as
1900..1999.

`IsoDate` formats dates as `YYYY-MM-DD` and parses that form back. `Sorting` is
a stable sort by an integer key, as `Array.prototype.sort` is required to be,
and a `reduce`-style sum. `Grouping` is the `if (!groups[k]) groups[k] = []`
pattern: insertion-ordered keys, and each group in list order.

Files:

- `outcomes.dfy`: Option and Result.
- `calendar.dfy`: date arithmetic.
- `iso_date.dfy`: date strings.
- `sorting.dfy`: sort and sums.
- `grouping.dfy`: grouping into a dictionary.
- `records.dfy`: records, tags, totals and the estate toggle.
- `estate_context.dfy`: how a page reads the selected estate out of the estate context.
- `tracker.dfy`, `dashboard.dfy`, `expense_entry.dfy` and `sales_entry.dfy`:
  the four pages.

Where the source mutates state step by step, the model is imperative:

- the grouping loop of the timeline;
- the `addToMap` fold of the chart;
- `setDate` on the dashboard's `now`;
- the sale cart, a class with one field per piece of page state.

Each of these methods is proved against a specification function, and the
properties are proved about that function.

## Model

| member | source | states |
|---|---|---|
| Calendar.RollDays | src/pages/Tracker.js:59-63 | A day before the 1st or past the month's end rolls into the neighbouring months; the result is a real date with the same day count |
| Calendar.MakeDate | src/pages/Dashboard.js:58-59 | The date a `Date` shows after `setDate(d)`: the only real day whose count is MakeDay(y, m, d) |
| Calendar.NewDate | src/pages/Tracker.js:59-66 | `new Date(y, m, d)` and `Date.UTC(y, m, d)` denote the day MakeDay(FullYear(y), m, d); years 0..99 are read as 1900..1999 |
| Calendar.MakeDateValid | src/pages/Dashboard.js:62 | A triple that is already a real date is left unchanged |
| Calendar.DayZeroIsLastDay | src/pages/Dashboard.js:63 | Day 0 of month m + 1 is the last day of month m, in every month and year (December's month + 1 is 12) |
| Calendar.RollIntoNextMonth | src/pages/ExpenseEntry.js:58-60 | Day (length of month m) + d of month m is day d of the next month, or of January of the next year |
| Calendar.DaysShift | src/pages/Tracker.js:57-60 | The day count moves by exactly k when the day moves by k, across month and year ends |
| Calendar.DayNumberOrder | src/pages/Dashboard.js:107 | Comparing timestamps orders real dates exactly as the calendar does, and equal counts mean equal dates |
| Calendar.BackToSunday | src/pages/Dashboard.js:56-57 | Stepping back by the `getDay` weekday lands on a Sunday, and six days later is a Saturday |
| Calendar.LeapDay2024WasThursday | src/pages/Dashboard.js:56 | The weekday numbering is `getDay`'s: 29 February 2024 gives 4 (Thursday) |
| Calendar.InRange | src/pages/Dashboard.js:61-70 | A real date's count lies between two real dates' counts exactly when it lies between them in calendar order |
| IsoDate.ParseFormat | src/pages/Dashboard.js:78 | For years 0..9999, parsing the `YYYY-MM-DD` text of a date gives the same date back |
| IsoDate.FormatParse | src/pages/Dashboard.js:73-74 | Every string that parses as a date is exactly that date's `YYYY-MM-DD` text |
| Sorting.SortBy | src/pages/Dashboard.js:153 | The sorted list ascends by the comparator's key and is a permutation of the input |
| Sorting.SortByIsStable | src/pages/Dashboard.js:107 | Elements with equal keys keep their input order |
| Grouping.KeysOf | src/pages/Tracker.js:163 | `Object.keys` of the groups: distinct, holding every item's key, in order of first appearance |
| Grouping.GroupStep | src/pages/Tracker.js:155-156 | One `forEach` step keeps the invariant: the keys seen, in order, and each key's group is the matching items seen so far |
| Grouping.GroupedAll | src/pages/Tracker.js:149-158 | After the whole list the dictionary is exactly the grouping of the list |
| Grouping.MatchingEmpty | src/pages/Tracker.js:155 | A key has a non-empty group exactly when some item carries it |
| Grouping.InOwnGroup | src/pages/Tracker.js:156 | Every item is pushed into the group of its own key |
| Grouping.GroupHead | src/pages/Tracker.js:165-166 | A group's first element is the first item in the list with that key |
| Grouping.MatchingAppend | src/pages/Tracker.js:146 | Grouping a concatenation puts the first list's items ahead of the second's, each in order |
| Grouping.PartitionSum | src/pages/Dashboard.js:144-145 | Summing group by group over the keys gives the sum over the whole list |
| Records.TagExpenses | src/pages/Tracker.js:143 | One expense-tagged transaction per expense, in order |
| Records.TagSales | src/pages/Tracker.js:144 | One income-tagged transaction per sale, in order |
| Records.ComputeStats | src/pages/Dashboard.js:96-102 | The cards carry the server's income and expense totals, and profit = income - expense |
| Records.ProfitIsNet | src/pages/Tracker.js:109-113 | When the server's totals are the sums of its records, the profit is the net of the merged records, in any order |
| EstateSelection.Without | src/pages/Tracker.js:125 | The filter drops every copy of the id and keeps every other id |
| EstateSelection.ToggleEstate | src/pages/Tracker.js:123-129 | The id's membership flips, every other id keeps its membership, and a new id is appended at the end (same code at Dashboard.js lines 160-166) |
| EstateSelection.ToggleTwiceRestores | src/pages/Tracker.js:123-129 | Ticking an unselected estate and unticking it restores the selection |
| Tracker.CalculateDateRange | src/pages/Tracker.js:67-70 | A custom range is stored exactly as typed |
| Tracker.WeekSpansSevenDays | src/pages/Tracker.js:56-60 | In week mode the end is exactly six days after the start, for any week of any month |
| Tracker.WeekWithinMonth | src/pages/Tracker.js:56-60 | Weeks 1 to 4 run from day 7w - 6 to day 7w of the selected month itself |
| Tracker.WeekFiveStart | src/pages/Tracker.js:57-59 | Week 5 starts on the 29th, except in February of a common year, where it starts on 1 March |
| Tracker.WeekFiveEnd | src/pages/Tracker.js:58-60 | Week 5 ends in the next month on day 35 minus the month's length; December's ends on 4 January |
| Tracker.MonthPeriod | src/pages/Tracker.js:61-63 | Month mode runs from the 1st to the true last day and covers exactly that month's days |
| Tracker.YearPeriod | src/pages/Tracker.js:64-66 | Year mode runs from 1 January to 31 December and covers exactly that year's days |
| Tracker.RangeNamesPeriod | src/pages/Tracker.js:73-79 | For periods lying in years 0..9999, the stored strings of a derived mode parse back to exactly the period's first and last day |
| Tracker.PeriodYears | src/pages/Tracker.js:56-66 | A derived period starts in the selected year and ends in it or the next |
| Tracker.DefaultWeek | src/pages/Tracker.js:45-46 | The week lit on first load is at most 5, and is `ceil(day / 7)` when that is at most 5 |
| Tracker.CapNeverApplies | src/pages/Tracker.js:44-46 | For every day 1..31 `ceil(day / 7)` is in 1..5 and its week holds the day, so the cap never acts |
| Tracker.FirstLoadCoversToday | src/pages/Tracker.js:43-48 | The range computed on first load contains today |
| Tracker.HandleAnalyze | src/pages/Tracker.js:90-113 | No estate selected: nothing changes; otherwise the lists and totals are the server's, with profit = income - expense |
| Tracker.GetMergedTimeline | src/pages/Tracker.js:141-159 | The loop builds exactly the grouping of the merged records by day label, with labels in order of first appearance |
| Tracker.SortedDates | src/pages/Tracker.js:163-168 | The labels, reordered so that the group dates (of each group's first item) never increase |
| Tracker.TimelinePartition | src/pages/Tracker.js:143-157 | Each record is in its own label's group, no group is empty, group sizes add up to the record count, and each group is its expenses and then its sales |
| Tracker.ExpensesBeforeSales | src/pages/Tracker.js:146-156 | Within a group, no sale comes before an expense |
| Tracker.GroupDateIsFirst | src/pages/Tracker.js:165-166 | A group's sort date is that of the first merged record with its label |
| Tracker.OneYearGroupsShareADate | src/pages/Tracker.js:151-156 | When all records fall in one year, every record of a group has the group's date |
| Tracker.LabelsIgnoreTheYear | src/pages/Tracker.js:152-154 | Two records a few years apart can share one label, so a group can mix years |
| Dashboard.LocalDate.SetDate | src/pages/Dashboard.js:58-59 | `setDate(dt)` moves the date to day dt of its month, rolled over, and returns the new timestamp |
| Dashboard.GetDates | src/pages/Dashboard.js:51-80 | The range is `Resolve` of the mode: week, Sunday to Saturday around today; month, quarter and year, first to last day of the period; custom, see CustomRange |
| Dashboard.CustomRange | src/pages/Dashboard.js:71-75 | An empty bound gives null; otherwise the range resolves exactly when both strings name dates, and then to those dates |
| Dashboard.WeekRange | src/pages/Dashboard.js:54-59 | The two `setDate` calls yield a Sunday start at today minus its weekday and an end six days later, the dates `Resolve` names for week mode |
| Dashboard.MonthsSpan | src/pages/Dashboard.js:61-63 | The first day of the first month to the last day of the last month |
| Dashboard.QuarterSpan | src/pages/Dashboard.js:64-67 | The first day of month 3 * floor(m / 3) to the last day of month 3 * floor(m / 3) + 2 |
| Dashboard.YearSpan | src/pages/Dashboard.js:68-70 | 1 January to 31 December of the current year |
| Dashboard.SundayBefore | src/pages/Dashboard.js:56-58 | Stepping today back by its weekday lands on a Sunday |
| Dashboard.WeekContainsToday | src/pages/Dashboard.js:54-59 | The week contains today, even when it crosses a month or year end |
| Dashboard.QuarterCovers | src/pages/Dashboard.js:64-67 | A real date lies in the quarter's range exactly when it has the same year and quarter |
| Dashboard.PeriodContainsToday | src/pages/Dashboard.js:61-70 | The month, quarter and year periods contain today |
| Dashboard.Query | src/pages/Dashboard.js:77-79 | For a first and a last day in years 0..9999, the `from`/`to` strings parse back to exactly those days |
| Dashboard.GranularityOf | src/pages/Dashboard.js:122 | Month buckets exactly for year and quarter mode |
| Dashboard.BucketGrows | src/pages/Dashboard.js:142-145 | The item's bucket is created on first sight, dated by that item, and the item's amount goes into its own column |
| Dashboard.BucketStep | src/pages/Dashboard.js:142-145 | One item changes only its own label's bucket |
| Dashboard.FoldStep | src/pages/Dashboard.js:128-146 | One callback keeps the fold invariant: labels in order of creation, and each entry is its label's bucket |
| Dashboard.FoldOfFolded | src/pages/Dashboard.js:127-150 | The fold of any list holds each label's bucket, with labels in order of first appearance |
| Dashboard.AddItem | src/pages/Dashboard.js:128-146 | The callback is one step of the fold specification |
| Dashboard.AddToMap | src/pages/Dashboard.js:127-147 | Folding a list onto the map is the fold of the items so far followed by the list |
| Dashboard.ProcessChartData | src/pages/Dashboard.js:120-157 | The chart is exactly the buckets of the sales and then the expenses, sorted by sort date |
| Dashboard.FoldedValues | src/pages/Dashboard.js:153 | `Object.values` gives the buckets in their labels' insertion order |
| Dashboard.ChartReconciles | src/pages/Dashboard.js:142-150 | The income column adds up to the sales' grand totals and the expense column to the expenses' amounts |
| Dashboard.ChartShape | src/pages/Dashboard.js:142-153 | Distinct labels, exactly the records' labels, each bucket its label's records, ascending by sort date |
| Dashboard.BucketDatedByFirstItem | src/pages/Dashboard.js:142 | A bucket's sort date is that of the first item with its label, sales before expenses |
| Dashboard.ByRecency | src/pages/Dashboard.js:105-107 | All merged records, newest first |
| Dashboard.RecentTransactions | src/pages/Dashboard.js:105-108 | min(6, record count) records, newest first, drawn from the merged list |
| Dashboard.RecentOmitsNothingNewer | src/pages/Dashboard.js:107-108 | A record left off the list is no newer than any record on it |
| Dashboard.SameDayKeepsOrder | src/pages/Dashboard.js:107 | Records of one day keep the merged order: expenses first, then sales |
| Dashboard.DashboardView.constructor | src/pages/Dashboard.js:26-28 | Zero cards, no chart, no transactions |
| Dashboard.DashboardView.ResetData | src/pages/Dashboard.js:45-49 | Zero cards, an empty chart and an empty list |
| Dashboard.DashboardView.FetchData | src/pages/Dashboard.js:82-111 | No custom range yet, or an unreadable one: nothing is sent and nothing changes; otherwise the query names the selected estates and the formatted `getDates` range (the typed strings in custom mode), and the cards, list and chart are those of the answer |
| Dashboard.DashboardView.Refresh | src/pages/Dashboard.js:37-43 | No estate selected resets the page; otherwise it fetches in every mode, with FetchData's outcome: nothing sent while a custom range is not ready, else the query of the resolved range and the answer's cards, list and chart |
| ExpenseEntry.LoggingDay | src/pages/ExpenseEntry.js:56-60 | The logging day is day week * 7 of the month counted from its day 0, rolled over |
| ExpenseEntry.LoggingDate | src/pages/ExpenseEntry.js:60-62 | For a logging day in years 0..9999, the date string parses back to exactly that day |
| ExpenseEntry.EarlyWeeksStayInMonth | src/pages/ExpenseEntry.js:56-60 | Weeks 1 to 4 log on day 7w (at most 28) of the chosen month |
| ExpenseEntry.FifthWeekRollsOver | src/pages/ExpenseEntry.js:56-60 | Week 5 logs in the next month (January of the next year for December) on day 35 minus the month's length, a day from 4 to 7 |
| ExpenseEntry.FebruaryFifthWeek | src/pages/ExpenseEntry.js:58-60 | February's week 5 logs on 7 March, or on 6 March in a leap year |
| ExpenseEntry.HandleSubmit | src/pages/ExpenseEntry.js:68-88 | No estate rejects, a wage without a worker rejects, and otherwise the payload carries the form's fields and date |
| ExpenseEntry.AfterSubmit | src/pages/ExpenseEntry.js:90-92 | A saved entry empties the amount and description; anything else leaves the form as it was |
| ExpenseEntry.SelectPeriod | src/pages/ExpenseEntry.js:47-65 | Choosing a period sets the date field to that period's logging date and changes nothing else |
| ExpenseEntry.PayloadDateIsLoggingDay | src/pages/ExpenseEntry.js:75-88 | For a logging day in years 0..9999, wage and general payloads both carry a date naming that day |
| SalesEntry.PricedLine | src/pages/SalesEntry.js:45-51 | A line's total is its weight times its rate |
| SalesEntry.RubberLines | src/pages/SalesEntry.js:44-62 | A Sheet line exactly when both sheet fields are filled, then a Scrap line exactly when both scrap fields are, all priced |
| SalesEntry.GenericLine | src/pages/SalesEntry.js:69-75 | One priced line named by the custom name for "Custom" and by the crop otherwise, sub-type "-" |
| SalesEntry.Addition | src/pages/SalesEntry.js:39-78 | Rejected exactly for rubber without any weight or another crop without weight and rate; otherwise at most two priced lines |
| SalesEntry.WeightWithoutRateAddsNothing | src/pages/SalesEntry.js:41-52 | A sheet weight without its rate passes the check but adds no line |
| SalesEntry.Spliced | src/pages/SalesEntry.js:83-87 | An index in range removes exactly one item; an index at or past the end removes nothing |
| SalesEntry.SpliceStart | src/pages/SalesEntry.js:85 | `splice` counts a negative index from the end, clamped to 0, and caps the index at the length |
| SalesEntry.RemoveKeepsOthers | src/pages/SalesEntry.js:83-87 | Removing index i keeps the items before it and shifts the ones after it down by one |
| SalesEntry.RemoveLowersTotal | src/pages/SalesEntry.js:83-87 | Removing an item takes exactly its line total off the bill |
| SalesEntry.AppendAddsTotals | src/pages/SalesEntry.js:80 | Appending lines adds their totals to the bill |
| SalesEntry.TotalOfPricedLines | src/pages/SalesEntry.js:117 | A bill of priced lines totals the weight times the rate of each line |
| SalesEntry.SaleForm.constructor | src/pages/SalesEntry.js:11-28 | The estate field holds the stored estate's id read through the destructured context (the corrected line 7, see Findings), the date is today's, rubber is selected, every field and the cart are empty |
| SalesEntry.SaleForm.CalculateGrandTotal | src/pages/SalesEntry.js:117 | The cart's total is the sum of weight times rate over its lines |
| SalesEntry.SaleForm.HandleAddItem | src/pages/SalesEntry.js:35-81 | A rejected click changes nothing; otherwise the new lines follow the old ones unchanged and the added crop's fields are emptied |
| SalesEntry.SaleForm.HandleRemoveItem | src/pages/SalesEntry.js:83-87 | The cart becomes the spliced copy and every line stays priced; the header, crop and entry fields are unchanged |
| SalesEntry.SaleForm.HandleRemoveAll | src/pages/SalesEntry.js:89-91 | An empty cart with a zero total; the header, crop and entry fields are unchanged |
| SalesEntry.SaleForm.HandleSubmitSale | src/pages/SalesEntry.js:94-115 | An empty cart, then a missing estate, is rejected, and the sale is sent exactly when the cart is non-empty and an estate is chosen; it carries the cart and its grand total, a save clears the cart and buyer, and the crop and entry fields are unchanged |
| EstateContext.InitialTarget | src/pages/ExpenseEntry.js:11 | The optional-chained id, or "" when it is falsy: a non-empty result is the bound value's `_id` string, and a missing id gives "" |
| EstateContext.WholeContextLosesEstate | src/pages/SalesEntry.js:7-11 | As written, with an estate selected, the sale page opens with no estate, where the destructured binding gives that estate's id |
| EstateContext.WholeContextSeedsUndefined | src/pages/Tracker.js:8-40 | As written, the tracker's first load seeds its selection with one undefined id, whatever estate is stored |
| EstateContext.DestructuredOpensOnSelectedEstate | src/pages/ExpenseEntry.js:7-11 | Destructured, the estate field opens on the stored estate's id, and on "" when none is stored |
| EstateContext.DestructuredSeedsSelectedId | src/pages/Dashboard.js:10-34 | Destructured, the first load selects exactly the stored estate, and keeps the selection when none is stored |

## Left out

- Time zones: `getTimezoneOffset` and the local/UTC distinction are not modelled. A `Date` is reduced to the calendar day it shows. `format` yields that day, and the server's timestamps are calendar days.
- Locale labels: `toLocaleDateString` strings are modelled as keys. The month key is the month, the day key is (day, month), and the timeline key is (weekday, month, day). None of them includes the year, as in the source.
- Number semantics: amounts, weights and rates are exact reals. Floating-point rounding and `Number(...)` parsing of the input text are not modelled. An empty input field is `None`. The expense amount is kept as the typed text, since it is sent as typed.
- Wage figures: `daysWorked` and `deduction` are passed through as numbers.
- Asynchronous calls: `Promise.all`, the HTTP services and `alert` are not modelled. The fetched lists and the server's totals are parameters. Whether a save succeeded is the `saved` flag.
- Exceptions: a rejected request in `fetchData` is not modelled, and nor is the `loading` flag. Rendering, charts, the dropdown state and the estate list load are also left out.
- IsoDate.Parse: `new Date(string)` is modelled only for the `YYYY-MM-DD` form a date input produces. Any other string is treated as an Invalid Date, so the lenient implementation-defined formats are not modelled.
- IsoDate.ParseFormat: the round trip is proved for four-digit years only. For other years `toISOString` writes a sign and six digits, and `Parse` does not read that form.
- Tracker.RangeNamesPeriod: stated for periods whose full year is in 0..9998, for the same four-digit reason. A year-9999 week 5 or December end would fall in year 10000.
- Dashboard.Query: the parse-back is stated for days in years 0..9999, for the same reason.
- ExpenseEntry.LoggingDate: the parse-back is stated for a logging day in years 0..9999, for the same reason.
- ExpenseEntry.PayloadDateIsLoggingDay: requires a logging day in years 0..9999, for the same reason.
- EstateContext.InitialTarget: an `_id` that is not a string is read as no estate. The server's ids are strings.
- Tracker's first-load selection and the dashboard's are modelled by EstateContext.SeedSelection on JavaScript values. The seeded list is not carried into Tracker.HandleAnalyze, which takes the selection as a parameter.
- Tracker.FirstLoadCoversToday: stated for years outside 0..99. For years 0..99 the Date constructor reads the year as 1900..1999, and the claim fails there.
- Dashboard.PeriodContainsToday: stated for years outside 0..99, for the same reason.
- The Tracker chart (a single bar of the two totals) is rendering only.
- The initial loads of the estate and worker lists are I/O.
- SalesEntry.SaleForm.HandleRemoveItem: `splice` on a copied array is modelled on sequence values, so in-place mutation of the copy and aliasing are not captured.
- ExpenseEntry.HandleSubmit: the payload is a value. The page reads its state when the handler runs; stale React closures are not modelled.

## Findings

| source | as written | input that shows it | evidently intended | confidence | as-written member | corrected member |
|---|---|---|---|---|---|---|
| src/pages/SalesEntry.js:7-11 | `const selectedEstate = useEstate()` binds the whole context object, so `selectedEstate?._id` is undefined and the estate field always opens empty | an estate with id "e1" stored in the context: the page opens with "" | destructure as ExpenseEntry.js:7 does, so the field opens on "e1" | high (not executed) | EstateContext.WholeContextLosesEstate | EstateContext.DestructuredOpensOnSelectedEstate |
| src/pages/Tracker.js:8-40 | the same whole-object binding makes `if (selectedEstate)` always true and seeds the selection with `[undefined]` | any stored estate, or none: the selection becomes `[undefined]` | destructure as Dashboard.js:10 does, so the selection becomes the stored estate's id, or stays empty | high (not executed) | EstateContext.WholeContextSeedsUndefined | EstateContext.DestructuredSeedsSelectedId |
