/**
 * The weekly expense page: the logging date derived from the chosen year, month
 * and week, and the checks made before a wage payment or a general expense is
 * sent to the server.
 */
module ExpenseEntry {
  import opened Calendar
  import opened IsoDate
  import opened Outcomes

  /**
   * The day a week's entries are logged on: the week's last day, day `week * 7`
   * of the month, rolled over by `Date.UTC` when the month is shorter.
   */
  function LoggingDay(year: int, month: int, week: int): (r: CalendarDate)
    ensures DayNumber(r) == Days(FullYear(year), month, 0) + 7 * week
  {
    DaysShift(FullYear(year), month, 0, week * 7);
    NewDate(year, month, week * 7)
  }

  /** The date field: the logging day as `toISOString().split('T')[0]` writes it. */
  function LoggingDate(year: int, month: int, week: int): (s: string)
    ensures 0 <= LoggingDay(year, month, week).year <= 9999 ==> Parse(s) == Some(LoggingDay(year, month, week))
  {
    var d := LoggingDay(year, month, week);
    if 0 <= d.year <= 9999 then ParseFormat(d); Format(d) else Format(d)
  }

  /** Weeks 1 to 4 end inside the chosen month, on day 7, 14, 21 or 28. */
  lemma EarlyWeeksStayInMonth(year: int, month: int, week: int)
    requires 0 <= month < 12 && 1 <= week <= 4
    ensures LoggingDay(year, month, week) == Date(FullYear(year), month, 7 * week)
    ensures 7 * week <= 28
  {
    MakeDateValid(Date(FullYear(year), month, 7 * week));
  }

  /**
   * Week 5 always ends in the following month, on day 35 minus the length of
   * the chosen month (day 4 to 7); December's week 5 ends in January of the
   * next year.
   */
  lemma FifthWeekRollsOver(year: int, month: int)
    requires 0 <= month < 12
    ensures var y, dim := FullYear(year), DaysInMonth(FullYear(year), month);
      LoggingDay(year, month, 5) == (if month == 11 then Date(y + 1, 0, 35 - dim) else Date(y, month + 1, 35 - dim))
    ensures 4 <= 35 - DaysInMonth(FullYear(year), month) <= 7
  {
    var y := FullYear(year);
    RollIntoNextMonth(y, month, 35 - DaysInMonth(y, month));
  }

  /**
   * An anchor for the logging-day encoding: February's fifth week logs on
   * 7 March, or on 6 March in a leap year.
   */
  lemma FebruaryFifthWeek()
    ensures LoggingDay(2023, 1, 5) == Date(2023, 2, 7)
    ensures LoggingDay(2024, 1, 5) == Date(2024, 2, 6)
  {
    assert FullYear(2023) == 2023 && !IsLeapYear(2023) && DaysInMonth(2023, 1) == 28;
    assert FullYear(2024) == 2024 && IsLeapYear(2024) && DaysInMonth(2024, 1) == 29;
    FifthWeekRollsOver(2023, 1);
    FifthWeekRollsOver(2024, 1);
  }

  datatype EntryType = General | Wage

  /**
   * The page's state when Save is pressed. The amount is the text of its input,
   * sent as typed; the wage figures are passed on as entered.
   */
  datatype ExpenseForm = ExpenseForm(
    targetEstateId: string,
    year: int, month: int, week: int,
    entryType: EntryType,
    date: string,
    category: string, amount: string, desc: string,
    selectedWorker: string, daysWorked: real, deduction: real)

  /** What is sent: a wage payment for a worker, or a general expense for an estate. */
  datatype Payload =
    | WagePayment(workerId: string, daysWorked: real, deductionAmount: real, date: string)
    | ExpenseCreate(estate: string, date: string, category: string, amount: string, description: string)

  /** Why nothing was sent. */
  datatype Rejection = NoEstate | NoWorker

  /**
   * `handleSubmit`: no estate rejects every entry; a wage entry also needs a
   * worker; otherwise the form's fields are sent with the form's date.
   */
  function HandleSubmit(f: ExpenseForm): (r: Result<Payload, Rejection>)
    ensures r == Err(NoEstate) <==> f.targetEstateId == ""
    ensures r == Err(NoWorker) <==> f.targetEstateId != "" && f.entryType == Wage && f.selectedWorker == ""
    ensures r.Ok? ==> r.value.date == f.date
    ensures r.Ok? ==> (r.value.WagePayment? <==> f.entryType == Wage)
    ensures r.Ok? && r.value.WagePayment? ==>
      && r.value.workerId == f.selectedWorker && r.value.workerId != ""
      && r.value.daysWorked == f.daysWorked && r.value.deductionAmount == f.deduction
    ensures r.Ok? && r.value.ExpenseCreate? ==>
      && r.value.estate == f.targetEstateId && r.value.estate != ""
      && r.value.category == f.category && r.value.amount == f.amount && r.value.description == f.desc
  {
    if f.targetEstateId == "" then Err(NoEstate)
    else if f.entryType == Wage then
      if f.selectedWorker == "" then Err(NoWorker)
      else Ok(WagePayment(f.selectedWorker, f.daysWorked, f.deduction, f.date))
    else Ok(ExpenseCreate(f.targetEstateId, f.date, f.category, f.amount, f.desc))
  }

  /**
   * The form after a submit: once the entry is saved, the amount and the
   * description are emptied; a rejected or failed submit leaves the form as it
   * was. `saved` is whether the server accepted the payload.
   */
  function AfterSubmit(f: ExpenseForm, saved: bool): (g: ExpenseForm)
    ensures HandleSubmit(f).Ok? && saved ==> g.amount == "" && g.desc == ""
    ensures !(HandleSubmit(f).Ok? && saved) ==> g == f
    ensures g.(amount := f.amount, desc := f.desc) == f
  {
    if HandleSubmit(f).Ok? && saved then f.(amount := "", desc := "") else f
  }

  /** The period effect: choosing a year, month or week recomputes the date field. */
  function SelectPeriod(f: ExpenseForm, year: int, month: int, week: int): (g: ExpenseForm)
    ensures g.year == year && g.month == month && g.week == week
    ensures g.date == LoggingDate(year, month, week)
    ensures g.(year := f.year, month := f.month, week := f.week, date := f.date) == f
  {
    f.(year := year, month := month, week := week, date := LoggingDate(year, month, week))
  }

  /**
   * Whatever the entry type, a payload sent after the period effect carries the
   * week's logging day, which its date string names exactly.
   */
  lemma PayloadDateIsLoggingDay(f: ExpenseForm, year: int, month: int, week: int)
    requires HandleSubmit(SelectPeriod(f, year, month, week)).Ok?
    requires 0 <= LoggingDay(year, month, week).year <= 9999
    ensures Parse(HandleSubmit(SelectPeriod(f, year, month, week)).value.date) == Some(LoggingDay(year, month, week))
  {
  }
}
