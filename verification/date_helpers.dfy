/** The budget-cycle rule: a day before the salary credit day still belongs to the
    previous month's budget. */
module DateHelpers {

  import opened Calendar

  /** A budget month: `month` in 1..12 and a calendar year. */
  datatype MonthCycle = MonthCycle(month: int, year: int)

  /** Months elapsed since January of year 0; consecutive budget months differ by one. */
  function MonthCount(c: MonthCycle): int {
    c.year * 12 + c.month - 1
  }

  /** The calendar month a date falls in. */
  function CalendarMonth(d: CalendarDate): MonthCycle {
    MonthCycle(d.month, d.year)
  }

  /** `getCurrentMonthCycle`, with the clock's reading passed in as `today`. */
  function GetCurrentMonthCycle(today: CalendarDate, salaryCreditDate: int): (c: MonthCycle)
    ensures 1 <= c.month <= 12
    ensures today.day >= salaryCreditDate ==> c == CalendarMonth(today)
    ensures today.day < salaryCreditDate ==> MonthCount(c) == MonthCount(CalendarMonth(today)) - 1
  {
    if today.day < salaryCreditDate then
      if today.month - 1 == 0 then MonthCycle(12, today.year - 1)
      else MonthCycle(today.month - 1, today.year)
    else
      MonthCycle(today.month, today.year)
  }

  /** Two budget months with months in range and the same count are the same month. */
  lemma MonthCountInjective(a: MonthCycle, b: MonthCycle)
    requires 1 <= a.month <= 12 && 1 <= b.month <= 12
    requires MonthCount(a) == MonthCount(b)
    ensures a == b
  {
    assert (a.year - b.year) * 12 == b.month - a.month;
  }

  /** A day before the salary day in January belongs to December of the year before. */
  lemma JanuaryWraps(today: CalendarDate, salaryCreditDate: int)
    requires today.month == 1 && today.day < salaryCreditDate
    ensures GetCurrentMonthCycle(today, salaryCreditDate) == MonthCycle(12, today.year - 1)
  {
    var c := GetCurrentMonthCycle(today, salaryCreditDate);
    MonthCountInjective(c, MonthCycle(12, today.year - 1));
  }

  /** The cycle is the calendar month or the one before it, never further back. */
  lemma AtMostOneMonthBehind(today: CalendarDate, salaryCreditDate: int)
    ensures var lag := MonthCount(CalendarMonth(today)) - MonthCount(GetCurrentMonthCycle(today, salaryCreditDate));
      0 <= lag <= 1
  {
  }

  /** With salary on the 1st every day is on or after the salary day. */
  lemma FirstOfMonthSalary(today: CalendarDate)
    ensures GetCurrentMonthCycle(today, 1) == CalendarMonth(today)
  {
  }

  /** The documented examples with salary on the 3rd. */
  lemma SalaryOnThirdExamples(y: int)
    ensures GetCurrentMonthCycle(Date(y, 2, 1), 3) == MonthCycle(1, y)
    ensures GetCurrentMonthCycle(Date(y, 2, 3), 3) == MonthCycle(2, y)
    ensures GetCurrentMonthCycle(Date(y, 2, 15), 3) == MonthCycle(2, y)
  {
  }
}
