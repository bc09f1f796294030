/** Calendar dates without time of day, and the rollover arithmetic of the
    JavaScript `Date(year, monthIndex, day)` constructor. */
module Calendar {

  import opened Wrappers

  datatype Date = Date(year: int, month: int, day: int)

  predicate IsLeapYear(y: int) {
    y % 4 == 0 && (y % 100 != 0 || y % 400 == 0)
  }

  function DaysInMonth(y: int, m: int): (n: int)
    requires 1 <= m <= 12
    ensures 28 <= n <= 31
    ensures m == 2 ==> (n == 29 <==> IsLeapYear(y))
  {
    if m == 2 then (if IsLeapYear(y) then 29 else 28)
    else if m == 4 || m == 6 || m == 9 || m == 11 then 30
    else 31
  }

  /** A real day of the proleptic Gregorian calendar. */
  predicate IsValid(d: Date) {
    1 <= d.month <= 12 && 1 <= d.day <= DaysInMonth(d.year, d.month)
  }

  type CalendarDate = d: Date | IsValid(d) witness Date(1970, 1, 1)

  /** `new Date(string)` read back as a local calendar day: ECMA-262 leaves
      Date.parse implementation-defined for most strings, so the model takes it as a
      parameter. `None` stands for an Invalid Date. */
  type DateParse = string -> Option<CalendarDate>

  /** Days from 1 January of year `y` to the first of month `m`. */
  function DaysBeforeMonth(y: int, m: int): int
    requires 1 <= m <= 12
  {
    [0, 31, 59, 90, 120, 151, 181, 212, 243, 273, 304, 334][m - 1]
      + (if m > 2 && IsLeapYear(y) then 1 else 0)
  }

  /** Days from 1 January of year 0 to 1 January of year `y` (negative before year 0). */
  function DaysBeforeYear(y: int): int {
    365 * y + (y + 3) / 4 - (y + 99) / 100 + (y + 399) / 400
  }

  /** The day count of (y, m, d) from 1 January of year 0; `d` may lie outside the month. */
  function DayNumber(y: int, m: int, d: int): int
    requires 1 <= m <= 12
  {
    DaysBeforeYear(y) + DaysBeforeMonth(y, m) + d - 1
  }

  function Ordinal(d: CalendarDate): int {
    DayNumber(d.year, d.month, d.day)
  }

  lemma DivStep(y: int, k: int)
    requires k == 4 || k == 100 || k == 400
    ensures (y + k) / k - (y + k - 1) / k == if y % k == 0 then 1 else 0
  {
    var a, r := y / k, y % k;
    assert y == a * k + r && 0 <= r < k;
    assert (y + k) / k == a + 1;
    assert (y + k - 1) / k == if r == 0 then a else a + 1;
  }

  lemma CenturyIsQuad(y: int)
    requires y % 100 == 0
    ensures y % 4 == 0
  {
    var q := y / 100;
    assert y == 4 * (25 * q);
  }

  lemma QuadCenturyIsCentury(y: int)
    requires y % 400 == 0
    ensures y % 100 == 0
  {
    var q := y / 400;
    assert y == 100 * (4 * q);
  }

  /** A year has 366 days exactly when it is a leap year. */
  lemma YearLength(y: int)
    ensures DaysBeforeYear(y + 1) - DaysBeforeYear(y) == if IsLeapYear(y) then 366 else 365
  {
    DivStep(y, 4);
    DivStep(y, 100);
    DivStep(y, 400);
    var a := (y + 4) / 4 - (y + 3) / 4;
    var b := (y + 100) / 100 - (y + 99) / 100;
    var c := (y + 400) / 400 - (y + 399) / 400;
    assert DaysBeforeYear(y + 1) - DaysBeforeYear(y) == 365 + a - b + c;
    if y % 400 == 0 {
      QuadCenturyIsCentury(y);
      CenturyIsQuad(y);
    } else if y % 100 == 0 {
      CenturyIsQuad(y);
    }
  }

  lemma {:induction false} DaysBeforeYearMonotone(y1: int, y2: int)
    requires y1 <= y2
    ensures DaysBeforeYear(y1) + 365 * (y2 - y1) <= DaysBeforeYear(y2)
    decreases y2 - y1
  {
    if y1 < y2 {
      YearLength(y1);
      DaysBeforeYearMonotone(y1 + 1, y2);
    }
  }

  lemma DayWithinYear(d: CalendarDate)
    ensures DaysBeforeYear(d.year) <= Ordinal(d) < DaysBeforeYear(d.year + 1)
  {
    YearLength(d.year);
  }

  /** Distinct calendar dates have distinct day counts, so a day count names at most one date. */
  lemma OrdinalInjective(d1: CalendarDate, d2: CalendarDate)
    requires Ordinal(d1) == Ordinal(d2)
    ensures d1 == d2
  {
    DayWithinYear(d1);
    DayWithinYear(d2);
    if d1.year < d2.year {
      DaysBeforeYearMonotone(d1.year + 1, d2.year);
    } else if d2.year < d1.year {
      DaysBeforeYearMonotone(d2.year + 1, d1.year);
    }
    assert d1.year == d2.year;
  }

  /** Counting from the first of the next month gives the same day. */
  lemma NextMonthStep(y: int, m: int, d: int)
    requires 1 <= m <= 12
    ensures var ny, nm := if m == 12 then y + 1 else y, if m == 12 then 1 else m + 1;
      DayNumber(ny, nm, d - DaysInMonth(y, m)) == DayNumber(y, m, d)
  {
    YearLength(y);
  }

  lemma PrevMonthStep(y: int, m: int, d: int)
    requires 1 <= m <= 12
    ensures var py, pm := if m == 1 then y - 1 else y, if m == 1 then 12 else m - 1;
      DayNumber(py, pm, d + DaysInMonth(py, pm)) == DayNumber(y, m, d)
  {
    YearLength(y - 1);
  }

  /** Moves an out-of-range day into its real month, one month at a time. */
  function Normalize(y: int, m: int, d: int): CalendarDate
    requires 1 <= m <= 12
    decreases if d < 1 then 1 else 0, if d < 1 then -d else d
  {
    if d < 1 then
      var py, pm := if m == 1 then y - 1 else y, if m == 1 then 12 else m - 1;
      Normalize(py, pm, d + DaysInMonth(py, pm))
    else if d > DaysInMonth(y, m) then
      var ny, nm := if m == 12 then y + 1 else y, if m == 12 then 1 else m + 1;
      Normalize(ny, nm, d - DaysInMonth(y, m))
    else
      Date(y, m, d)
  }

  /** Normalising keeps the day count. */
  lemma {:induction false} NormalizeDayNumber(y: int, m: int, d: int)
    requires 1 <= m <= 12
    ensures var r := Normalize(y, m, d); DayNumber(r.year, r.month, r.day) == DayNumber(y, m, d)
    decreases if d < 1 then 1 else 0, if d < 1 then -d else d
  {
    if d < 1 {
      var py, pm := if m == 1 then y - 1 else y, if m == 1 then 12 else m - 1;
      PrevMonthStep(y, m, d);
      NormalizeDayNumber(py, pm, d + DaysInMonth(py, pm));
    } else if d > DaysInMonth(y, m) {
      var ny, nm := if m == 12 then y + 1 else y, if m == 12 then 1 else m + 1;
      NextMonthStep(y, m, d);
      NormalizeDayNumber(ny, nm, d - DaysInMonth(y, m));
    }
  }

  /** `new Date(year, monthIndex, day)`: month indices outside 0..11 move the year, and days
      outside the month move forward or back from the first of the resulting month. */
  function MakeDate(year: int, monthIndex: int, day: int): CalendarDate {
    Normalize(year + monthIndex / 12, monthIndex % 12 + 1, day)
  }

  /** The date built is `day - 1` days after the first of the month the index names. */
  lemma MakeDateOrdinal(year: int, monthIndex: int, day: int)
    ensures Ordinal(MakeDate(year, monthIndex, day))
      == DayNumber(year + monthIndex / 12, monthIndex % 12 + 1, 1) + day - 1
  {
    NormalizeDayNumber(year + monthIndex / 12, monthIndex % 12 + 1, day);
  }

  /** In-range fields are kept as they are. */
  lemma MakeDateInRange(year: int, month: int, day: int)
    requires IsValid(Date(year, month, day))
    ensures MakeDate(year, month - 1, day) == Date(year, month, day)
  {
    assert (month - 1) / 12 == 0 && (month - 1) % 12 + 1 == month;
    assert Normalize(year, month, day) == Date(year, month, day);
  }

  /** Day 0 is the last day of the previous month. */
  lemma MakeDateDayZero(year: int, month: int)
    requires 1 <= month <= 12
    ensures var r := MakeDate(year, month - 1, 0);
      r == if month == 1 then Date(year - 1, 12, 31)
           else Date(year, month - 1, DaysInMonth(year, month - 1))
  {
    assert (month - 1) / 12 == 0 && (month - 1) % 12 + 1 == month;
    var py, pm := if month == 1 then year - 1 else year, if month == 1 then 12 else month - 1;
    assert Normalize(py, pm, DaysInMonth(py, pm)) == Date(py, pm, DaysInMonth(py, pm));
    assert Normalize(year, month, 0) == Normalize(py, pm, DaysInMonth(py, pm));
  }
}
