/** The report endpoints: the budget report of the current salary cycle, the stored summary
    of one month (computed and stored on first request) and the history of summaries. */
module ReportController {

  import opened Wrappers
  import opened Calendar
  import opened Errors
  import opened Models
  import opened DateHelpers
  import opened Ordering
  import ExpenseController

  const NotConfigured: string := "Settings not configured. Please set up your budget first."

  /** One output document of the `$group` stage: a category and the sum of its amounts. */
  datatype Group = Group(id: string, spent: real)

  /** The sum of the amounts of the month's expenses in category `name`. */
  function CategorySpent(expenses: seq<Expense>, month: int, year: int, name: string): real {
    if expenses == [] then 0.0
    else
      var e := expenses[|expenses| - 1];
      CategorySpent(expenses[..|expenses| - 1], month, year, name)
        + (if e.month == month && e.year == year && e.category == name then e.amount else 0.0)
  }

  /** The spent amount of the group with identifier `name`; 0 when there is none. */
  function GroupSpent(groups: seq<Group>, name: string): real {
    if groups == [] then 0.0
    else if groups[|groups| - 1].id == name then groups[|groups| - 1].spent
    else GroupSpent(groups[..|groups| - 1], name)
  }

  /** Adds one amount to the group of `id`, opening the group if needed. */
  function AddTo(groups: seq<Group>, id: string, amount: real): seq<Group> {
    if groups == [] then [Group(id, amount)]
    else
      var last := groups[|groups| - 1];
      var init := groups[..|groups| - 1];
      if last.id == id then init + [last.(spent := last.spent + amount)]
      else AddTo(init, id, amount) + [last]
  }

  /** `$match: { month, year }` then `$group: { _id: '$category', spent: { $sum: '$amount' } }`.
      The order of the groups is the database's; nothing below depends on it. */
  function Aggregate(expenses: seq<Expense>, month: int, year: int): seq<Group> {
    if expenses == [] then []
    else
      var e := expenses[|expenses| - 1];
      var groups := Aggregate(expenses[..|expenses| - 1], month, year);
      if e.month == month && e.year == year then AddTo(groups, e.category, e.amount) else groups
  }

  lemma {:induction false} AddToSpent(groups: seq<Group>, id: string, amount: real, name: string)
    ensures GroupSpent(AddTo(groups, id, amount), name) == GroupSpent(groups, name) + (if name == id then amount else 0.0)
  {
    if groups != [] {
      var last := groups[|groups| - 1];
      var init := groups[..|groups| - 1];
      if last.id == id {
        assert (init + [last.(spent := last.spent + amount)])[..|groups| - 1] == init;
      } else {
        AddToSpent(init, id, amount, name);
        assert (AddTo(init, id, amount) + [last])[..|AddTo(init, id, amount)|] == AddTo(init, id, amount);
      }
    }
  }

  /** Each group holds exactly the month's spending in its category, and a category without
      a group spent nothing that month. */
  lemma {:induction false} AggregateSpent(expenses: seq<Expense>, month: int, year: int, name: string)
    ensures GroupSpent(Aggregate(expenses, month, year), name) == CategorySpent(expenses, month, year, name)
  {
    if expenses != [] {
      var e := expenses[|expenses| - 1];
      AggregateSpent(expenses[..|expenses| - 1], month, year, name);
      if e.month == month && e.year == year {
        AddToSpent(Aggregate(expenses[..|expenses| - 1], month, year), e.category, e.amount, name);
      }
    }
  }

  /** The lookup object `spentMap` after `forEach` has written every group in turn. */
  function SpentMapOf(groups: seq<Group>): map<string, real> {
    if groups == [] then map[]
    else SpentMapOf(groups[..|groups| - 1])[groups[|groups| - 1].id := groups[|groups| - 1].spent]
  }

  /** `spentMap[name] || 0`. */
  function SpentLookup(spentMap: map<string, real>, name: string): real {
    if name in spentMap then spentMap[name] else 0.0
  }

  /** The lookup answers what the group of that name holds: a later group of the same name
      overwrites an earlier one, and so does `GroupSpent`. */
  lemma {:induction false} SpentMapAgrees(groups: seq<Group>, name: string)
    ensures SpentLookup(SpentMapOf(groups), name) == GroupSpent(groups, name)
  {
    if groups != [] {
      SpentMapAgrees(groups[..|groups| - 1], name);
    }
  }

  /** Building `spentMap`: one write per group, in order. */
  method BuildSpentMap(groups: seq<Group>) returns (spentMap: map<string, real>)
    ensures spentMap == SpentMapOf(groups)
  {
    spentMap := map[];
    var i := 0;
    while i < |groups|
      invariant 0 <= i <= |groups|
      invariant spentMap == SpentMapOf(groups[..i])
    {
      assert groups[..i + 1][..i] == groups[..i];
      spentMap := spentMap[groups[i].id := groups[i].spent];
      i := i + 1;
    }
    assert groups[..i] == groups;
  }

  /** The spent amount the reports show for a category is the month's spending in it. */
  lemma ReportedSpent(expenses: seq<Expense>, month: int, year: int, name: string)
    ensures SpentLookup(SpentMapOf(Aggregate(expenses, month, year)), name) == CategorySpent(expenses, month, year, name)
  {
    SpentMapAgrees(Aggregate(expenses, month, year), name);
    AggregateSpent(expenses, month, year, name);
  }

  /** `Math.round`: the nearest integer, halves rounded up. */
  function RoundHalfUp(x: real): (n: int)
    ensures x - 0.5 < n as real <= x + 0.5
  {
    (x + 0.5).Floor
  }

  function PercentUsed(spent: real, limit: real): int {
    if limit > 0.0 then RoundHalfUp(spent / limit * 100.0) else 0
  }

  /** The percentage is the share of the limit spent, to the nearest whole percent. */
  lemma PercentUsedNearest(spent: real, limit: real)
    ensures limit > 0.0 ==> spent * 100.0 / limit - 0.5 < PercentUsed(spent, limit) as real <= spent * 100.0 / limit + 0.5
    ensures limit <= 0.0 ==> PercentUsed(spent, limit) == 0
  {
    if limit > 0.0 {
      assert spent / limit * 100.0 == spent * 100.0 / limit;
    }
  }

  lemma PercentUsedExamples()
    ensures PercentUsed(2500.0, 5000.0) == 50
    ensures PercentUsed(1.0, 8.0) == 13
    ensures PercentUsed(7000.0, 5000.0) == 140
  {
    assert 2500.0 / 5000.0 * 100.0 + 0.5 == 50.5;
    assert 1.0 / 8.0 * 100.0 + 0.5 == 13.0;
    assert 7000.0 / 5000.0 * 100.0 + 0.5 == 140.5;
  }

  function SumDeductions(ds: seq<Deduction>): real {
    if ds == [] then 0.0 else SumDeductions(ds[..|ds| - 1]) + ds[|ds| - 1].amount
  }

  /** One category of the current report. */
  datatype CategoryLine = CategoryLine(
    name: string,
    limit: real,
    kind: string,
    spent: real,
    remaining: real,
    percentUsed: int)

  function LineOf(c: Category, spentMap: map<string, real>): CategoryLine {
    var spent := SpentLookup(spentMap, c.name);
    CategoryLine(c.name, c.monthlyLimit, c.kind, spent, c.monthlyLimit - spent, PercentUsed(spent, c.monthlyLimit))
  }

  function Lines(cs: seq<Category>, spentMap: map<string, real>): (r: seq<CategoryLine>)
    ensures |r| == |cs|
    ensures forall i | 0 <= i < |cs| :: r[i] == LineOf(cs[i], spentMap)
  {
    seq(|cs|, i requires 0 <= i < |cs| => LineOf(cs[i], spentMap))
  }

  function SumSpent(lines: seq<CategoryLine>): real {
    if lines == [] then 0.0 else SumSpent(lines[..|lines| - 1]) + lines[|lines| - 1].spent
  }

  function SumLimits(lines: seq<CategoryLine>): real {
    if lines == [] then 0.0 else SumLimits(lines[..|lines| - 1]) + lines[|lines| - 1].limit
  }

  /** The body of the current report. */
  datatype CurrentReport = CurrentReport(
    month: int,
    year: int,
    salary: real,
    salaryCreditDate: int,
    totalFixedDeductions: real,
    fixedDeductions: seq<Deduction>,
    distributableAmount: real,
    categories: seq<CategoryLine>,
    totalBudgeted: real,
    totalSpent: real,
    currentSavings: real)

  /** The current report of `settings` on day `today` over the stored expenses. */
  function CurrentReportOf(settings: Settings, today: CalendarDate, expenses: seq<Expense>): CurrentReport {
    var cycle := GetCurrentMonthCycle(today, settings.salaryCreditDate);
    var fixed := SumDeductions(settings.fixedDeductions);
    var lines := Lines(settings.categories, SpentMapOf(Aggregate(expenses, cycle.month, cycle.year)));
    var totalSpent := fixed + SumSpent(lines);
    CurrentReport(
      cycle.month, cycle.year, settings.salary, settings.salaryCreditDate, fixed,
      settings.fixedDeductions, settings.salary - fixed, lines,
      fixed + SumLimits(lines), totalSpent, settings.salary - totalSpent)
  }

  /** The report covers the salary cycle containing today; each configured category, in
      configured order, shows its limit, type, what was spent on it in that cycle, what
      remains and the rounded share used; the totals add up. */
  lemma CurrentReportMeaning(settings: Settings, today: CalendarDate, expenses: seq<Expense>)
    ensures var r := CurrentReportOf(settings, today, expenses);
      && MonthCycle(r.month, r.year) == GetCurrentMonthCycle(today, settings.salaryCreditDate)
      && r.totalFixedDeductions == SumDeductions(settings.fixedDeductions)
      && r.distributableAmount == r.salary - r.totalFixedDeductions
      && r.totalSpent == r.totalFixedDeductions + SumSpent(r.categories)
      && r.totalBudgeted == r.totalFixedDeductions + SumLimits(r.categories)
      && r.currentSavings == r.salary - r.totalSpent
      && |r.categories| == |settings.categories|
      && forall i | 0 <= i < |settings.categories| ::
        var c := settings.categories[i];
        var line := r.categories[i];
        && line.name == c.name && line.limit == c.monthlyLimit && line.kind == c.kind
        && line.spent == CategorySpent(expenses, r.month, r.year, c.name)
        && line.remaining == c.monthlyLimit - line.spent
        && line.percentUsed == PercentUsed(line.spent, c.monthlyLimit)
  {
    var r := CurrentReportOf(settings, today, expenses);
    forall i | 0 <= i < |settings.categories|
      ensures r.categories[i].spent == CategorySpent(expenses, r.month, r.year, settings.categories[i].name)
    {
      ReportedSpent(expenses, r.month, r.year, settings.categories[i].name);
    }
  }

  /** `getCurrentReport`. */
  method GetCurrentReport(settings: Option<Settings>, today: CalendarDate, expenses: seq<Expense>)
    returns (r: Result<CurrentReport, AppError>)
    ensures settings.None? ==> r == Err(HttpError(404, NotConfigured))
    ensures settings.Some? ==> r == Ok(CurrentReportOf(settings.value, today, expenses))
  {
    if settings.None? {
      return Err(HttpError(404, NotConfigured));
    }
    var s := settings.value;
    var cycle := GetCurrentMonthCycle(today, s.salaryCreditDate);
    var fixed := SumDeductions(s.fixedDeductions);
    var spentMap := BuildSpentMap(Aggregate(expenses, cycle.month, cycle.year));
    var lines := Lines(s.categories, spentMap);
    var totalSpent := fixed + SumSpent(lines);
    r := Ok(CurrentReport(
      cycle.month, cycle.year, s.salary, s.salaryCreditDate, fixed,
      s.fixedDeductions, s.salary - fixed, lines,
      fixed + SumLimits(lines), totalSpent, s.salary - totalSpent));
  }

  function ItemOf(c: Category, spentMap: map<string, real>): BreakdownItem {
    BreakdownItem(c.name, c.monthlyLimit, SpentLookup(spentMap, c.name))
  }

  function Breakdown(cs: seq<Category>, spentMap: map<string, real>): (r: seq<BreakdownItem>)
    ensures |r| == |cs|
    ensures forall i | 0 <= i < |cs| :: r[i] == ItemOf(cs[i], spentMap)
  {
    seq(|cs|, i requires 0 <= i < |cs| => ItemOf(cs[i], spentMap))
  }

  function SumItems(items: seq<BreakdownItem>): real {
    if items == [] then 0.0 else SumItems(items[..|items| - 1]) + items[|items| - 1].spent
  }

  /** The summary `getMonthlyReport` computes for month `m` of year `y`. */
  function SummaryOf(settings: Settings, m: int, y: int, expenses: seq<Expense>): MonthlySummary {
    var fixed := SumDeductions(settings.fixedDeductions);
    var items := Breakdown(settings.categories, SpentMapOf(Aggregate(expenses, m, y)));
    var totalSpent := fixed + SumItems(items);
    MonthlySummary(m, y, settings.salary, fixed, items, totalSpent, settings.salary - totalSpent)
  }

  lemma {:induction false} SumsAgree(cs: seq<Category>, spentMap: map<string, real>)
    ensures SumItems(Breakdown(cs, spentMap)) == SumSpent(Lines(cs, spentMap))
  {
    if cs != [] {
      var init := cs[..|cs| - 1];
      SumsAgree(init, spentMap);
      assert Breakdown(cs, spentMap)[..|cs| - 1] == Breakdown(init, spentMap);
      assert Lines(cs, spentMap)[..|cs| - 1] == Lines(init, spentMap);
    }
  }

  /** The summary of the current cycle carries the same totals as the current report. */
  lemma SummaryMatchesCurrentReport(settings: Settings, today: CalendarDate, expenses: seq<Expense>)
    ensures var r := CurrentReportOf(settings, today, expenses);
      var s := SummaryOf(settings, r.month, r.year, expenses);
      && s.totalFixedDeductions == r.totalFixedDeductions
      && s.totalSpent == r.totalSpent
      && s.totalSavings == r.currentSavings
      && |s.categoryBreakdown| == |r.categories|
      && forall i | 0 <= i < |r.categories| ::
        s.categoryBreakdown[i].spent == r.categories[i].spent && s.categoryBreakdown[i].limit == r.categories[i].limit
  {
    var cycle := GetCurrentMonthCycle(today, settings.salaryCreditDate);
    SumsAgree(settings.categories, SpentMapOf(Aggregate(expenses, cycle.month, cycle.year)));
  }

  /** Computed from valid settings for a month in 1..12, the summary meets the schema: every
      breakdown line is a configured category under its own name and limit, and the savings
      are what the spending leaves of the salary. */
  lemma SummaryOfValid(settings: Settings, m: int, y: int, expenses: seq<Expense>)
    requires ValidSettings(settings) && 1 <= m <= 12
    ensures var s := SummaryOf(settings, m, y, expenses);
      && ValidSummary(s)
      && SummaryKey(s) == (m, y)
      && s.totalSavings == settings.salary - s.totalSpent
      && |s.categoryBreakdown| == |settings.categories|
      && forall i | 0 <= i < |settings.categories| ::
        && s.categoryBreakdown[i].category == settings.categories[i].name
        && s.categoryBreakdown[i].limit == settings.categories[i].monthlyLimit
  {
  }

  /** The stored summary of a month, if any. */
  function FindSummary(summaries: seq<MonthlySummary>, m: int, y: int): (r: Option<MonthlySummary>)
    ensures r.Some? ==> r.value in summaries && SummaryKey(r.value) == (m, y)
    ensures r.None? ==> forall i | 0 <= i < |summaries| :: SummaryKey(summaries[i]) != (m, y)
  {
    if summaries == [] then None
    else if SummaryKey(summaries[0]) == (m, y) then Some(summaries[0])
    else FindSummary(summaries[1..], m, y)
  }

  /** Once stored, a month's summary is what every later lookup finds. */
  lemma {:induction false} FindAfterStore(summaries: seq<MonthlySummary>, s: MonthlySummary)
    requires FindSummary(summaries, s.month, s.year).None?
    ensures FindSummary(summaries + [s], s.month, s.year) == Some(s)
  {
    if summaries != [] {
      assert (summaries + [s])[1..] == summaries[1..] + [s];
      FindAfterStore(summaries[1..], s);
    }
  }

  /** Newer years first, then newer months (`sort({ year: -1, month: -1 })`). */
  predicate YearMonthNotBefore(a: MonthlySummary, b: MonthlySummary) {
    a.year > b.year || (a.year == b.year && a.month >= b.month)
  }

  lemma HistoryOrderIsTotal()
    ensures IsTotalPreorder(YearMonthNotBefore)
  {
  }

  class SummaryStore {

    /** The stored summaries, in insertion order. */
    var summaries: seq<MonthlySummary>

    /** The unique `(month, year)` index. */
    predicate Valid()
      reads this
    {
      UniqueKeys(summaries)
    }

    constructor()
      ensures summaries == [] && Valid()
    {
      summaries := [];
    }

    /** `getMonthlyReport`: a stored summary is answered as stored; otherwise the month is
        computed from the settings and the expenses, stored and answered. */
    method GetMonthlyReport(month: Option<int>, year: Option<int>, settings: Option<Settings>, expenses: seq<Expense>)
      returns (r: Result<MonthlySummary, AppError>)
      requires Valid()
      modifies this
      ensures Valid()
      ensures month.None? || year.None? ==>
        r == Err(HttpError(400, ExpenseController.QueryRequired)) && summaries == old(summaries)
      ensures month.Some? && year.Some? && FindSummary(old(summaries), month.value, year.value).Some? ==>
        r == Ok(FindSummary(old(summaries), month.value, year.value).value) && summaries == old(summaries)
      ensures month.Some? && year.Some? && FindSummary(old(summaries), month.value, year.value).None? ==>
        if settings.None? then r == Err(HttpError(404, NotConfigured)) && summaries == old(summaries)
        else
          var s := SummaryOf(settings.value, month.value, year.value, expenses);
          r == Ok(s) && summaries == old(summaries) + [s]
      ensures r.Ok? ==> FindSummary(summaries, month.value, year.value) == Some(r.value)
    {
      if month.None? || year.None? {
        return Err(HttpError(400, ExpenseController.QueryRequired));
      }
      var m, y := month.value, year.value;
      var stored := FindSummary(summaries, m, y);
      if stored.Some? {
        return Ok(stored.value);
      }
      if settings.None? {
        return Err(HttpError(404, NotConfigured));
      }
      var s := settings.value;
      var fixed := SumDeductions(s.fixedDeductions);
      var spentMap := BuildSpentMap(Aggregate(expenses, m, y));
      var items := Breakdown(s.categories, spentMap);
      var totalSpent := fixed + SumItems(items);
      var summary := MonthlySummary(m, y, s.salary, fixed, items, totalSpent, s.salary - totalSpent);
      FindAfterStore(summaries, summary);
      summaries := summaries + [summary];
      r := Ok(summary);
    }

    /** `getReportHistory`: every stored summary, newest month first. */
    method GetReportHistory() returns (r: seq<MonthlySummary>)
      ensures SortedBy(r, YearMonthNotBefore)
      ensures multiset(r) == multiset(summaries)
    {
      HistoryOrderIsTotal();
      SortBySorted(summaries, YearMonthNotBefore);
      r := SortBy(summaries, YearMonthNotBefore);
    }
  }
}
