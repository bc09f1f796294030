/** The declared constraints of the three stored document kinds, as validity predicates,
    together with the casting (`trim: true`, defaults) a document goes through before its
    validators run. */
module Models {

  import opened Text
  import opened Calendar

  /** A stored expense; timestamps are not modelled. */
  datatype Expense = Expense(
    date: CalendarDate,
    category: string,
    amount: real,
    description: string,
    month: int,
    year: int)

  const CategoryRequired: string := "Category is required"
  const AmountTooSmall: string := "Amount must be greater than 0"
  const DescriptionRequired: string := "Description is required"
  const DescriptionTooLong: string := "Description must be 200 characters or fewer"
  /** The month path has no message of its own; the built-in one is not modelled. */
  const MonthOutOfRange: string := "Path `month` is out of range"

  /** The `trim: true` setters of `category` and `description`. */
  function CastExpense(e: Expense): (c: Expense)
    ensures IsTrimmed(c.category) && IsTrimmed(c.description)
    ensures c.date == e.date && c.amount == e.amount && c.month == e.month && c.year == e.year
  {
    TrimIsTrimmed(e.category);
    TrimIsTrimmed(e.description);
    e.(category := Trim(e.category), description := Trim(e.description))
  }

  /** What the schema demands of a cast expense: a non-empty category, an amount of at least
      0.01, a non-empty description of at most 200 characters and a month in 1..12. A
      `required` string validator refuses the empty string. */
  predicate ValidExpense(e: Expense) {
    && e.category != ""
    && e.amount >= 0.01
    && e.description != ""
    && |e.description| <= 200
    && 1 <= e.month <= 12
  }

  /** The messages of the validators an expense fails, path by path in schema order. */
  function ExpenseErrors(e: Expense): seq<string> {
    (if e.category == "" then [CategoryRequired] else [])
    + (if e.amount < 0.01 then [AmountTooSmall] else [])
    + (if e.description == "" then [DescriptionRequired]
       else if |e.description| > 200 then [DescriptionTooLong] else [])
    + (if 1 <= e.month <= 12 then [] else [MonthOutOfRange])
  }

  /** The validators pass exactly when the expense is valid. */
  lemma ExpenseErrorsIffInvalid(e: Expense)
    ensures ExpenseErrors(e) == [] <==> ValidExpense(e)
  {
  }

  /** Any amount below one cent is refused by the schema, however the controller judged it. */
  lemma SubCentAmountRefused(e: Expense)
    requires e.amount < 0.01
    ensures AmountTooSmall in ExpenseErrors(e)
  {
  }

  /** A fixed deduction of the settings. */
  datatype Deduction = Deduction(name: string, amount: real, deductionDate: int)

  /** A budget category; `kind` is the `type` path. */
  datatype Category = Category(name: string, monthlyLimit: real, kind: string)

  datatype Settings = Settings(
    salary: real,
    salaryCreditDate: int,
    fixedDeductions: seq<Deduction>,
    categories: seq<Category>)

  const VariableKind: string := "variable"
  const FixedKind: string := "fixed"

  predicate ValidDeduction(d: Deduction) {
    d.name != "" && d.amount >= 1.0 && 1 <= d.deductionDate <= 31
  }

  predicate ValidCategory(c: Category) {
    c.name != "" && c.monthlyLimit >= 1.0 && (c.kind == FixedKind || c.kind == VariableKind)
  }

  /** Salary at least 1, credit day in 1..31, and every deduction and category valid. */
  predicate ValidSettings(s: Settings) {
    && s.salary >= 1.0
    && 1 <= s.salaryCreditDate <= 31
    && (forall i | 0 <= i < |s.fixedDeductions| :: ValidDeduction(s.fixedDeductions[i]))
    && (forall i | 0 <= i < |s.categories| :: ValidCategory(s.categories[i]))
  }

  /** Names trimmed, as the `trim: true` setters leave them. */
  predicate SettingsTrimmed(s: Settings) {
    && (forall i | 0 <= i < |s.fixedDeductions| :: IsTrimmed(s.fixedDeductions[i].name))
    && (forall i | 0 <= i < |s.categories| :: IsTrimmed(s.categories[i].name))
  }

  const DayRange: string := "Must be between 1 and 31"

  function DeductionErrors(d: Deduction): seq<string> {
    (if d.name == "" then ["Deduction name is required"] else [])
    + (if d.amount < 1.0 then ["Deduction amount must be greater than 0"] else [])
    + (if 1 <= d.deductionDate <= 31 then [] else [DayRange])
  }

  /** The built-in `enum` message names the refused value. */
  function EnumMessage(value: string): string {
    "`" + value + "` is not a valid enum value for path `type`."
  }

  function CategoryErrors(c: Category): seq<string> {
    (if c.name == "" then ["Category name is required"] else [])
    + (if c.monthlyLimit < 1.0 then ["Monthly limit must be greater than 0"] else [])
    + (if c.kind == FixedKind || c.kind == VariableKind then [] else [EnumMessage(c.kind)])
  }

  function DeductionsErrors(ds: seq<Deduction>): seq<string> {
    if ds == [] then [] else DeductionsErrors(ds[..|ds| - 1]) + DeductionErrors(ds[|ds| - 1])
  }

  function CategoriesErrors(cs: seq<Category>): seq<string> {
    if cs == [] then [] else CategoriesErrors(cs[..|cs| - 1]) + CategoryErrors(cs[|cs| - 1])
  }

  /** The messages of every validator the settings fail, in schema path order. */
  function SettingsErrors(s: Settings): seq<string> {
    (if s.salary < 1.0 then ["Salary must be greater than 0"] else [])
    + (if 1 <= s.salaryCreditDate <= 31 then [] else [DayRange])
    + DeductionsErrors(s.fixedDeductions)
    + CategoriesErrors(s.categories)
  }

  lemma {:induction false} DeductionsErrorsIffInvalid(ds: seq<Deduction>)
    ensures DeductionsErrors(ds) == [] <==> forall i | 0 <= i < |ds| :: ValidDeduction(ds[i])
  {
    if ds != [] {
      var init := ds[..|ds| - 1];
      DeductionsErrorsIffInvalid(init);
      assert forall i | 0 <= i < |init| :: init[i] == ds[i];
    }
  }

  lemma {:induction false} CategoriesErrorsIffInvalid(cs: seq<Category>)
    ensures CategoriesErrors(cs) == [] <==> forall i | 0 <= i < |cs| :: ValidCategory(cs[i])
  {
    if cs != [] {
      var init := cs[..|cs| - 1];
      CategoriesErrorsIffInvalid(init);
      assert forall i | 0 <= i < |init| :: init[i] == cs[i];
    }
  }

  /** The validators pass exactly when the settings are valid. */
  lemma SettingsErrorsIffInvalid(s: Settings)
    ensures SettingsErrors(s) == [] <==> ValidSettings(s)
  {
    DeductionsErrorsIffInvalid(s.fixedDeductions);
    CategoriesErrorsIffInvalid(s.categories);
  }

  /** One line of a summary's category breakdown. */
  datatype BreakdownItem = BreakdownItem(category: string, limit: real, spent: real)

  datatype MonthlySummary = MonthlySummary(
    month: int,
    year: int,
    salary: real,
    totalFixedDeductions: real,
    categoryBreakdown: seq<BreakdownItem>,
    totalSpent: real,
    totalSavings: real)

  /** Month in 1..12 and every breakdown line named. */
  predicate ValidSummary(s: MonthlySummary) {
    && 1 <= s.month <= 12
    && forall i | 0 <= i < |s.categoryBreakdown| :: s.categoryBreakdown[i].category != ""
  }

  /** The unique index of the summaries. */
  function SummaryKey(s: MonthlySummary): (int, int) {
    (s.month, s.year)
  }

  /** No two summaries share a `(month, year)`. */
  predicate UniqueKeys(ss: seq<MonthlySummary>) {
    forall i, j | 0 <= i < j < |ss| :: SummaryKey(ss[i]) != SummaryKey(ss[j])
  }
}
