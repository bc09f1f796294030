/** The settings endpoints over the single settings document: read it (with a default view
    when none is stored) and replace it after the handler's own checks and the schema's. */
module SettingsController {

  import opened Wrappers
  import opened Text
  import opened Errors
  import opened Models

  /** One category of the request body; `kind` is its `type`. */
  datatype CategoryInput = CategoryInput(name: Option<string>, monthlyLimit: real, kind: Option<string>)

  /** The request body of `updateSettings`; `None` is a field not sent. */
  datatype SettingsInput = SettingsInput(
    salary: Option<real>,
    salaryCreditDate: Option<int>,
    fixedDeductions: seq<Deduction>,
    categories: Option<seq<CategoryInput>>)

  /** What `getSettings` answers while nothing is stored. */
  const DefaultView: Settings := Settings(0.0, 1, [], [])

  const SalaryRequired: string := "Salary is required and must be greater than 0"
  const CreditDateRange: string := "Salary credit date must be between 1 and 31"
  const CategoriesRequired: string := "At least one category is required"
  const NamesNotUnique: string := "Category names must be unique"

  /** The default view could not itself be saved: the schema wants a salary of at least 1
      and at least one category is demanded by the handler. */
  lemma DefaultViewNotStorable()
    ensures !ValidSettings(DefaultView) && DefaultView.categories == []
  {
  }

  predicate AllNamed(cs: seq<CategoryInput>) {
    forall i | 0 <= i < |cs| :: cs[i].name.Some?
  }

  /** `name.trim().toLowerCase()`: the key two categories must not share. */
  function NameKey(name: string): string {
    ToLower(Trim(name))
  }

  /** `new Set(names).size === names.length`. */
  predicate KeysDistinct(cs: seq<CategoryInput>)
    requires AllNamed(cs)
  {
    forall i, j | 0 <= i < j < |cs| :: NameKey(cs[i].name.value) != NameKey(cs[j].name.value)
  }

  /** Stored categories whose names differ even ignoring case. */
  predicate NamesDistinct(cs: seq<Category>) {
    forall i, j | 0 <= i < j < |cs| :: ToLower(cs[i].name) != ToLower(cs[j].name)
  }

  /** The update's casting of one category: the name trimmed, `type` defaulting to
      `variable`. Only applied once every name is known to be present. */
  function CastCategory(c: CategoryInput): (r: Category)
    ensures IsTrimmed(r.name) && r.monthlyLimit == c.monthlyLimit
    ensures c.kind.None? ==> r.kind == VariableKind
    ensures c.kind.Some? ==> r.kind == c.kind.value
  {
    TrimIsTrimmed(c.name.GetOr(""));
    Category(Trim(c.name.GetOr("")), c.monthlyLimit, c.kind.GetOr(VariableKind))
  }

  function CastDeduction(d: Deduction): (r: Deduction)
    ensures IsTrimmed(r.name) && r.amount == d.amount && r.deductionDate == d.deductionDate
  {
    TrimIsTrimmed(d.name);
    d.(name := Trim(d.name))
  }

  function CastCategories(cs: seq<CategoryInput>): (r: seq<Category>)
    ensures |r| == |cs|
    ensures forall i | 0 <= i < |cs| :: r[i] == CastCategory(cs[i])
  {
    seq(|cs|, i requires 0 <= i < |cs| => CastCategory(cs[i]))
  }

  function CastDeductions(ds: seq<Deduction>): (r: seq<Deduction>)
    ensures |r| == |ds|
    ensures forall i | 0 <= i < |ds| :: r[i] == CastDeduction(ds[i])
  {
    seq(|ds|, i requires 0 <= i < |ds| => CastDeduction(ds[i]))
  }

  /** `!salary || salary <= 0`. */
  predicate SalaryMissing(input: SettingsInput) {
    input.salary.None? || input.salary.value <= 0.0
  }

  /** `!salaryCreditDate || salaryCreditDate < 1 || salaryCreditDate > 31`. */
  predicate CreditDateMissing(input: SettingsInput) {
    input.salaryCreditDate.None? || !(1 <= input.salaryCreditDate.value <= 31)
  }

  predicate CategoriesMissing(input: SettingsInput) {
    input.categories.None? || input.categories.value == []
  }

  /** The document the upsert writes: the four fields of the body, cast. */
  function CastSettings(input: SettingsInput): Settings
    requires !SalaryMissing(input) && !CreditDateMissing(input) && !CategoriesMissing(input)
  {
    Settings(
      input.salary.value,
      input.salaryCreditDate.value,
      CastDeductions(input.fixedDeductions),
      CastCategories(input.categories.value))
  }

  /** `updateSettings`: salary, credit day, categories present, every name readable, names
      unique ignoring case and surrounding white space; then the schema validators. */
  function UpdateOutcome(input: SettingsInput): Result<Settings, AppError> {
    if SalaryMissing(input) then Err(HttpError(400, SalaryRequired))
    else if CreditDateMissing(input) then Err(HttpError(400, CreditDateRange))
    else if CategoriesMissing(input) then Err(HttpError(400, CategoriesRequired))
    else if !AllNamed(input.categories.value) then Err(UndefinedTrimError())
    else if !KeysDistinct(input.categories.value) then Err(HttpError(400, NamesNotUnique))
    else
      var s := CastSettings(input);
      if SettingsErrors(s) != [] then Err(ValidationError(SettingsErrors(s))) else Ok(s)
  }

  /** The checks of `updateSettings` on their own, in the handler's order; the first one that
      fails answers. */
  function UpdateFailures(input: SettingsInput): seq<AppError> {
    (if SalaryMissing(input) then [HttpError(400, SalaryRequired)] else [])
    + (if CreditDateMissing(input) then [HttpError(400, CreditDateRange)] else [])
    + (if CategoriesMissing(input) then [HttpError(400, CategoriesRequired)] else [])
  }

  lemma UpdateFirstFailure(input: SettingsInput)
    ensures UpdateFailures(input) != [] ==> UpdateOutcome(input) == Err(UpdateFailures(input)[0])
    ensures UpdateFailures(input) == [] ==> UpdateOutcome(input).Err? ==>
      || UpdateOutcome(input) == Err(UndefinedTrimError())
      || UpdateOutcome(input) == Err(HttpError(400, NamesNotUnique))
      || UpdateOutcome(input).error.name == "ValidationError"
  {
  }

  /** Trimming then lower-casing a cast name gives the key the handler compared. */
  lemma CastKeepsKey(c: CategoryInput)
    requires c.name.Some?
    ensures ToLower(CastCategory(c).name) == NameKey(c.name.value)
  {
  }

  /** What is saved is valid, trimmed, keeps the body's salary, credit day and category
      order, and its category names differ even ignoring case. */
  lemma {:induction false} UpdateSavesWellFormed(input: SettingsInput)
    requires UpdateOutcome(input).Ok?
    ensures var s := UpdateOutcome(input).value;
      && ValidSettings(s) && SettingsTrimmed(s) && NamesDistinct(s.categories)
      && Some(s.salary) == input.salary && Some(s.salaryCreditDate) == input.salaryCreditDate
      && |s.categories| == |input.categories.value| > 0
      && |s.fixedDeductions| == |input.fixedDeductions|
  {
    var s := UpdateOutcome(input).value;
    var cs := input.categories.value;
    assert !SalaryMissing(input) && !CreditDateMissing(input) && !CategoriesMissing(input);
    assert AllNamed(cs) && KeysDistinct(cs);
    assert s == CastSettings(input) && SettingsErrors(s) == [];
    SettingsErrorsIffInvalid(s);
    CastNamesDistinct(cs);
  }

  /** Categories whose keys differ keep names that differ ignoring case once cast. */
  lemma CastNamesDistinct(cs: seq<CategoryInput>)
    requires AllNamed(cs) && KeysDistinct(cs)
    ensures NamesDistinct(CastCategories(cs))
  {
    var r := CastCategories(cs);
    forall i, j | 0 <= i < j < |cs| ensures ToLower(r[i].name) != ToLower(r[j].name) {
      CastKeepsKey(cs[i]);
      CastKeepsKey(cs[j]);
    }
  }

  /** White space around a trimmed, non-empty string is all `Trim` removes. */
  lemma TrimPadded(t: string)
    requires t != "" && IsTrimmed(t)
    ensures Trim(" " + t + " ") == t
  {
    assert (" " + t + " ")[1..] == t + " ";
    assert TrimStart(" " + t + " ") == t + " ";
    assert (t + " ")[..|t|] == t;
    assert TrimEnd(t + " ") == t;
  }

  /** A name repeated in lower case with padding around it is refused as a duplicate. */
  lemma PaddedDuplicateRefused(name: string, limit: real)
    requires name != "" && IsTrimmed(name)
    ensures UpdateOutcome(SettingsInput(Some(1000.0), Some(1), [],
      Some([CategoryInput(Some(name), limit, None), CategoryInput(Some(" " + ToLower(name) + " "), limit, None)])))
      == Err(HttpError(400, NamesNotUnique))
  {
    var lower := ToLower(name);
    LowerSpace(name[0]);
    LowerSpace(name[|name| - 1]);
    TrimPadded(lower);
    TrimOfTrimmed(name);
    ToLowerIdempotent(name);
    var cs := [CategoryInput(Some(name), limit, None), CategoryInput(Some(" " + lower + " "), limit, None)];
    assert NameKey(cs[0].name.value) == NameKey(cs[1].name.value);
    assert !KeysDistinct(cs);
    var input := SettingsInput(Some(1000.0), Some(1), [], Some(cs));
    assert !SalaryMissing(input) && !CreditDateMissing(input) && !CategoriesMissing(input) && AllNamed(cs);
  }

  class SettingsStore {

    /** The one settings document, if any. */
    var doc: Option<Settings>

    /** A stored document is valid, trimmed, and its category names are distinct ignoring
        case. */
    predicate Valid()
      reads this
    {
      doc.Some? ==> ValidSettings(doc.value) && SettingsTrimmed(doc.value) && NamesDistinct(doc.value.categories)
    }

    constructor()
      ensures doc == None && Valid()
    {
      doc := None;
    }

    /** `getSettings`. */
    method GetSettings() returns (r: Settings)
      requires Valid()
      ensures doc.None? ==> r == DefaultView
      ensures doc.Some? ==> r == doc.value && ValidSettings(r)
    {
      r := if doc.Some? then doc.value else DefaultView;
    }

    /** `updateSettings`: the upsert replaces the four fields or creates the document; a
        refused request leaves the store as it was. */
    method UpdateSettings(input: SettingsInput) returns (r: Result<Settings, AppError>)
      requires Valid()
      modifies this
      ensures Valid()
      ensures r == UpdateOutcome(input)
      ensures r.Ok? ==> doc == Some(r.value)
      ensures r.Err? ==> doc == old(doc)
    {
      r := UpdateOutcome(input);
      if r.Ok? {
        UpdateSavesWellFormed(input);
        doc := Some(r.value);
      }
    }
  }
}
