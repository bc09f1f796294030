/** The expense endpoints over the expense collection: list one month, add, update and
    delete. Every check answers with its own message, and the first check that fails wins. */
module ExpenseController {

  import opened Wrappers
  import opened Text
  import opened Calendar
  import opened Errors
  import opened Models
  import opened Ordering

  /** A stored document: the identifier the store gave it and the expense. */
  datatype Doc = Doc(id: nat, expense: Expense)

  predicate DistinctIds(docs: seq<Doc>) {
    forall i, j | 0 <= i < j < |docs| :: docs[i].id != docs[j].id
  }

  /** What the schema lets into the collection: cast (trimmed) and valid. */
  predicate Conforms(e: Expense) {
    ValidExpense(e) && IsTrimmed(e.category) && IsTrimmed(e.description)
  }

  /** `findById`: the position of the document with identifier `id`, if any. */
  function Find(docs: seq<Doc>, id: nat): (r: Option<nat>)
    ensures r.Some? ==> r.value < |docs| && docs[r.value].id == id
    ensures r.None? ==> forall i | 0 <= i < |docs| :: docs[i].id != id
  {
    if docs == [] then None
    else if docs[0].id == id then Some(0)
    else match Find(docs[1..], id)
      case Some(k) => Some(k + 1)
      case None => None
  }

  /** `Expense.find({ month, year })`: the expenses of one month, in store order. */
  function OfMonth(docs: seq<Doc>, month: int, year: int): seq<Expense> {
    if docs == [] then []
    else
      var e := docs[|docs| - 1].expense;
      OfMonth(docs[..|docs| - 1], month, year) + (if e.month == month && e.year == year then [e] else [])
  }

  /** The month's expenses are exactly the stored expenses with that month and year. */
  lemma {:induction false} OfMonthMembers(docs: seq<Doc>, month: int, year: int, e: Expense)
    ensures e in OfMonth(docs, month, year) <==>
      (exists i | 0 <= i < |docs| :: docs[i].expense == e) && e.month == month && e.year == year
  {
    if docs != [] {
      var init := docs[..|docs| - 1];
      OfMonthMembers(init, month, year, e);
      if exists i | 0 <= i < |docs| :: docs[i].expense == e {
        var i :| 0 <= i < |docs| && docs[i].expense == e;
        if i < |init| {
          assert init[i] == docs[i];
        }
      }
      assert forall i | 0 <= i < |init| :: init[i] == docs[i];
    }
  }

  /** Newer days first (`sort({ date: -1 })`). */
  predicate DateNotBefore(a: Expense, b: Expense) {
    Ordinal(a.date) >= Ordinal(b.date)
  }

  lemma DateOrderIsTotal()
    ensures IsTotalPreorder(DateNotBefore)
  {
  }

  const QueryRequired: string := "month and year query parameters are required"
  const DateRequired: string := "Date is required"
  const InvalidDate: string := "Invalid date format"
  const NotFound: string := "Expense not found"
  const Deleted: string := "Expense deleted successfully"

  /** The request fields of `addExpense` and `updateExpense`; `None` is a field not sent. */
  datatype ExpenseFields = ExpenseFields(
    date: Option<string>,
    category: Option<string>,
    amount: Option<real>,
    description: Option<string>)

  /** JavaScript truthiness of a string field: present and not empty. */
  predicate Truthy(s: Option<string>) {
    s.Some? && s.value != ""
  }

  /** `!x || !x.trim()`. */
  predicate Blank(s: Option<string>) {
    s.None? || Trim(s.value) == ""
  }

  /** The checks of `addExpense`, each on its own: the messages of all that fail, in the
      order the handler makes them. */
  function AddFailures(f: ExpenseFields, parseDate: DateParse): seq<string> {
    (if !Truthy(f.date) then [DateRequired] else [])
    + (if Truthy(f.date) && parseDate(f.date.value).None? then [InvalidDate] else [])
    + (if Blank(f.category) then [CategoryRequired] else [])
    + (if f.amount.None? || f.amount.value <= 0.0 then [AmountTooSmall] else [])
    + (if Blank(f.description) then [DescriptionRequired] else [])
    + (if f.description.Some? && |Trim(f.description.value)| > 200 then [DescriptionTooLong] else [])
  }

  /** `addExpense` up to `Expense.create`: the chain of checks, then the record it creates,
      dated in the calendar month of the date (not the budget cycle). */
  function AddCheck(f: ExpenseFields, parseDate: DateParse): Result<Expense, AppError> {
    if !Truthy(f.date) then Err(HttpError(400, DateRequired))
    else
      match parseDate(f.date.value)
      case None => Err(HttpError(400, InvalidDate))
      case Some(d) =>
        if Blank(f.category) then Err(HttpError(400, CategoryRequired))
        else if f.amount.None? || f.amount.value <= 0.0 then Err(HttpError(400, AmountTooSmall))
        else if Blank(f.description) then Err(HttpError(400, DescriptionRequired))
        else if |Trim(f.description.value)| > 200 then Err(HttpError(400, DescriptionTooLong))
        else Ok(Expense(d, Trim(f.category.value), f.amount.value, Trim(f.description.value), d.month, d.year))
  }

  /** The first failing check answers, with a 400 and its message; with none failing the
      record holds the trimmed fields and the date's calendar month and year. */
  lemma AddCheckFirstFailure(f: ExpenseFields, parseDate: DateParse)
    ensures var r := AddCheck(f, parseDate);
      var fails := AddFailures(f, parseDate);
      && (r.Err? <==> fails != [])
      && (r.Err? ==> r.error == HttpError(400, fails[0]))
      && (r.Ok? ==>
        && Some(r.value.date) == parseDate(f.date.value)
        && r.value.category == Trim(f.category.value) && r.value.category != ""
        && r.value.description == Trim(f.description.value)
        && 0 < |r.value.description| <= 200
        && r.value.amount == f.amount.value > 0.0
        && r.value.month == r.value.date.month && r.value.year == r.value.date.year)
  {
  }

  /** `Expense.create`: cast, then validate; a refused record is not stored. */
  function Create(e: Expense): Result<Expense, AppError> {
    var c := CastExpense(e);
    if ExpenseErrors(c) != [] then Err(ValidationError(ExpenseErrors(c))) else Ok(c)
  }

  function AddOutcome(f: ExpenseFields, parseDate: DateParse): Result<Expense, AppError> {
    match AddCheck(f, parseDate)
    case Err(e) => Err(e)
    case Ok(e) => Create(e)
  }

  /** Past the handler's checks only the schema's one-cent minimum can still refuse. */
  lemma AddOnlyCentMinimumLeft(f: ExpenseFields, parseDate: DateParse)
    requires AddCheck(f, parseDate).Ok?
    ensures var e := AddCheck(f, parseDate).value;
      AddOutcome(f, parseDate) == if e.amount < 0.01 then Err(ValidationError([AmountTooSmall])) else Ok(e)
  {
    var e := AddCheck(f, parseDate).value;
    TrimIdempotent(f.category.value);
    TrimIdempotent(f.description.value);
    assert CastExpense(e) == e;
    assert 1 <= e.month <= 12;
    assert e.category != "" && e.description != "" && |e.description| <= 200;
    assert AddOutcome(f, parseDate) == Create(e);
    if e.amount < 0.01 {
      assert ExpenseErrors(e) == [AmountTooSmall];
    } else {
      assert ExpenseErrors(e) == [];
    }
  }

  /** `updateExpense`'s changes to the loaded expense, field by field: a truthy date moves
      the date with its month and year, a truthy category is replaced trimmed, a present
      amount or description is checked, then replaced. */
  function ApplyUpdate(e: Expense, f: ExpenseFields, parseDate: DateParse): Result<Expense, AppError> {
    var dated :=
      if !Truthy(f.date) then Ok(e)
      else match parseDate(f.date.value)
        case None => Err(HttpError(400, InvalidDate))
        case Some(d) => Ok(e.(date := d, month := d.month, year := d.year));
    if dated.Err? then dated
    else
      var e1 := dated.value;
      var e2 := if Truthy(f.category) then e1.(category := Trim(f.category.value)) else e1;
      if f.amount.Some? && f.amount.value <= 0.0 then Err(HttpError(400, AmountTooSmall))
      else
        var e3 := if f.amount.Some? then e2.(amount := f.amount.value) else e2;
        if f.description.Some? && Trim(f.description.value) == "" then Err(HttpError(400, DescriptionRequired))
        else if f.description.Some? && |Trim(f.description.value)| > 200 then Err(HttpError(400, DescriptionTooLong))
        else if f.description.Some? then Ok(e3.(description := Trim(f.description.value)))
        else Ok(e3)
  }

  /** A field left out, or (for date and category) falsy, keeps its stored value; a new date
      moves month and year with it. */
  lemma UpdateKeepsUnsupplied(e: Expense, f: ExpenseFields, parseDate: DateParse)
    requires ApplyUpdate(e, f, parseDate).Ok?
    ensures var u := ApplyUpdate(e, f, parseDate).value;
      && (!Truthy(f.date) ==> u.date == e.date && u.month == e.month && u.year == e.year)
      && (Truthy(f.date) ==> Some(u.date) == parseDate(f.date.value) && u.month == u.date.month && u.year == u.date.year)
      && (!Truthy(f.category) ==> u.category == e.category)
      && (Truthy(f.category) ==> u.category == Trim(f.category.value))
      && (f.amount.None? ==> u.amount == e.amount)
      && (f.amount.Some? ==> u.amount == f.amount.value > 0.0)
      && (f.description.None? ==> u.description == e.description)
      && (f.description.Some? ==> u.description == Trim(f.description.value) && 0 < |u.description| <= 200)
  {
  }

  /** The update is refused exactly when one of its checks fails. */
  lemma UpdateRefusedWhen(e: Expense, f: ExpenseFields, parseDate: DateParse)
    ensures ApplyUpdate(e, f, parseDate).Err? <==>
      || (Truthy(f.date) && parseDate(f.date.value).None?)
      || (f.amount.Some? && f.amount.value <= 0.0)
      || (f.description.Some? && (Trim(f.description.value) == "" || |Trim(f.description.value)| > 200))
  {
  }

  /** `save` after an update: cast and validate the changed expense. */
  function UpdateOutcome(e: Expense, f: ExpenseFields, parseDate: DateParse): Result<Expense, AppError> {
    match ApplyUpdate(e, f, parseDate)
    case Err(err) => Err(err)
    case Ok(u) => Create(u)
  }

  /** The body of `updateExpense` between loading and saving: each supplied field is checked
      and written into the loaded expense in turn, and the first refused field ends it. */
  method Amend(loaded: Expense, f: ExpenseFields, parseDate: DateParse) returns (r: Result<Expense, AppError>)
    ensures r == ApplyUpdate(loaded, f, parseDate)
  {
    var expense := loaded;
    if Truthy(f.date) {
      var d := parseDate(f.date.value);
      if d.None? {
        return Err(HttpError(400, InvalidDate));
      }
      expense := expense.(date := d.value, month := d.value.month, year := d.value.year);
    }
    if Truthy(f.category) {
      expense := expense.(category := Trim(f.category.value));
    }
    if f.amount.Some? {
      if f.amount.value <= 0.0 {
        return Err(HttpError(400, AmountTooSmall));
      }
      expense := expense.(amount := f.amount.value);
    }
    if f.description.Some? {
      var trimmed := Trim(f.description.value);
      if trimmed == "" {
        return Err(HttpError(400, DescriptionRequired));
      }
      if |trimmed| > 200 {
        return Err(HttpError(400, DescriptionTooLong));
      }
      expense := expense.(description := trimmed);
    }
    r := Ok(expense);
  }

  /** `insertMany`: every record is cast and validated before any is written; the first
      record refused refuses the batch. */
  function InsertManyOutcome(es: seq<Expense>): (r: Result<seq<Expense>, AppError>)
    ensures r.Ok? ==>
      && |r.value| == |es|
      && forall i | 0 <= i < |es| :: r.value[i] == CastExpense(es[i]) && Conforms(r.value[i])
    ensures r.Err? ==> exists i | 0 <= i < |es| ::
      && (forall k | 0 <= k < i :: Create(es[k]).Ok?)
      && Create(es[i]).Err? && r.error == Create(es[i]).error
  {
    if es == [] then Ok([])
    else match Create(es[0])
      case Err(e) => Err(e)
      case Ok(c) =>
        ExpenseErrorsIffInvalid(c);
        match InsertManyOutcome(es[1..])
        case Err(e) => Err(e)
        case Ok(rest) => Ok([c] + rest)
  }

  /** Removing the document at `i` removes that identifier and keeps every other document. */
  lemma RemoveAt(docs: seq<Doc>, i: nat)
    requires DistinctIds(docs) && i < |docs|
    ensures var rest := docs[..i] + docs[i + 1..];
      && |rest| == |docs| - 1
      && DistinctIds(rest)
      && forall d :: d in rest <==> d in docs && d.id != docs[i].id
  {
    var rest := docs[..i] + docs[i + 1..];
    assert forall k | 0 <= k < |rest| :: rest[k] == if k < i then docs[k] else docs[k + 1];
    forall d | d in docs && d.id != docs[i].id ensures d in rest {
      var k :| 0 <= k < |docs| && docs[k] == d;
      assert k != i;
      if k < i { assert rest[k] == d; } else { assert rest[k - 1] == d; }
    }
  }

  class ExpenseStore {

    /** The collection, in insertion order. */
    var docs: seq<Doc>
    /** The identifier the next stored document gets. */
    var nextId: nat

    predicate Valid()
      reads this
    {
      && DistinctIds(docs)
      && forall i | 0 <= i < |docs| :: docs[i].id < nextId && Conforms(docs[i].expense)
    }

    constructor()
      ensures docs == [] && nextId == 0 && Valid()
    {
      docs := [];
      nextId := 0;
    }

    /** `getExpenses`: the month's expenses, newest day first. */
    method GetExpenses(month: Option<int>, year: Option<int>) returns (r: Result<seq<Expense>, AppError>)
      ensures r.Err? <==> month.None? || year.None?
      ensures r.Err? ==> r.error == HttpError(400, QueryRequired)
      ensures r.Ok? ==>
        && SortedBy(r.value, DateNotBefore)
        && multiset(r.value) == multiset(OfMonth(docs, month.value, year.value))
    {
      if month.None? || year.None? {
        return Err(HttpError(400, QueryRequired));
      }
      var found := OfMonth(docs, month.value, year.value);
      DateOrderIsTotal();
      SortBySorted(found, DateNotBefore);
      r := Ok(SortBy(found, DateNotBefore));
    }

    /** Appends a created expense under a fresh identifier. */
    method Store(e: Expense) returns (d: Doc)
      requires Valid() && Conforms(e)
      modifies this
      ensures Valid()
      ensures d == Doc(old(nextId), e)
      ensures docs == old(docs) + [d] && nextId == old(nextId) + 1
    {
      d := Doc(nextId, e);
      docs := docs + [d];
      nextId := nextId + 1;
    }

    /** `addExpense`. */
    method AddExpense(f: ExpenseFields, parseDate: DateParse) returns (r: Result<Doc, AppError>)
      requires Valid()
      modifies this
      ensures Valid()
      ensures r.Ok? <==> AddOutcome(f, parseDate).Ok?
      ensures r.Ok? ==>
        && r.value == Doc(old(nextId), AddOutcome(f, parseDate).value)
        && docs == old(docs) + [r.value] && nextId == old(nextId) + 1
      ensures r.Err? ==>
        && r.error == AddOutcome(f, parseDate).error
        && docs == old(docs) && nextId == old(nextId)
    {
      var checked := AddCheck(f, parseDate);
      if checked.Err? {
        return Err(checked.error);
      }
      var created := Create(checked.value);
      if created.Err? {
        return Err(created.error);
      }
      var d := Store(created.value);
      r := Ok(d);
    }

    /** Appends validated records one by one, each under the next identifier. */
    method StoreAll(records: seq<Expense>) returns (added: seq<Doc>)
      requires Valid() && forall k | 0 <= k < |records| :: Conforms(records[k])
      modifies this
      ensures Valid()
      ensures |added| == |records|
      ensures forall k | 0 <= k < |records| :: added[k] == Doc(old(nextId) + k, records[k])
      ensures docs == old(docs) + added && nextId == old(nextId) + |records|
    {
      added := [];
      var i := 0;
      while i < |records|
        invariant 0 <= i <= |records|
        invariant Valid()
        invariant |added| == i
        invariant forall k | 0 <= k < i :: added[k] == Doc(old(nextId) + k, records[k])
        invariant docs == old(docs) + added && nextId == old(nextId) + i
      {
        var d := Store(records[i]);
        added := added + [d];
        i := i + 1;
      }
    }

    /** `insertMany` of a batch: all records or none. */
    method InsertMany(es: seq<Expense>) returns (r: Result<seq<Doc>, AppError>)
      requires Valid()
      modifies this
      ensures Valid()
      ensures InsertManyOutcome(es).Err? ==>
        r == Err(InsertManyOutcome(es).error) && docs == old(docs) && nextId == old(nextId)
      ensures InsertManyOutcome(es).Ok? ==>
        && r.Ok? && |r.value| == |es|
        && (forall i | 0 <= i < |es| :: r.value[i] == Doc(old(nextId) + i, InsertManyOutcome(es).value[i]))
        && docs == old(docs) + r.value && nextId == old(nextId) + |es|
    {
      var outcome := InsertManyOutcome(es);
      if outcome.Err? {
        return Err(outcome.error);
      }
      var added := StoreAll(outcome.value);
      r := Ok(added);
    }

    /** `updateExpense`: load, change the supplied fields one by one, then save. */
    method UpdateExpense(id: Option<nat>, f: ExpenseFields, parseDate: DateParse)
      returns (r: Result<Expense, AppError>)
      requires Valid()
      modifies this
      ensures Valid() && nextId == old(nextId)
      ensures id.None? ==> r == Err(CastError())
      ensures id.Some? && Find(old(docs), id.value).None? ==> r == Err(HttpError(404, NotFound))
      ensures id.Some? && Find(old(docs), id.value).Some? ==>
        var i := Find(old(docs), id.value).value;
        r == UpdateOutcome(old(docs)[i].expense, f, parseDate)
        && docs == if r.Ok? then old(docs)[i := Doc(id.value, r.value)] else old(docs)
      ensures r.Err? ==> docs == old(docs)
    {
      if id.None? {
        return Err(CastError());
      }
      var found := Find(docs, id.value);
      if found.None? {
        return Err(HttpError(404, NotFound));
      }
      var i := found.value;
      var changed := Amend(docs[i].expense, f, parseDate);
      if changed.Err? {
        return Err(changed.error);
      }
      var saved := Create(changed.value);
      if saved.Err? {
        return Err(saved.error);
      }
      docs := docs[i := Doc(id.value, saved.value)];
      r := Ok(saved.value);
    }

    /** `deleteExpense`. */
    method DeleteExpense(id: Option<nat>) returns (r: Result<string, AppError>)
      requires Valid()
      modifies this
      ensures Valid() && nextId == old(nextId)
      ensures id.None? ==> r == Err(CastError()) && docs == old(docs)
      ensures id.Some? && Find(old(docs), id.value).None? ==>
        r == Err(HttpError(404, NotFound)) && docs == old(docs)
      ensures id.Some? && Find(old(docs), id.value).Some? ==>
        var i := Find(old(docs), id.value).value;
        r == Ok(Deleted) && docs == old(docs)[..i] + old(docs)[i + 1..]
    {
      if id.None? {
        return Err(CastError());
      }
      var found := Find(docs, id.value);
      if found.None? {
        return Err(HttpError(404, NotFound));
      }
      var i := found.value;
      RemoveAt(docs, i);
      docs := docs[..i] + docs[i + 1..];
      r := Ok(Deleted);
    }
  }
}
