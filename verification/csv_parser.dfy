/** `parseCSV`: an SBI statement, already split into rows of cells, becomes a list of
    transactions. */
module CsvParser {

  import opened Wrappers
  import opened Text
  import opened Calendar
  import opened Errors
  import opened Normalizers
  import opened Transactions
  import opened ColumnResolver

  /** One row of cells as the CSV reader returns it (empty lines already skipped). */
  type Row = seq<string>

  /** `row[i]`: `None` stands for `undefined`, past the end of a short row. */
  function Cell(row: Row, i: int): Option<string> {
    if 0 <= i < |row| then Some(row[i]) else None
  }

  /** The amount read from column `col`, or 0 when the statement has no such column. */
  function ColumnAmount(row: Row, col: int): real {
    if col != -1 then ParseAmount(Cell(row, col)) else 0.0
  }

  /** Some cell of the row contains "date" once lower-cased (not trimmed). */
  predicate MentionsDate(row: Row) {
    exists j | 0 <= j < |row| :: Fills(DateRole, ToLower(row[j]))
  }

  /** `Math.min(data.length, 10)`: only the first ten rows are searched for the header. */
  function SearchLimit(data: seq<Row>): nat {
    if |data| < 10 then |data| else 10
  }

  /** The first row from `i` on, below the search limit, that mentions a date; 0 if none does. */
  function HeaderFrom(data: seq<Row>, i: nat): (h: nat)
    requires i <= SearchLimit(data)
    ensures h == 0 || i <= h < SearchLimit(data)
    decreases SearchLimit(data) - i
  {
    if i == SearchLimit(data) then 0
    else if MentionsDate(data[i]) then i
    else HeaderFrom(data, i + 1)
  }

  /** The header row: the first of the first ten rows that mentions a date, else row 0. */
  function HeaderIndex(data: seq<Row>): (h: nat)
    ensures h < 10 && (data != [] ==> h < |data|)
  {
    HeaderFrom(data, 0)
  }

  /** The search from `i` finds the first row from `i` on that mentions a date, and gives 0
      exactly when none below the limit does. */
  lemma {:induction false} HeaderFromIsFirst(data: seq<Row>, i: nat)
    requires i <= SearchLimit(data)
    ensures var h := HeaderFrom(data, i);
      && ((exists k | i <= k < SearchLimit(data) :: MentionsDate(data[k])) ==>
        && i <= h < SearchLimit(data)
        && MentionsDate(data[h])
        && forall k | i <= k < h :: !MentionsDate(data[k]))
      && ((forall k | i <= k < SearchLimit(data) :: !MentionsDate(data[k])) ==> h == 0)
    decreases SearchLimit(data) - i
  {
    if i < SearchLimit(data) && !MentionsDate(data[i]) {
      HeaderFromIsFirst(data, i + 1);
    }
  }

  /** The header row is the first of the first ten rows that mentions a date; with no such
      row it is row 0. */
  lemma HeaderIndexIsFirst(data: seq<Row>)
    ensures var h := HeaderIndex(data);
      && ((exists k | 0 <= k < SearchLimit(data) :: MentionsDate(data[k])) ==>
        && MentionsDate(data[h])
        && forall k | 0 <= k < h :: !MentionsDate(data[k]))
      && ((forall k | 0 <= k < SearchLimit(data) :: !MentionsDate(data[k])) ==> h == 0)
  {
    HeaderFromIsFirst(data, 0);
  }

  /** What one data row contributes: nothing, a transaction, or the exception that ends
      the whole parse. */
  datatype RowOutcome = Skip | Emit(t: Transaction) | Crash(e: AppError)

  /** One iteration of the row loop. A row without a readable date, or with both amounts
      zero, is skipped. A description column past the end of the row is `undefined`, and
      trimming it throws. */
  function CsvRow(row: Row, cols: Columns, parseNamed: DateParse): RowOutcome {
    match ParseSBIDate(Cell(row, cols.date), parseNamed)
    case None => Skip
    case Some(date) =>
      if cols.description != -1 && Cell(row, cols.description).None? then
        Crash(UndefinedTrimError())
      else
        var description := if cols.description != -1 then Trim(row[cols.description]) else "";
        var debit := ColumnAmount(row, cols.debit);
        var credit := ColumnAmount(row, cols.credit);
        if debit == 0.0 && credit == 0.0 then Skip
        else
          Emit(Transaction(
            date,
            if description == "" then DefaultDescription else description,
            if debit != 0.0 then debit else credit,
            if debit > 0.0 then Debit else Credit,
            "",
            []))
  }

  /** The outcome of every row, in order. */
  function Outcomes(rows: seq<Row>, cols: Columns, parseNamed: DateParse): (outs: seq<RowOutcome>)
    ensures |outs| == |rows|
    ensures forall j | 0 <= j < |rows| :: outs[j] == CsvRow(rows[j], cols, parseNamed)
  {
    seq(|rows|, j requires 0 <= j < |rows| => CsvRow(rows[j], cols, parseNamed))
  }

  /** The transactions of the emitted outcomes, in order, unless a crash comes first. */
  function Collect(outs: seq<RowOutcome>): Result<seq<Transaction>, AppError> {
    if outs == [] then Ok([])
    else
      match Collect(outs[..|outs| - 1])
      case Err(e) => Err(e)
      case Ok(ts) =>
        match outs[|outs| - 1]
        case Skip => Ok(ts)
        case Emit(t) => Ok(ts + [t])
        case Crash(e) => Err(e)
  }

  /** The row loop over `rows`; the first crash ends it. */
  function CsvRows(rows: seq<Row>, cols: Columns, parseNamed: DateParse)
    : Result<seq<Transaction>, AppError>
  {
    Collect(Outcomes(rows, cols, parseNamed))
  }

  /** `parseCSV` on the reader's rows and error messages. */
  function CsvSpec(data: seq<Row>, errors: seq<string>, parseNamed: DateParse)
    : Result<seq<Transaction>, AppError>
  {
    if |errors| > 0 && |data| == 0 then Err(PlainError("Failed to parse CSV: " + errors[0]))
    else if |data| < 2 then Err(PlainError("CSV file has no data rows"))
    else
      var h := HeaderIndex(data);
      CsvWithColumns(data[h + 1..], Resolve(data[h]), parseNamed)
  }

  /** After the header: the column checks, then the row loop over the rows below it. */
  function CsvWithColumns(rows: seq<Row>, cols: Columns, parseNamed: DateParse)
    : Result<seq<Transaction>, AppError>
  {
    if cols.date == -1 then Err(PlainError("Could not find Date column in CSV"))
    else if cols.debit == -1 && cols.credit == -1 then
      Err(PlainError("Could not find Debit/Credit columns in CSV"))
    else CsvRows(rows, cols, parseNamed)
  }

  /** Once a prefix of the outcomes has crashed, the remaining ones change nothing. */
  lemma {:induction false} CollectCrashSticks(outs: seq<RowOutcome>, k: nat)
    requires k <= |outs|
    requires Collect(outs[..k]).Err?
    ensures Collect(outs) == Collect(outs[..k])
    decreases |outs| - k
  {
    if k < |outs| {
      assert outs[..k + 1][..k] == outs[..k];
      CollectCrashSticks(outs, k + 1);
    } else {
      assert outs[..k] == outs;
    }
  }

  /** Collecting two blocks of outcomes one after the other concatenates their results. */
  lemma {:induction false} CollectAppend(a: seq<RowOutcome>, b: seq<RowOutcome>)
    requires Collect(a).Ok?
    ensures Collect(a + b) ==
      match Collect(b)
      case Ok(tb) => Ok(Collect(a).value + tb)
      case Err(e) => Err(e)
    decreases |b|
  {
    if b == [] {
      assert a + b == a;
      assert Collect(a).value + [] == Collect(a).value;
    } else {
      var b' := b[..|b| - 1];
      assert (a + b)[..|a + b| - 1] == a + b';
      assert (a + b)[|a + b| - 1] == b[|b| - 1];
      CollectAppend(a, b');
      match Collect(b')
      case Ok(tb) =>
        var last := b[|b| - 1];
        if last.Emit? {
          assert (Collect(a).value + tb) + [last.t] == Collect(a).value + (tb + [last.t]);
        }
      case Err(_) =>
    }
  }

  lemma OutcomesAppend(a: seq<Row>, b: seq<Row>, cols: Columns, parseNamed: DateParse)
    ensures Outcomes(a + b, cols, parseNamed) == Outcomes(a, cols, parseNamed) + Outcomes(b, cols, parseNamed)
  {
  }

  /** The header search: the first of the first ten rows that mentions a date. */
  method FindHeaderRow(data: seq<Row>) returns (headerIdx: nat)
    ensures headerIdx == HeaderIndex(data)
  {
    headerIdx := 0;
    var i := 0;
    while i < SearchLimit(data)
      invariant 0 <= i <= SearchLimit(data)
      invariant HeaderFrom(data, i) == HeaderIndex(data)
      invariant headerIdx == 0
    {
      if MentionsDate(data[i]) {
        headerIdx := i;
        break;
      }
      i := i + 1;
    }
  }

  /** The body of the row loop, on one row. */
  method ParseRow(row: Row, cols: Columns, parseNamed: DateParse) returns (out: RowOutcome)
    ensures out == CsvRow(row, cols, parseNamed)
  {
    var date := ParseSBIDate(Cell(row, cols.date), parseNamed);
    if date.None? {
      return Skip;
    }
    if cols.description != -1 && Cell(row, cols.description).None? {
      return Crash(UndefinedTrimError());
    }
    var description := if cols.description != -1 then Trim(row[cols.description]) else "";
    var debitAmt := if cols.debit != -1 then ParseAmount(Cell(row, cols.debit)) else 0.0;
    var creditAmt := if cols.credit != -1 then ParseAmount(Cell(row, cols.credit)) else 0.0;
    if debitAmt == 0.0 && creditAmt == 0.0 {
      return Skip;
    }
    out := Emit(Transaction(
      date.value,
      if description == "" then DefaultDescription else description,
      if debitAmt != 0.0 then debitAmt else creditAmt,
      if debitAmt > 0.0 then Debit else Credit,
      "",
      []));
  }

  /** The row loop: skipped rows add nothing, and the first crash ends the parse. */
  method ParseRows(rows: seq<Row>, cols: Columns, parseNamed: DateParse)
    returns (r: Result<seq<Transaction>, AppError>)
    ensures r == CsvRows(rows, cols, parseNamed)
  {
    ghost var outs := Outcomes(rows, cols, parseNamed);
    var transactions := [];
    var k := 0;
    while k < |rows|
      invariant 0 <= k <= |rows|
      invariant Collect(outs[..k]) == Ok(transactions)
    {
      var out := ParseRow(rows[k], cols, parseNamed);
      assert outs[..k + 1][..k] == outs[..k];
      assert outs[k] == out;
      match out {
        case Skip =>
        case Emit(t) =>
          transactions := transactions + [t];
        case Crash(e) =>
          CollectCrashSticks(outs, k + 1);
          return Err(e);
      }
      k := k + 1;
    }
    assert outs[..k] == outs;
    return Ok(transactions);
  }

  /** `parseCSV`: the reader's errors, the header search, the column check, then the rows
      after the header. */
  method ParseCSV(data: seq<Row>, errors: seq<string>, parseNamed: DateParse)
    returns (r: Result<seq<Transaction>, AppError>)
    ensures r == CsvSpec(data, errors, parseNamed)
  {
    if |errors| > 0 && |data| == 0 {
      return Err(PlainError("Failed to parse CSV: " + errors[0]));
    }
    if |data| < 2 {
      return Err(PlainError("CSV file has no data rows"));
    }
    var headerIdx := FindHeaderRow(data);
    var cols := FindColumnIndices(data[headerIdx]);
    if cols.date == -1 {
      return Err(PlainError("Could not find Date column in CSV"));
    }
    if cols.debit == -1 && cols.credit == -1 {
      return Err(PlainError("Could not find Debit/Credit columns in CSV"));
    }
    r := ParseRows(data[headerIdx + 1..], cols, parseNamed);
  }

  /** What every imported transaction satisfies: a non-zero amount, a non-empty description,
      no category and no tags yet, and a debit is never negative. */
  predicate WellFormedImport(t: Transaction) {
    && t.amount != 0.0
    && t.description != ""
    && t.category == ""
    && t.tags == []
    && (t.kind == Debit ==> t.amount > 0.0)
  }

  /** A row is skipped exactly when its date does not parse or, its description cell being
      there, both amounts read as zero; an emitted row is well formed, carries the parsed date,
      the trimmed description cell or "Bank Transaction" when it is blank or has no column,
      and takes the debit amount unless it is zero. */
  lemma CsvRowMeaning(row: Row, cols: Columns, parseNamed: DateParse)
    ensures var date := ParseSBIDate(Cell(row, cols.date), parseNamed);
      var debit, credit := ColumnAmount(row, cols.debit), ColumnAmount(row, cols.credit);
      var out := CsvRow(row, cols, parseNamed);
      && (out.Skip? <==>
          date.None? || (!out.Crash? && debit == 0.0 && credit == 0.0))
      && (out.Crash? <==>
          date.Some? && cols.description != -1 && !(0 <= cols.description < |row|))
      && (out.Emit? ==>
        && WellFormedImport(out.t)
        && Some(out.t.date) == date
        && out.t.description == (if cols.description != -1 && Trim(row[cols.description]) != ""
          then Trim(row[cols.description]) else DefaultDescription)
        && out.t.amount == (if debit != 0.0 then debit else credit)
        && (out.t.kind == Debit <==> debit > 0.0))
  {
  }

  /** A negative debit cell (a reversal printed with a minus sign) is imported as a credit
      of that negative amount, since the sign test comes after the zero test. */
  lemma NegativeDebitIsCredit(row: Row, cols: Columns, parseNamed: DateParse)
    requires ParseSBIDate(Cell(row, cols.date), parseNamed).Some?
    requires cols.description == -1 || 0 <= cols.description < |row|
    requires ColumnAmount(row, cols.debit) < 0.0
    ensures CsvRow(row, cols, parseNamed).Emit?
    ensures CsvRow(row, cols, parseNamed).t.kind == Credit
    ensures CsvRow(row, cols, parseNamed).t.amount == ColumnAmount(row, cols.debit)
  {
    CsvRowMeaning(row, cols, parseNamed);
  }

  /** Parsing a block of rows after another gives the two results one after the other:
      rows keep their statement order. */
  lemma CsvRowsAppend(a: seq<Row>, b: seq<Row>, cols: Columns, parseNamed: DateParse)
    requires CsvRows(a, cols, parseNamed).Ok?
    ensures CsvRows(a + b, cols, parseNamed) ==
      match CsvRows(b, cols, parseNamed)
      case Ok(tb) => Ok(CsvRows(a, cols, parseNamed).value + tb)
      case Err(e) => Err(e)
  {
    OutcomesAppend(a, b, cols, parseNamed);
    CollectAppend(Outcomes(a, cols, parseNamed), Outcomes(b, cols, parseNamed));
  }

  /** Every transaction collected from well-formed emissions is well formed, and there are at
      most as many as outcomes. */
  lemma {:induction false} CollectWellFormed(outs: seq<RowOutcome>)
    requires forall j | 0 <= j < |outs| :: outs[j].Emit? ==> WellFormedImport(outs[j].t)
    requires Collect(outs).Ok?
    ensures |Collect(outs).value| <= |outs|
    ensures forall t | t in Collect(outs).value :: WellFormedImport(t)
  {
    if outs != [] {
      CollectWellFormed(outs[..|outs| - 1]);
    }
  }

  /** Every transaction the row loop returns is well formed, and there are at most as many
      as rows. */
  lemma CsvRowsWellFormed(rows: seq<Row>, cols: Columns, parseNamed: DateParse)
    requires CsvRows(rows, cols, parseNamed).Ok?
    ensures var ts := CsvRows(rows, cols, parseNamed).value;
      && |ts| <= |rows|
      && forall t | t in ts :: WellFormedImport(t)
  {
    var outs := Outcomes(rows, cols, parseNamed);
    forall j | 0 <= j < |outs| ensures outs[j].Emit? ==> WellFormedImport(outs[j].t) {
      CsvRowMeaning(rows[j], cols, parseNamed);
    }
    CollectWellFormed(outs);
  }

  /** A successful parse found at least two rows, a header naming a date column and an
      amount column, and returns only well-formed transactions, no more than the rows after
      the header. */
  lemma CsvSpecOk(data: seq<Row>, errors: seq<string>, parseNamed: DateParse)
    requires CsvSpec(data, errors, parseNamed).Ok?
    ensures |data| >= 2
    ensures var h := HeaderIndex(data);
      var cols := Resolve(data[h]);
      var ts := CsvSpec(data, errors, parseNamed).value;
      && cols.date != -1
      && (cols.debit != -1 || cols.credit != -1)
      && |ts| <= |data| - h - 1
      && forall t | t in ts :: WellFormedImport(t)
  {
    var h := HeaderIndex(data);
    CsvRowsWellFormed(data[h + 1..], Resolve(data[h]), parseNamed);
  }

  /** Reader errors only matter when no row was read at all. */
  lemma ReaderErrorsIgnoredWithRows(data: seq<Row>, errors: seq<string>, parseNamed: DateParse)
    requires |data| > 0
    ensures CsvSpec(data, errors, parseNamed) == CsvSpec(data, [], parseNamed)
  {
  }
}
