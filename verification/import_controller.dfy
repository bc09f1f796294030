/** The statement import endpoints: the upload filter, `parseStatement` (parse, categorize,
    summarize) and `saveBulkExpenses` (build one expense per confirmed transaction, refuse
    the whole batch on any bad record, insert all at once). */
module ImportController {

  import opened Wrappers
  import opened Text
  import opened Calendar
  import opened Errors
  import opened Transactions
  import opened Categorizer
  import opened CsvParser
  import opened PdfParser
  import opened DateHelpers
  import opened Models
  import opened ExpenseController
  import opened ErrorHandler

  // ---------------------------------------------------------------- upload filter

  /** `originalname.toLowerCase().split('.').pop()`. */
  function Extension(name: string): string {
    var parts := SplitOn(ToLower(name), '.');
    parts[|parts| - 1]
  }

  /** The last part of a join is its suffix, and (with two parts or more) the separator
      comes right before it. */
  lemma {:induction false} JoinEndsWithLast(parts: seq<string>, sep: string)
    requires |parts| >= 1
    ensures var j := Join(parts, sep);
      var last := parts[|parts| - 1];
      && |last| <= |j| && j[|j| - |last|..] == last
      && (|parts| >= 2 ==> |last| + |sep| <= |j| && j[|j| - |last| - |sep|..|j| - |last|] == sep)
  {
    if |parts| >= 2 {
      var rest := parts[1..];
      var j := Join(parts, sep);
      var last := parts[|parts| - 1];
      assert rest[|rest| - 1] == last;
      JoinEndsWithLast(rest, sep);
      var jr := Join(rest, sep);
      assert j == parts[0] + sep + jr;
      assert j[|j| - |jr|..] == jr;
      assert j[|j| - |last|..] == jr[|jr| - |last|..];
      if |rest| == 1 {
        assert jr == last;
        assert j[|j| - |last| - |sep|..|j| - |last|] == sep;
      } else {
        assert j[|j| - |last| - |sep|..|j| - |last|] == jr[|jr| - |last| - |sep|..|jr| - |last|];
      }
    }
  }

  /** The last part of `s.split(c)` is the text after the last `c`, or all of `s`. */
  lemma LastPart(s: string, c: char)
    ensures var parts := SplitOn(s, c);
      var last := parts[|parts| - 1];
      && c !in last
      && |last| <= |s| && s[|s| - |last|..] == last
      && (c in s ==> |last| < |s| && s[|s| - |last| - 1] == c)
      && (c !in s ==> last == s)
  {
    var parts := SplitOn(s, c);
    SplitOnParts(s, c);
    SplitJoin(s, c);
    SplitCount(s, c);
    JoinEndsWithLast(parts, [c]);
  }

  /** A string with `c` in it splits into two parts or more, and one without is one part. */
  lemma SplitCount(s: string, c: char)
    ensures c in s ==> |SplitOn(s, c)| >= 2
    ensures c !in s ==> SplitOn(s, c) == [s]
  {
    if c in s {
      var i := IndexOfChar(s, c);
      var rest := SplitOn(s[i + 1..], c);
      assert SplitOn(s, c) == [s[..i]] + rest;
    } else {
      assert IndexOfChar(s, c) == -1;
    }
  }

  /** The extension is what follows the last '.' of the lower-cased name, or the whole
      lower-cased name when it has no '.'. */
  lemma ExtensionMeaning(name: string)
    ensures var s := ToLower(name);
      var ext := Extension(name);
      && '.' !in ext
      && |ext| <= |s| && s[|s| - |ext|..] == ext
      && ('.' in s ==> |ext| < |s| && s[|s| - |ext| - 1] == '.')
      && ('.' !in s ==> ext == s)
  {
    LastPart(ToLower(name), '.');
  }

  /** A name whose lower-cased form ends in '.' and a dot-free `ext` has extension `ext`. */
  lemma ExtensionAfterLastDot(name: string, pre: string, ext: string)
    requires '.' !in ext && ToLower(name) == pre + "." + ext
    ensures Extension(name) == ext
  {
    var s := ToLower(name);
    var e := Extension(name);
    ExtensionMeaning(name);
    assert s[|s| - |ext|..] == ext;
    assert s[|s| - |ext| - 1] == '.';
    assert |e| == |ext|;
  }

  const AllowedMimetypes: seq<string> := ["text/csv", "application/pdf", "application/vnd.ms-excel"]
  const OnlyCsvAndPdf: string := "Only CSV and PDF files are allowed"

  /** The upload's `fileFilter`: the error the upload fails with, if any. */
  function FileFilter(originalname: string, mimetype: string): Option<AppError> {
    var ext := Extension(originalname);
    if mimetype in AllowedMimetypes || ext == "csv" || ext == "pdf" then None
    else Some(PlainError(OnlyCsvAndPdf))
  }

  /** A name ending in `.csv` or `.pdf` (in any case) passes whatever its mimetype, and a
      listed mimetype passes whatever the name; anything else fails as a 500. */
  lemma FileFilterMeaning(originalname: string, mimetype: string, pre: string, ext: string)
    requires '.' !in ext && ToLower(originalname) == pre + "." + ext
    ensures FileFilter(originalname, mimetype).None? <==>
      mimetype in AllowedMimetypes || ext == "csv" || ext == "pdf"
    ensures FileFilter(originalname, mimetype).Some? ==>
      HandleError(FileFilter(originalname, mimetype).value).httpStatus == 500
  {
    ExtensionAfterLastDot(originalname, pre, ext);
  }

  // ---------------------------------------------------------------- parseStatement

  /** An upload as the parsers see it: the name and mimetype, what the CSV tokeniser makes
      of the buffer (rows and its error messages) and what PDF text extraction makes of it. */
  datatype UploadedFile = UploadedFile(
    originalname: string,
    mimetype: string,
    rows: seq<Row>,
    rowErrors: seq<string>,
    pdfText: Result<string, AppError>)

  datatype ImportSummary = ImportSummary(
    total: nat,
    debits: nat,
    credits: nat,
    totalDebitAmount: real,
    totalCreditAmount: real)

  /** The body `parseStatement` answers. */
  datatype ParsedStatement = ParsedStatement(
    transactions: seq<Transaction>,
    availableCategories: seq<string>,
    summary: ImportSummary)

  const NoFile: string := "No file uploaded"
  const UnsupportedFormat: string := "Unsupported file format. Use CSV or PDF."
  const NoTransactionsFound: string := "No transactions found in the uploaded file"

  /** The names of the user's categories; none without settings. */
  function CategoryNames(settings: Option<Settings>): (names: seq<string>)
    ensures settings.None? ==> names == []
    ensures settings.Some? ==>
      && |names| == |settings.value.categories|
      && forall i | 0 <= i < |names| :: names[i] == settings.value.categories[i].name
  {
    if settings.None? then []
    else
      var cs := settings.value.categories;
      seq(|cs|, i requires 0 <= i < |cs| => cs[i].name)
  }

  /** Each transaction with its category replaced by the categorizer's choice; nothing else
      changes, and count and order are kept. */
  function Categorize(txns: seq<Transaction>, names: seq<string>): (r: seq<Transaction>)
    ensures |r| == |txns|
    ensures forall i | 0 <= i < |txns| ::
      && r[i].(category := txns[i].category) == txns[i]
      && r[i].category == AutoCategorize(Some(txns[i].description), names)
  {
    seq(|txns|, i requires 0 <= i < |txns| => txns[i].(category := AutoCategorize(Some(txns[i].description), names)))
  }

  function CountKind(txns: seq<Transaction>, kind: Direction): nat {
    if txns == [] then 0
    else CountKind(txns[..|txns| - 1], kind) + (if txns[|txns| - 1].kind == kind then 1 else 0)
  }

  function SumKind(txns: seq<Transaction>, kind: Direction): real {
    if txns == [] then 0.0
    else SumKind(txns[..|txns| - 1], kind) + (if txns[|txns| - 1].kind == kind then txns[|txns| - 1].amount else 0.0)
  }

  function Summarize(txns: seq<Transaction>): ImportSummary {
    ImportSummary(|txns|, CountKind(txns, Debit), CountKind(txns, Credit), SumKind(txns, Debit), SumKind(txns, Credit))
  }

  /** Every transaction is a debit or a credit, so the two counts add up to the total. */
  lemma {:induction false} KindsPartition(txns: seq<Transaction>)
    ensures CountKind(txns, Debit) + CountKind(txns, Credit) == |txns|
  {
    if txns != [] {
      KindsPartition(txns[..|txns| - 1]);
    }
  }

  /** Counts and sums see only kinds and amounts, which categorizing leaves alone. */
  lemma {:induction false} SummaryIgnoresCategory(a: seq<Transaction>, b: seq<Transaction>)
    requires |a| == |b|
    requires forall i | 0 <= i < |a| :: a[i].kind == b[i].kind && a[i].amount == b[i].amount
    ensures Summarize(a) == Summarize(b)
  {
    if a != [] {
      SummaryIgnoresCategory(a[..|a| - 1], b[..|b| - 1]);
    }
  }

  /** The parser a file's extension selects, and what it yields. */
  function ParseByExtension(f: UploadedFile, parseNamed: DateParse): Result<seq<Transaction>, AppError> {
    var ext := Extension(f.originalname);
    if ext == "csv" then CsvSpec(f.rows, f.rowErrors, parseNamed)
    else if ext == "pdf" then
      match f.pdfText
      case Err(e) => Err(e)
      case Ok(text) => Ok(PdfSpec(text, parseNamed))
    else Err(HttpError(400, UnsupportedFormat))
  }

  /** `parseStatement`. */
  function ParseStatementOutcome(file: Option<UploadedFile>, settings: Option<Settings>, parseNamed: DateParse)
    : Result<ParsedStatement, AppError>
  {
    if file.None? then Err(HttpError(400, NoFile))
    else
      match ParseByExtension(file.value, parseNamed)
      case Err(e) => Err(e)
      case Ok(parsed) =>
        if parsed == [] then Err(HttpError(400, NoTransactionsFound))
        else
          var names := CategoryNames(settings);
          var txns := Categorize(parsed, names);
          Ok(ParsedStatement(txns, names, Summarize(txns)))
  }

  /** The answer is refused for a missing file, an extension other than csv or pdf, a parser
      failure or an empty result; otherwise it holds the parsed transactions, each given the
      category `autoCategorize` picks from its description (nothing else changed), the
      category names, and a summary whose counts add up and that the categories do not
      affect. */
  lemma ParseStatementMeaning(file: Option<UploadedFile>, settings: Option<Settings>, parseNamed: DateParse)
    ensures var r := ParseStatementOutcome(file, settings, parseNamed);
      && (file.None? ==> r == Err(HttpError(400, NoFile)))
      && (file.Some? && Extension(file.value.originalname) != "csv" && Extension(file.value.originalname) != "pdf" ==>
        r == Err(HttpError(400, UnsupportedFormat)))
      && (file.Some? && ParseByExtension(file.value, parseNamed) == Ok([]) ==> r == Err(HttpError(400, NoTransactionsFound)))
      && (r.Ok? ==>
        var parsed := ParseByExtension(file.value, parseNamed).value;
        && |r.value.transactions| == |parsed| > 0
        && r.value.transactions == Categorize(parsed, CategoryNames(settings))
        && (forall i | 0 <= i < |parsed| :: r.value.transactions[i].(category := parsed[i].category) == parsed[i])
        && (forall i | 0 <= i < |parsed| ::
          r.value.transactions[i].category == AutoCategorize(Some(parsed[i].description), CategoryNames(settings)))
        && r.value.availableCategories == CategoryNames(settings)
        && r.value.summary == Summarize(parsed)
        && r.value.summary.total == r.value.summary.debits + r.value.summary.credits)
  {
    if file.Some? && ParseByExtension(file.value, parseNamed).Ok? {
      var parsed := ParseByExtension(file.value, parseNamed).value;
      var txns := Categorize(parsed, CategoryNames(settings));
      SummaryIgnoresCategory(txns, parsed);
      KindsPartition(txns);
    }
  }

  lemma TxtExtension()
    ensures Extension("statement.txt") == "txt"
  {
    var lower := ToLower("statement.txt");
    assert forall k | 0 <= k < |lower| :: lower[k] == "statement.txt"[k];
    ExtensionAfterLastDot("statement.txt", "statement", "txt");
  }

  /** A mimetype on the allowed list lets a `.txt` file through the filter, and
      `parseStatement` then refuses it. */
  lemma AllowedMimetypeButUnsupported(rows: seq<Row>, rowErrors: seq<string>, pdfText: Result<string, AppError>,
                                      settings: Option<Settings>, parseNamed: DateParse)
    ensures FileFilter("statement.txt", "text/csv").None?
    ensures ParseStatementOutcome(Some(UploadedFile("statement.txt", "text/csv", rows, rowErrors, pdfText)), settings, parseNamed)
      == Err(HttpError(400, UnsupportedFormat))
  {
    TxtExtension();
    assert "text/csv" == AllowedMimetypes[0];
    var f := UploadedFile("statement.txt", "text/csv", rows, rowErrors, pdfText);
    assert ParseByExtension(f, parseNamed) == Err(HttpError(400, UnsupportedFormat));
  }

  /** `parseStatement` over the parser methods. */
  method ParseStatement(file: Option<UploadedFile>, settings: Option<Settings>, parseNamed: DateParse)
    returns (r: Result<ParsedStatement, AppError>)
    ensures r == ParseStatementOutcome(file, settings, parseNamed)
  {
    if file.None? {
      return Err(HttpError(400, NoFile));
    }
    var f := file.value;
    var ext := Extension(f.originalname);
    var parsed: seq<Transaction>;
    if ext == "csv" {
      var csv := ParseCSV(f.rows, f.rowErrors, parseNamed);
      if csv.Err? {
        return Err(csv.error);
      }
      parsed := csv.value;
    } else if ext == "pdf" {
      if f.pdfText.Err? {
        return Err(f.pdfText.error);
      }
      parsed := ParsePDF(f.pdfText.value, parseNamed);
    } else {
      return Err(HttpError(400, UnsupportedFormat));
    }
    if |parsed| == 0 {
      return Err(HttpError(400, NoTransactionsFound));
    }
    var names := CategoryNames(settings);
    var txns := Categorize(parsed, names);
    r := Ok(ParsedStatement(txns, names, Summarize(txns)));
  }

  // ---------------------------------------------------------------- saveBulkExpenses

  /** One confirmed transaction of the request body; `None` is a field not sent (for
      `amount`, also one `Number` cannot read; for `tags`, also one that is not an array). */
  datatype TxnInput = TxnInput(
    date: Option<string>,
    category: Option<string>,
    amount: Option<real>,
    description: Option<string>,
    tags: Option<seq<string>>)

  /** A built record: the expense and its normalised tags. */
  datatype BuiltRecord = BuiltRecord(expense: Expense, tags: seq<string>)

  const NothingToSave: string := "No transactions to save"
  const AmountsMustBePositive: string := "All transactions must have an amount greater than 0"

  /** The budget month of a record, as `saveBulkExpenses` computes it inline: one month back
      when the day is before the salary day, January going back to December. */
  function CycleOf(d: CalendarDate, salaryCreditDate: int): MonthCycle {
    var month := if d.day < salaryCreditDate then d.month - 1 else d.month;
    if d.day < salaryCreditDate && month == 0 then MonthCycle(12, d.year - 1)
    else MonthCycle(month, d.year)
  }

  /** The inline copy and `getCurrentMonthCycle` agree on every date and salary day. */
  lemma CycleOfAgrees(d: CalendarDate, salaryCreditDate: int)
    ensures CycleOf(d, salaryCreditDate) == GetCurrentMonthCycle(d, salaryCreditDate)
  {
  }

  /** `String(t).trim().toLowerCase()`. */
  function NormalizeTag(t: string): string {
    ToLower(Trim(t))
  }

  lemma NormalizedTagShape(t: string)
    ensures IsTrimmed(NormalizeTag(t)) && ToLower(NormalizeTag(t)) == NormalizeTag(t)
  {
    TrimLowerCommute(t);
    TrimIsTrimmed(ToLower(t));
    ToLowerIdempotent(Trim(t));
  }

  function NormalizeAll(ts: seq<string>): (r: seq<string>)
    ensures |r| == |ts| && forall i | 0 <= i < |ts| :: r[i] == NormalizeTag(ts[i])
  {
    seq(|ts|, i requires 0 <= i < |ts| => NormalizeTag(ts[i]))
  }

  /** `filter(Boolean)` on strings. */
  function NonEmpty(ts: seq<string>): seq<string> {
    if ts == [] then []
    else NonEmpty(ts[..|ts| - 1]) + (if ts[|ts| - 1] == "" then [] else [ts[|ts| - 1]])
  }

  lemma {:induction false} NonEmptyMembers(ts: seq<string>)
    ensures forall x :: x in NonEmpty(ts) <==> x in ts && x != ""
  {
    if ts != [] {
      var init := ts[..|ts| - 1];
      NonEmptyMembers(init);
      assert ts == init + [ts[|ts| - 1]];
    }
  }

  /** `[...new Set(ts)]`: each value once, where it first occurs. */
  function Dedup(ts: seq<string>): seq<string> {
    if ts == [] then []
    else
      var init := ts[..|ts| - 1];
      Dedup(init) + (if ts[|ts| - 1] in init then [] else [ts[|ts| - 1]])
  }

  predicate Distinct(ts: seq<string>) {
    forall i, j | 0 <= i < j < |ts| :: ts[i] != ts[j]
  }

  lemma {:induction false} DedupMeaning(ts: seq<string>)
    ensures forall x :: x in Dedup(ts) <==> x in ts
    ensures Distinct(Dedup(ts))
  {
    if ts != [] {
      var init := ts[..|ts| - 1];
      DedupMeaning(init);
      assert ts == init + [ts[|ts| - 1]];
    }
  }

  /** Deduplicating a prefix gives a prefix of the deduplicated whole: values keep the order
      of their first occurrences. */
  lemma {:induction false} DedupPrefix(ts: seq<string>, k: nat)
    requires k <= |ts|
    ensures |Dedup(ts[..k])| <= |Dedup(ts)| && Dedup(ts[..k]) == Dedup(ts)[..|Dedup(ts[..k])|]
    decreases |ts| - k
  {
    if k < |ts| {
      var init := ts[..|ts| - 1];
      assert init[..k] == ts[..k];
      DedupPrefix(init, k);
    } else {
      assert ts[..k] == ts;
    }
  }

  /** The whole tag pipeline: not an array gives none; otherwise normalise, drop empties,
      deduplicate, keep the first ten. */
  function NormalizeTags(tags: Option<seq<string>>): seq<string> {
    match tags
    case None => []
    case Some(ts) =>
      var kept := Dedup(NonEmpty(NormalizeAll(ts)));
      if |kept| <= 10 then kept else kept[..10]
  }

  /** The tags kept are at most ten, lower-case, trimmed, non-empty and distinct, each the
      normal form of a given tag; when fewer than ten are kept, every non-empty normal form
      is among them. */
  lemma NormalizeTagsMeaning(tags: Option<seq<string>>)
    ensures var r := NormalizeTags(tags);
      && |r| <= 10
      && Distinct(r)
      && (forall i | 0 <= i < |r| :: r[i] != "" && IsTrimmed(r[i]) && ToLower(r[i]) == r[i])
      && (tags.None? ==> r == [])
      && (tags.Some? ==>
        && (forall i | 0 <= i < |r| :: r[i] in NormalizeAll(tags.value))
        && (|r| < 10 ==> forall j | 0 <= j < |tags.value| && NormalizeTag(tags.value[j]) != "" ::
          NormalizeTag(tags.value[j]) in r))
  {
    if tags.Some? {
      var all := NormalizeAll(tags.value);
      var kept := Dedup(NonEmpty(all));
      NonEmptyMembers(all);
      DedupMeaning(NonEmpty(all));
      var r := NormalizeTags(tags);
      forall i | 0 <= i < |r|
        ensures r[i] != "" && IsTrimmed(r[i]) && ToLower(r[i]) == r[i] && r[i] in all
      {
        assert r[i] in kept;
        var j :| 0 <= j < |all| && all[j] == r[i];
        NormalizedTagShape(tags.value[j]);
      }
    }
  }

  /** `substring(0, n)`. */
  function Prefix(s: string, n: nat): (r: string)
    ensures |r| <= n && |r| <= |s| && r == s[..|r|]
    ensures |s| <= n ==> r == s
  {
    if |s| <= n then s else s[..n]
  }

  /** `x || fallback` on a string field. */
  function OrDefault(s: Option<string>, fallback: string): string {
    if s.Some? && s.value != "" then s.value else fallback
  }

  /** One record of `saveBulkExpenses`; an unreadable date refuses it with its text. */
  function BuildRecord(txn: TxnInput, salaryCreditDate: int, parseDate: DateParse): Result<BuiltRecord, AppError> {
    var parsed := if txn.date.Some? then parseDate(txn.date.value) else None;
    match parsed
    case None => Err(HttpError(400, "Invalid date: " + txn.date.GetOr("undefined")))
    case Some(d) =>
      var cycle := CycleOf(d, salaryCreditDate);
      Ok(BuiltRecord(
        Expense(
          d,
          Trim(OrDefault(txn.category, Uncategorized)),
          txn.amount.GetOr(0.0),
          Prefix(Trim(OrDefault(txn.description, DefaultDescription)), 200),
          cycle.month,
          cycle.year),
        NormalizeTags(txn.tags)))
  }

  /** `transactions.map(...)`: the first record that throws ends the map. */
  function BuildRecords(txns: seq<TxnInput>, salaryCreditDate: int, parseDate: DateParse)
    : (r: Result<seq<BuiltRecord>, AppError>)
    ensures r.Ok? ==> |r.value| == |txns| && forall i | 0 <= i < |txns| ::
      BuildRecord(txns[i], salaryCreditDate, parseDate) == Ok(r.value[i])
    ensures r.Err? ==> exists i | 0 <= i < |txns| ::
      && (forall k | 0 <= k < i :: BuildRecord(txns[k], salaryCreditDate, parseDate).Ok?)
      && BuildRecord(txns[i], salaryCreditDate, parseDate) == Err(r.error)
  {
    if txns == [] then Ok([])
    else match BuildRecord(txns[0], salaryCreditDate, parseDate)
      case Err(e) => Err(e)
      case Ok(b) =>
        match BuildRecords(txns[1..], salaryCreditDate, parseDate)
        case Err(e) =>
          assert forall k | 1 <= k < |txns| :: txns[1..][k - 1] == txns[k];
          Err(e)
        case Ok(rest) => Ok([b] + rest)
  }

  /** The stored form of the records: Expense has no `tags` path, so strict mode drops them. */
  function Expenses(rs: seq<BuiltRecord>): (es: seq<Expense>)
    ensures |es| == |rs| && forall i | 0 <= i < |rs| :: es[i] == rs[i].expense
  {
    seq(|rs|, i requires 0 <= i < |rs| => rs[i].expense)
  }

  /** The salary day the records use: the settings', or 1 without settings. */
  function SalaryDay(settings: Option<Settings>): int {
    if settings.Some? then settings.value.salaryCreditDate else 1
  }

  /** `saveBulkExpenses` up to `insertMany`. */
  function SaveBulkCheck(transactions: Option<seq<TxnInput>>, settings: Option<Settings>, parseDate: DateParse)
    : Result<seq<BuiltRecord>, AppError>
  {
    if transactions.None? || transactions.value == [] then Err(HttpError(400, NothingToSave))
    else
      match BuildRecords(transactions.value, SalaryDay(settings), parseDate)
      case Err(e) => Err(e)
      case Ok(rs) =>
        if exists i | 0 <= i < |rs| :: rs[i].expense.amount <= 0.0 then Err(HttpError(400, AmountsMustBePositive))
        else Ok(rs)
  }

  /** The records built: one per transaction, in order, each dated by the budget cycle of
      its day with the settings' salary day, with a positive amount, the category (or
      "Uncategorized") trimmed and the description (or "Bank Transaction") trimmed and cut
      to 200 characters. */
  lemma SaveBulkRecords(transactions: Option<seq<TxnInput>>, settings: Option<Settings>, parseDate: DateParse)
    requires SaveBulkCheck(transactions, settings, parseDate).Ok?
    ensures var rs := SaveBulkCheck(transactions, settings, parseDate).value;
      var txns := transactions.value;
      && |rs| == |txns| > 0
      && forall i | 0 <= i < |txns| ::
        var e := rs[i].expense;
        && txns[i].date.Some? && parseDate(txns[i].date.value) == Some(e.date)
        && MonthCycle(e.month, e.year) == GetCurrentMonthCycle(e.date, SalaryDay(settings))
        && Some(e.amount) == txns[i].amount && e.amount > 0.0
        && e.category == Trim(OrDefault(txns[i].category, Uncategorized))
        && e.description == Prefix(Trim(OrDefault(txns[i].description, DefaultDescription)), 200)
        && |e.description| <= 200
        && rs[i].tags == NormalizeTags(txns[i].tags)
  {
    var rs := SaveBulkCheck(transactions, settings, parseDate).value;
    var txns := transactions.value;
    forall i | 0 <= i < |txns|
      ensures MonthCycle(rs[i].expense.month, rs[i].expense.year) == GetCurrentMonthCycle(rs[i].expense.date, SalaryDay(settings))
      ensures Some(rs[i].expense.amount) == txns[i].amount
    {
      CycleOfAgrees(rs[i].expense.date, SalaryDay(settings));
      assert rs[i].expense.amount > 0.0;
    }
  }

  /** Any transaction with no readable date refuses the whole batch, whatever the others. */
  lemma BadDateRefusesBatch(transactions: seq<TxnInput>, settings: Option<Settings>, parseDate: DateParse, i: nat)
    requires i < |transactions|
    requires transactions[i].date.None? || parseDate(transactions[i].date.value).None?
    ensures SaveBulkCheck(Some(transactions), settings, parseDate).Err?
  {
    assert BuildRecord(transactions[i], SalaryDay(settings), parseDate).Err?;
  }

  /** An unreadable date is refused with the text sent, even an empty one (the template
      string prints "" as nothing), and a missing date prints as "undefined". */
  lemma InvalidDateMessage(txn: TxnInput, salaryCreditDate: int, parseDate: DateParse)
    requires txn.date.None? || parseDate(txn.date.value).None?
    ensures txn.date.Some? ==>
      BuildRecord(txn, salaryCreditDate, parseDate) == Err(HttpError(400, "Invalid date: " + txn.date.value))
    ensures txn.date == Some("") ==>
      BuildRecord(txn, salaryCreditDate, parseDate) == Err(HttpError(400, "Invalid date: "))
    ensures txn.date.None? ==>
      BuildRecord(txn, salaryCreditDate, parseDate) == Err(HttpError(400, "Invalid date: undefined"))
  {
    assert "Invalid date: " + "" == "Invalid date: ";
    assert "Invalid date: " + "undefined" == "Invalid date: undefined";
  }

  /** With every date readable, any amount missing or not positive refuses the whole batch. */
  lemma NonPositiveAmountRefusesBatch(transactions: seq<TxnInput>, settings: Option<Settings>, parseDate: DateParse, i: nat)
    requires i < |transactions|
    requires forall k | 0 <= k < |transactions| ::
      transactions[k].date.Some? && parseDate(transactions[k].date.value).Some?
    requires transactions[i].amount.GetOr(0.0) <= 0.0
    ensures SaveBulkCheck(Some(transactions), settings, parseDate) == Err(HttpError(400, AmountsMustBePositive))
  {
    var r := BuildRecords(transactions, SalaryDay(settings), parseDate);
    if r.Err? {
      var j :| 0 <= j < |transactions| && BuildRecord(transactions[j], SalaryDay(settings), parseDate) == Err(r.error);
      assert false;
    }
    assert r.value[i].expense.amount <= 0.0;
  }

  /** Without settings the salary day is 1, and every record keeps its calendar month. */
  lemma NoSettingsCalendarMonth(transactions: Option<seq<TxnInput>>, parseDate: DateParse)
    requires SaveBulkCheck(transactions, None, parseDate).Ok?
    ensures var rs := SaveBulkCheck(transactions, None, parseDate).value;
      forall i | 0 <= i < |rs| :: MonthCycle(rs[i].expense.month, rs[i].expense.year) == CalendarMonth(rs[i].expense.date)
  {
    SaveBulkRecords(transactions, None, parseDate);
  }

  /** An amount below one cent passes the handler's check but not the schema's minimum:
      the batch is refused by `insertMany` with the schema's message. */
  lemma SubCentPassesHandlerNotSchema(date: string, parseDate: DateParse)
    requires parseDate(date).Some?
    ensures var txns := Some([TxnInput(Some(date), None, Some(0.005), None, None)]);
      && SaveBulkCheck(txns, None, parseDate).Ok?
      && InsertManyOutcome(Expenses(SaveBulkCheck(txns, None, parseDate).value)) == Err(ValidationError([AmountTooSmall]))
  {
    var txn := TxnInput(Some(date), None, Some(0.005), None, None);
    var d := parseDate(date).value;
    DefaultsTrimmed();
    var cycle := CycleOf(d, 1);
    var e := Expense(d, Uncategorized, 0.005, DefaultDescription, cycle.month, cycle.year);
    assert BuildRecord(txn, 1, parseDate) == Ok(BuiltRecord(e, []));
    assert [txn][1..] == [];
    assert BuildRecords([], 1, parseDate) == Ok([]);
    assert [BuiltRecord(e, [])] + [] == [BuiltRecord(e, [])];
    assert BuildRecords([txn], 1, parseDate) == Ok([BuiltRecord(e, [])]);
    assert SaveBulkCheck(Some([txn]), None, parseDate) == Ok([BuiltRecord(e, [])]);
    assert Expenses([BuiltRecord(e, [])]) == [e];
    assert CastExpense(e) == e;
    assert ExpenseErrors(e) == [AmountTooSmall];
    assert InsertManyOutcome([e]) == Err(ValidationError([AmountTooSmall]));
  }

  lemma DefaultsTrimmed()
    ensures Trim(Uncategorized) == Uncategorized && Trim(DefaultDescription) == DefaultDescription
    ensures Prefix(DefaultDescription, 200) == DefaultDescription
  {
    TrimOfTrimmed(Uncategorized);
    TrimOfTrimmed(DefaultDescription);
  }

  /** `saveBulkExpenses`: all the batch is stored, or nothing. The answer is the count. */
  method SaveBulkExpenses(transactions: Option<seq<TxnInput>>, settings: Option<Settings>, parseDate: DateParse,
                          store: ExpenseStore)
    returns (r: Result<nat, AppError>)
    requires store.Valid()
    modifies store
    ensures store.Valid()
    ensures SaveBulkCheck(transactions, settings, parseDate).Err? ==>
      r == Err(SaveBulkCheck(transactions, settings, parseDate).error) && store.docs == old(store.docs)
    ensures SaveBulkCheck(transactions, settings, parseDate).Ok? ==>
      var es := Expenses(SaveBulkCheck(transactions, settings, parseDate).value);
      && (InsertManyOutcome(es).Err? ==> r == Err(InsertManyOutcome(es).error) && store.docs == old(store.docs))
      && (InsertManyOutcome(es).Ok? ==>
        && r == Ok(|transactions.value|)
        && |store.docs| == |old(store.docs)| + |es|
        && store.docs[..|old(store.docs)|] == old(store.docs)
        && forall i | 0 <= i < |es| :: store.docs[|old(store.docs)| + i].expense == InsertManyOutcome(es).value[i])
  {
    var checked := SaveBulkCheck(transactions, settings, parseDate);
    if checked.Err? {
      return Err(checked.error);
    }
    var inserted := store.InsertMany(Expenses(checked.value));
    if inserted.Err? {
      return Err(inserted.error);
    }
    r := Ok(|inserted.value|);
  }
}
