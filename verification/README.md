# Bank-statement import and budget core of api-finance-management

This Dafny project models the logic behind the budget API's expense import and reporting.

- **Statement parsers.** The SBI bank-statement parsers turn CSV rows or PDF text into transactions. This covers the amount and date normalisers, the header-column resolver and the keyword categorizer.
- **Budget cycle.** A day before the salary credit day still counts in the previous month's budget.
- **Import endpoints.** The upload filter, `parseStatement`, and the all-or-nothing bulk save `saveBulkExpenses`.
- **Expense endpoints.** Listing, adding, updating and deleting expenses.
- **Settings endpoints.** Reading the settings document, and replacing it after validation.
- **Report endpoints.** The current-cycle report, the monthly summary (computed once, then served from the store) and the history.
- **Schema constraints.** The rules on expenses, settings and monthly summaries, written as validity predicates with the validators' messages.
- **Error middleware.** Each thrown error becomes an HTTP status and a message.

How the source's pieces are represented:

- **Values.** Amounts are exact `real`s. Dates are calendar days `(year, month, day)`.
- **Stores.** The database collections are classes whose fields are sequences: `ExpenseStore`, `SettingsStore` and `SummaryStore`.
- **Clock and date text.** The clock is a `today` parameter. `new Date(string)` is an uninterpreted `DateParse` parameter that may answer "Invalid Date" (`None`).
- **Loops.** Where the source loops and mutates (the header search, the column scan, the row and line loops, the amount scan, the spent map, the field-by-field update, the bulk insert), the model is a method with loop invariants. Each such method is proved equal to a specification function, and the properties are proved about that function.

Modules: `Text`, `Wrappers`, `Calendar`, `DateHelpers`, `Errors`, `ErrorHandler`, `Transactions`, `Normalizers`, `SbiDateFacts`, `Categorizer`, `ColumnResolver`, `CsvParser`, `PdfParser`, `Models`, `Ordering`, `ExpenseController`, `SettingsController`, `ReportController`, `ImportController`.

Where the code and its documentation differ, the model follows the code:

- A date string of the numeric shape is never rejected. `31/02/2025` rolls over to 3 March.
- Parser errors carry no status code, so the error middleware answers them with 500, not 400.
- A negative debit cell is imported as a credit of that negative amount.
- The PDF amount scan covers the whole line, date included, so the year's digits are read as an amount (see Findings). `ParsePDF` and the import handler follow the code as written. The corrected scan, which starts after the date, is `PdfParser.PdfSpecCorrected`.

## Model

| member | source | states |
|---|---|---|
| Text.ToLower | utils/importParser.js:95 | `toLowerCase` keeps the length and maps each character on its own |
| Text.TrimSlice | utils/importParser.js:60 | `trim` returns the string with a run of white space cut from each end, and only white space is cut |
| Text.TrimAllSpace | controllers/expenseController.js:45 | a string trims to "" exactly when every character is white space, which is what `!x.trim()` tests |
| Text.TrimIdempotent | controllers/expenseController.js:77 | trimming twice is trimming once |
| Text.TrimLowerCommute | controllers/settingsController.js:50 | trimming and lower-casing commute |
| Text.ContainsAt | utils/importParser.js:100 | `includes` holds exactly when the needle occurs at some position |
| Text.IndexOfFromIsFirst | utils/importParser.js:228 | `indexOf` returns the first occurrence, and -1 exactly when there is none |
| Text.SplitOnParts | controllers/importController.js:13 | no part of `split(c)` contains `c` |
| Text.SplitJoin | controllers/importController.js:13 | joining the parts of `split(c)` with `c` gives the string back |
| Calendar.DaysInMonth | utils/importParser.js:66 | months have 28 to 31 days, and February has 29 exactly in leap years |
| Calendar.YearLength | utils/importParser.js:66 | a year has 366 days exactly when it is a leap year |
| Calendar.OrdinalInjective | utils/importParser.js:66 | distinct calendar dates have distinct day numbers |
| Calendar.NormalizeDayNumber | utils/importParser.js:66 | rolling an out-of-range day into its real month keeps the day number |
| Calendar.MakeDateOrdinal | utils/importParser.js:66 | `new Date(y, m - 1, d)` is `d - 1` days after the first of the month the index names, with the year moved by out-of-range month indices |
| Calendar.MakeDateInRange | utils/importParser.js:66 | in-range fields build exactly that date |
| Calendar.MakeDateDayZero | utils/importParser.js:66 | day 0 is the last day of the previous month |
| DateHelpers.GetCurrentMonthCycle | utils/dateHelpers.js:16-33 | the month is in 1..12. On or after the salary day it is the calendar month; before it, exactly one month earlier |
| DateHelpers.MonthCountInjective | utils/dateHelpers.js:19-29 | two budget months with the same month count are the same month |
| DateHelpers.JanuaryWraps | utils/dateHelpers.js:25-29 | a January day before the salary day belongs to December of the year before |
| DateHelpers.AtMostOneMonthBehind | utils/dateHelpers.js:19-28 | the cycle is the calendar month or the month before, never further back |
| DateHelpers.FirstOfMonthSalary | utils/dateHelpers.js:22 | with salary on the 1st, the cycle is always the calendar month |
| DateHelpers.SalaryOnThirdExamples | utils/dateHelpers.js:8-11 | with salary on the 3rd: Feb 1 is January, Feb 3 and Feb 15 are February |
| ErrorHandler.HandleError | middleware/errorHandler.js:1-44 | the body's `status` always equals the HTTP status |
| ErrorHandler.HandleErrorByClass | middleware/errorHandler.js:3-42 | ValidationError gives 400 with the field messages joined by ", ". CastError gives 400 "Invalid ID format". Code 11000 gives 409. Otherwise the status is `statusCode` or 500, and the message is `message` or "Internal Server Error" |
| ErrorHandler.ValidationBeforeDuplicate | middleware/errorHandler.js:3-31 | a validation error also carrying code 11000 is still a 400 |
| ErrorHandler.CastBeforeDuplicate | middleware/errorHandler.js:14-31 | a cast error also carrying code 11000 is still a 400 |
| ErrorHandler.HttpErrorPassesThrough | middleware/errorHandler.js:34-42 | a controller's own error is answered with its status and message |
| ErrorHandler.PlainErrorIsInternal | middleware/errorHandler.js:34 | an error thrown without a status code, as the parsers throw them, is a 500 |
| ErrorHandler.TwoValidationMessages | middleware/errorHandler.js:4-7 | two field messages are joined with a comma and a space |
| Normalizers.ScanDigitsRun | utils/importParser.js:63 | the digit scan behind `\d{1,2}` and `\d{4}` steps over digits only, and stops at a non-digit or the end |
| Normalizers.ParseFloat | utils/importParser.js:86 | on the separator-free text `parseAmount` passes it (no white space left to skip), `parseFloat` reads a number exactly when the text opens with an optional sign and then a digit, or a point and a digit; otherwise NaN |
| Normalizers.ParseAmount | utils/importParser.js:83-88 | a falsy input, or one that does not open with a number once commas and white space are removed, reads as 0 and never NaN |
| Normalizers.ParseAmountDigits | utils/importParser.js:83-88 | a plain run of digits reads as its decimal value |
| Normalizers.ParseFloatDigits | utils/importParser.js:86 | `parseFloat` on a run of digits is its decimal value |
| Normalizers.ParseFloatDecimal | utils/importParser.js:86 | `int.frac` reads as its exact decimal value |
| Normalizers.StripSeparatorsAppend | utils/importParser.js:85 | removing separators distributes over concatenation |
| Normalizers.StripSeparatorsNoop | utils/importParser.js:85 | text without commas or white space is unchanged |
| Normalizers.SeparatorIgnored | utils/importParser.js:85-87 | a comma or white-space character anywhere in the amount changes nothing |
| Normalizers.IndianGroupingExample | utils/importParser.js:81 | "1,23,456.78" reads as 123456.78 |
| Normalizers.NonNumericExample | utils/importParser.js:87 | "abc" reads as 0 |
| Normalizers.NumericDatePartsMeans | utils/importParser.js:63 | the scans find day, month and year exactly when the text matches `^\d{1,2}[/\-]\d{1,2}[/\-]\d{4}$`, and they are the matched groups |
| Normalizers.IsNamedShapeMeans | utils/importParser.js:71 | the month-name scan accepts exactly the texts matching `^\d{1,2}\s+[A-Za-z]{3}\s+\d{4}$` |
| Normalizers.ParseSBIDate | utils/importParser.js:58-59 | an absent or empty input gives no date |
| SbiDateFacts.NumericShapeDate | utils/importParser.js:63-67 | trimmed text of the numeric shape always gives the date `Date(year, month - 1, day)` builds, with rollover and never null |
| SbiDateFacts.ParseNonEmpty | utils/importParser.js:60 | non-empty input is trimmed before the shape tests |
| SbiDateFacts.TrimmedNumericParses | utils/importParser.js:63-67 | trimmed text of the numeric shape always reads as a date |
| SbiDateFacts.NamedShapeDelegates | utils/importParser.js:71-75 | month-name text that is not numeric is handed to `new Date(string)` |
| SbiDateFacts.NeitherShapeIsNull | utils/importParser.js:77 | text of neither shape gives null |
| SbiDateFacts.TwoTwoFour | utils/importParser.js:63-67 | a `dd?mm?yyyy` string gives `Date(yyyy, mm - 1, dd)` |
| SbiDateFacts.SeparatorsInterchangeable | utils/importParser.js:63 | slash and hyphen are interchangeable, even mixed in one date |
| SbiDateFacts.FebruaryThirtyFirstRollsOver | utils/importParser.js:66-67 | 31/02/2025 is accepted and rolls over to 3 March 2025 |
| Categorizer.FirstKeyword | utils/importParser.js:99-100 | finds the first `KEYWORD_MAP` entry in table order whose keyword occurs in the description, and -1 exactly when none does |
| Categorizer.FindNameIgnoringCase | utils/importParser.js:102-104 | finds the first user name equal to the label ignoring case, and -1 exactly when none is |
| Categorizer.PreferUserName | utils/importParser.js:102-107 | the result equals the label ignoring case and is the label or one of the user's names |
| Categorizer.AutoCategorize | utils/importParser.js:94-112 | no keyword gives "Uncategorized". Otherwise the first matching entry's label decides, in the user's spelling when they have one |
| Categorizer.UncategorizedIffNoKeyword | utils/importParser.js:99-111 | the result is "Uncategorized" exactly when no keyword occurs in the lower-cased description |
| Categorizer.LabelIsNotUncategorized | utils/importParser.js:5-53 | no label of the table reads "Uncategorized" in any case |
| Categorizer.FoundCategoryMatchesLabel | utils/importParser.js:102-107 | a found category equals its label ignoring case, and is the label or a user name |
| Categorizer.NoDescriptionIsUncategorized | utils/importParser.js:95 | a missing description is "Uncategorized" |
| Categorizer.ZomatoExample | utils/importParser.js:94-108 | "ZOMATO ORDER #123" with a user category "Food" gives "Food" |
| ColumnResolver.Keys | utils/importParser.js:120 | every header is compared lower-cased and trimmed, in order |
| ColumnResolver.FirstFillingIsFirst | utils/importParser.js:122-130 | the first column whose header fills a role is found, and -1 exactly when none fills it |
| ColumnResolver.ResolveIsFirst | utils/importParser.js:118-133 | each role's column is the smallest whose compared header contains one of the role's words, or -1 when there is none; one column may fill several roles |
| ColumnResolver.FirstFillingSnoc | utils/importParser.js:123-129 | one more header changes a role's column only when the role had none |
| ColumnResolver.ResolveKeysStep | utils/importParser.js:122-130 | one loop step sets exactly the roles still at -1 that the header fills |
| ColumnResolver.FindColumnIndices | utils/importParser.js:118-133 | the loop's indices are the resolved columns |
| ColumnResolver.ResolveLoop | utils/importParser.js:122-130 | the column loop computes the first-match columns |
| CsvParser.HeaderIndex | utils/importParser.js:151-158 | the header row is below 10 and within the data |
| CsvParser.HeaderIndexIsFirst | utils/importParser.js:151-158 | the header is the first of rows 0..9 with a cell containing "date", and row 0 when there is none |
| CsvParser.FindHeaderRow | utils/importParser.js:151-158 | the search loop finds that header row |
| CsvParser.ParseRow | utils/importParser.js:172-190 | one row's outcome is the specified skip, emission or crash |
| CsvParser.ParseRows | utils/importParser.js:171-191 | the row loop gives the emitted transactions in order, and the first crash ends the parse |
| CsvParser.ParseCSV | utils/importParser.js:138-194 | the parse is the specified outcome: the reader-error check, the too-few-rows check, the header search, the column checks, then the rows after the header |
| CsvParser.CsvRowMeaning | utils/importParser.js:172-190 | a row is skipped exactly when its date does not read, or both amounts are 0. It crashes exactly when the description column is past a short row. An emitted row has the date read, the debit amount unless it is 0 (else the credit), type debit iff the debit is positive, the trimmed description cell or "Bank Transaction" when that cell is blank or there is no description column, and no category or tags |
| CsvParser.NegativeDebitIsCredit | utils/importParser.js:186-187 | a negative debit is emitted as a credit of that negative amount |
| CsvParser.CsvRowsAppend | utils/importParser.js:171-191 | rows keep statement order: parsing two blocks concatenates their results |
| CsvParser.CsvRowsWellFormed | utils/importParser.js:171-191 | every returned transaction is well formed, with at most one per row |
| CsvParser.CsvSpecOk | utils/importParser.js:142-167 | a successful parse had at least 2 rows, a date column and a debit or credit column, and returns only well-formed transactions from below the header |
| CsvParser.ReaderErrorsIgnoredWithRows | utils/importParser.js:142 | reader errors matter only when no row was read |
| PdfParser.NonBlankKeeps | utils/importParser.js:201 | the kept lines are exactly the lines that are not blank |
| PdfParser.SearchDateLeftmost | utils/importParser.js:205-211 | the date match is the leftmost one, and none is found only when there is none |
| PdfParser.DateMatchParses | utils/importParser.js:213-214 | the text of a date match always reads as a date |
| PdfParser.LeftmostIndexOf | utils/importParser.js:228 | `line.indexOf(dateMatch[0])` finds the match itself |
| PdfParser.AmountEndChars | utils/importParser.js:207 | an amount match covers only digits, commas and points |
| PdfParser.AmountsPositive | utils/importParser.js:219-222 | only positive amounts are kept |
| PdfParser.DescGroupOneLine | utils/importParser.js:229 | the lazy description group never crosses a line terminator |
| PdfParser.StoredDescriptionCut | utils/importParser.js:228-237 | the stored description is the first 200 characters of the found one, or "Bank Transaction"; always 1 to 200 characters |
| PdfParser.MaxOfIsLargest | utils/importParser.js:233 | `Math.max` is an element that nothing exceeds |
| PdfParser.ScanAmounts | utils/importParser.js:217-223 | the `exec` loop collects exactly the positive amount matches, in order |
| PdfParser.ParsePdfLine | utils/importParser.js:210-242 | one line's outcome, with the amount scan run over the whole line from index 0, is the line's transaction as written, or nothing |
| PdfParser.ParseLines | utils/importParser.js:209-243 | the line loop gives the transactions of the lines in order, each line parsed as written (whole-line amount scan) |
| PdfParser.ParsePDF | utils/importParser.js:199-246 | the parse is the line-by-line result over the non-blank lines, each parsed as written |
| PdfParser.AssembleMeaning | utils/importParser.js:225-242 | a dated line gives a transaction exactly when an amount was found. It is a debit of the largest amount, positive, with a 1 to 200 character description |
| PdfParser.DatedLineMeaning | utils/importParser.js:213-242 | the transaction has the matched date and the largest positive amount of the scan |
| PdfParser.PdfLineDropped | utils/importParser.js:211-225 | as written, a dated line is dropped exactly when the scan of the whole line finds no positive amount (the date found always reads) |
| PdfParser.AsWrittenYearKeepsLine | utils/importParser.js:207-225 | as written, a dated line is never dropped unless its year starts with 000, and it is recorded at no less than the year's first three digits, even with no amount printed |
| PdfParser.CorrectedLineDropped | utils/importParser.js:211-225 | corrected half of the finding: with the scan starting after the date, a dated line is dropped exactly when no positive amount follows the date |
| PdfParser.PdfLinesMeaning | utils/importParser.js:209-243 | for the as-written scan and the corrected one alike, every transaction is a positive debit with a 1 to 200 character description, with at most one per line |
| PdfParser.AsWrittenTwentyTwenties | utils/importParser.js:207-222 | as written, a line dated in the 2020s is recorded at 202 or more, whatever amounts it shows |
| PdfParser.CorrectedAmountAfterDate | utils/importParser.js:207-233 | with the scan starting after the date, the amount is the largest printed after the date |
| Models.CastExpense | models/Expense.js:8-22 | the `trim` setters leave category and description trimmed and keep the other fields |
| Models.ExpenseErrorsIffInvalid | models/Expense.js:3-34 | the validators pass exactly when the category is non-empty, the amount is at least 0.01, the description is 1 to 200 characters and the month is in 1..12 |
| Models.SubCentAmountRefused | models/Expense.js:16 | any amount below 0.01 is refused with "Amount must be greater than 0" |
| Models.DeductionsErrorsIffInvalid | models/Settings.js:15-34 | the deduction validators pass exactly when each has a name, an amount of at least 1 and a day in 1..31 |
| Models.CategoriesErrorsIffInvalid | models/Settings.js:35-53 | the category validators pass exactly when each has a name, a limit of at least 1 and type "fixed" or "variable" |
| Models.SettingsErrorsIffInvalid | models/Settings.js:3-54 | the settings validators pass exactly when salary is at least 1, the credit day is in 1..31, and every deduction and category is valid |
| Ordering.SortBySorted | controllers/expenseController.js:17 | the store's sort returns the same elements, ordered |
| ExpenseController.Find | controllers/expenseController.js:93 | `findById` finds the document with that id, or reports that none has it |
| ExpenseController.OfMonthMembers | controllers/expenseController.js:14-17 | the query returns exactly the stored expenses of that month and year |
| ExpenseController.DateOrderIsTotal | controllers/expenseController.js:17 | "date descending" is a total preorder |
| ExpenseController.ExpenseStore.GetExpenses | controllers/expenseController.js:4-23 | 400 exactly when month or year is missing. Otherwise the month's expenses, sorted by date descending and a permutation of the matching documents |
| ExpenseController.AddCheckFirstFailure | controllers/expenseController.js:31-81 | the checks run in order (date present, date valid, category, amount, description present, description length) and the first failure answers. A passing request builds the trimmed category and description, the amount, and the date's calendar month and year |
| ExpenseController.AddOnlyCentMinimumLeft | controllers/expenseController.js:52-82 | after the handler's checks, the only schema rule left to fail is the 0.01 minimum |
| ExpenseController.ExpenseStore.AddExpense | controllers/expenseController.js:26-88 | a passing request appends one document with a fresh id; a refused one changes nothing. Duplicates are allowed because the indexes are not unique |
| ExpenseController.ExpenseStore.Store | controllers/expenseController.js:75-82 | `create` appends a document under the next id |
| ExpenseController.UpdateKeepsUnsupplied | controllers/expenseController.js:104-139 | unsupplied fields stay as they were. A new date recomputes month and year together. An empty category is ignored. The amount is positive and the description 1 to 200 characters when supplied |
| ExpenseController.UpdateRefusedWhen | controllers/expenseController.js:104-137 | the update is refused exactly for an unreadable date, an amount of 0 or less, or a blank or over-200 description |
| ExpenseController.Amend | controllers/expenseController.js:101-139 | the field-by-field mutation gives the specified updated expense or error |
| ExpenseController.ExpenseStore.UpdateExpense | controllers/expenseController.js:91-146 | an invalid id is a CastError and an unknown id a 404. Otherwise the update outcome: on success only that document is replaced; on failure nothing changes |
| ExpenseController.ExpenseStore.DeleteExpense | controllers/expenseController.js:149-164 | an unknown id is a 404. Otherwise exactly that document is removed and the rest keep their order |
| ExpenseController.RemoveAt | controllers/expenseController.js:159 | removing one document keeps ids distinct and removes exactly the documents with that id |
| ExpenseController.InsertManyOutcome | controllers/importController.js:149 | `insertMany` casts and validates every record: all pass and are stored cast, or the first failure's error answers |
| ExpenseController.ExpenseStore.StoreAll | controllers/importController.js:149 | the batch is appended in order under consecutive ids |
| ExpenseController.ExpenseStore.InsertMany | controllers/importController.js:149 | all records are stored, or none when any fails validation |
| SettingsController.DefaultViewNotStorable | controllers/settingsController.js:8-15 | the default view (salary 0, day 1, no deductions, no categories) is not itself valid settings |
| SettingsController.SettingsStore.GetSettings | controllers/settingsController.js:4-21 | the stored document, or the default view when there is none |
| SettingsController.CastCategory | models/Settings.js:35-53 | a cast category has a trimmed name, its limit, and type "variable" by default |
| SettingsController.CastDeduction | models/Settings.js:15-34 | a cast deduction has a trimmed name and keeps amount and day |
| SettingsController.UpdateFirstFailure | controllers/settingsController.js:29-56 | the salary, credit-day and category checks run in that order and the first failure answers. Past them, the only refusals are an unnamed category, duplicate names or the schema's validation error |
| SettingsController.CastKeepsKey | controllers/settingsController.js:50 | lower-casing a cast name gives the key the handler compared |
| SettingsController.CastNamesDistinct | controllers/settingsController.js:50-56 | categories whose keys differ keep names that differ ignoring case |
| SettingsController.UpdateSavesWellFormed | controllers/settingsController.js:24-63 | what is saved is valid and trimmed, has distinct names ignoring case, and keeps the body's salary, credit day and category count |
| SettingsController.PaddedDuplicateRefused | controllers/settingsController.js:50-56 | a name repeated lower-cased with padding around it is refused as a duplicate |
| SettingsController.SettingsStore.UpdateSettings | controllers/settingsController.js:24-69 | the document becomes the cast body on success and is unchanged on any refusal; the store stays valid |
| ReportController.AddToSpent | controllers/reportController.js:29-32 | adding an expense to the groups adds its amount to its own category only |
| ReportController.AggregateSpent | controllers/reportController.js:29-32 | the aggregation's sum for a name is the sum of that month's expenses of that category |
| ReportController.SpentMapAgrees | controllers/reportController.js:35-38 | the spent map gives each group's sum, and 0 for a name without a group |
| ReportController.BuildSpentMap | controllers/reportController.js:35-38 | the `forEach` loop builds that spent map |
| ReportController.ReportedSpent | controllers/reportController.js:29-42 | a category's `spent` is the sum of exactly that name's expenses in the month, or 0 |
| ReportController.RoundHalfUp | controllers/reportController.js:45 | `Math.round` lands within one half of its argument |
| ReportController.PercentUsedNearest | controllers/reportController.js:44-46 | percentUsed is the rounded `spent * 100 / limit` for a positive limit, else 0 |
| ReportController.PercentUsedExamples | controllers/reportController.js:44-46 | 2500 of 5000 is 50, 1 of 8 is 13 (half rounds up), 7000 of 5000 is 140 |
| ReportController.Lines | controllers/reportController.js:41-56 | one line per configured category, in settings order |
| ReportController.CurrentReportMeaning | controllers/reportController.js:18-82 | the cycle is the budget month of today. It states the deduction total, distributable amount, per-category spent, remaining and percent, total spent (deductions plus configured categories only), total budgeted and savings |
| ReportController.GetCurrentReport | controllers/reportController.js:7-86 | 404 without settings, else the current report |
| ReportController.Breakdown | controllers/reportController.js:132-136 | one breakdown line per configured category, in settings order |
| ReportController.SumsAgree | controllers/reportController.js:132-138 | the breakdown's spent total equals the report lines' spent total |
| ReportController.SummaryMatchesCurrentReport | controllers/reportController.js:117-140 | the summary of the current cycle has the current report's totals and per-category figures |
| ReportController.SummaryOfValid | controllers/reportController.js:132-153 | from valid settings and a month in 1..12, the computed summary meets the schema and carries each category's name and limit |
| ReportController.FindSummary | controllers/reportController.js:103 | finds the stored summary of that month and year, or reports that there is none |
| ReportController.FindAfterStore | controllers/reportController.js:143-153 | once stored, a month's summary is what the next lookup finds |
| ReportController.HistoryOrderIsTotal | controllers/reportController.js:164-165 | "year descending, then month descending" is a total preorder |
| ReportController.SummaryStore.GetMonthlyReport | controllers/reportController.js:89-159 | 400 without month or year. A stored summary is returned unchanged. Otherwise 404 without settings, or the summary is computed and stored. Keys stay unique, and the answer is what a later lookup finds |
| ReportController.SummaryStore.GetReportHistory | controllers/reportController.js:162-171 | every summary, in year-then-month descending order |
| ImportController.ExtensionMeaning | controllers/importController.js:13 | the extension is what follows the last '.' of the lower-cased name, or the whole name without a '.' |
| ImportController.ExtensionAfterLastDot | controllers/importController.js:13 | a name ending in "." plus a dot-free `ext` has extension `ext` |
| ImportController.FileFilterMeaning | controllers/importController.js:10-19 | a file passes exactly when its mimetype is listed or its extension is csv or pdf; a refusal is answered as a 500 |
| ImportController.AllowedMimetypeButUnsupported | controllers/importController.js:10-47 | a `.txt` file sent as text/csv passes the filter, and parseStatement then refuses it with 400 |
| ImportController.CategoryNames | controllers/importController.js:56-58 | the names of the user's categories, in order, and none without settings |
| ImportController.Categorize | controllers/importController.js:61-64 | only `category` changes, to the categorizer's choice; count and order are kept |
| ImportController.KindsPartition | controllers/importController.js:66-69 | the debit and credit counts add up to the total |
| ImportController.SummaryIgnoresCategory | controllers/importController.js:66-76 | counts and sums depend only on kinds and amounts |
| ImportController.ParseStatementMeaning | controllers/importController.js:28-82 | 400 for no file, an extension other than csv or pdf, or an empty parse. Otherwise the parsed transactions (the PDF ones as `parsePDF` is written), each with only its category changed, to what `autoCategorize` picks from its description and the settings' names; the category names, and a summary with total = debits + credits |
| ImportController.ParseStatement | controllers/importController.js:28-86 | the handler gives the specified outcome over the parser methods, `ParseCSV` and the as-written `ParsePDF` |
| ImportController.CycleOfAgrees | controllers/importController.js:112-122 | the inline month computation agrees with `getCurrentMonthCycle` on every date and salary day |
| ImportController.NormalizedTagShape | controllers/importController.js:126 | a normalised tag is trimmed and lower-case |
| ImportController.NonEmptyMembers | controllers/importController.js:126 | `filter(Boolean)` keeps exactly the non-empty tags |
| ImportController.DedupMeaning | controllers/importController.js:126 | `[...new Set(ts)]` holds the same values, each once |
| ImportController.DedupPrefix | controllers/importController.js:126 | deduplication keeps the order of first occurrences |
| ImportController.NormalizeTagsMeaning | controllers/importController.js:125-127 | at most 10 tags, distinct, trimmed, lower-case and non-empty, each the normal form of a given tag. With fewer than 10, every non-empty normal form is kept. Not an array gives none |
| ImportController.Prefix | controllers/importController.js:134 | `substring(0, n)` is a prefix of at most `n` characters, and the whole string when it is short enough |
| ImportController.BuildRecords | controllers/importController.js:106-139 | one record per transaction in order, or the error of the first transaction whose date does not read |
| ImportController.InvalidDateMessage | controllers/importController.js:107-110 | an unreadable date is refused with 400 and the date's text as sent: "Invalid date: " for an empty one, "Invalid date: undefined" for a missing one |
| ImportController.SaveBulkRecords | controllers/importController.js:104-147 | every saved record has the transaction's date, the budget month of that date under the salary day, a positive amount, the defaulted and trimmed category, the defaulted, trimmed and cut description of at most 200 characters, and the normalised tags |
| ImportController.BadDateRefusesBatch | controllers/importController.js:107-110 | any unreadable date refuses the whole batch |
| ImportController.NonPositiveAmountRefusesBatch | controllers/importController.js:133-147 | with all dates readable, any missing or non-positive amount refuses the batch with 400 |
| ImportController.NoSettingsCalendarMonth | controllers/importController.js:103-104 | without settings the salary day is 1, so every record keeps its calendar month |
| ImportController.SubCentPassesHandlerNotSchema | controllers/importController.js:142-149 | an amount of 0.005 passes the handler's check, and `insertMany` refuses it with the schema's message |
| ImportController.SaveBulkExpenses | controllers/importController.js:92-154 | a refused batch stores nothing. An accepted batch appends every record in order and answers with the count |

## Left out

- Floating point: amounts are exact reals. IEEE-754 rounding in `parseFloat`, `Number`, sums and `Math.round` is not modelled, and neither are NaN or Infinity beyond "not a number".
- Query strings: `month` and `year` arrive as numbers. A value that `Number` cannot read (NaN) is not modelled.
- Text.ToLower: maps ASCII letters only, because full Unicode case mapping is not modelled.
- Text.IsSpace: covers the ECMAScript white-space and line-terminator characters listed in it. Other Unicode space separators are not modelled.
- Time of day and time zones: `toISOString`, UTC and local-time differences are not modelled. Dates are calendar days.
- Calendar.MakeDate: the `Date` constructor's mapping of years 0..99 to 1900..1999 is not modelled.
- `new Date(string)` (the month-name date shape, and the dates of `addExpense`, `updateExpense` and `saveBulkExpenses`) is implementation-defined. It is the `DateParse` parameter.
- CSV tokenising (Papaparse) and PDF text extraction (pdf-parse) are external libraries. Their outputs (rows and error messages, or the text or an extraction error) are inputs.
- Multer's memory storage and 5 MB size limit are not modelled. Only the file filter is.
- Authentication, routes, the server and the migration script are not part of this model.
- The settings lookup by user id in the import controller is a parameter: the settings, or none.
- Store internals: the database engines, `aggregate`'s group order, and the order of equal dates under `sort` are not modelled. Sorting is modelled by an insertion sort that keeps store order among ties, whereas the database leaves their order open.
- Models.MonthOutOfRange: the built-in message of the month range validator is a placeholder, not the library's exact text.
- The MonthlySummary defaults (0 for the totals and for `spent`) are not modelled, because `getMonthlyReport` always supplies those fields.
- A month outside 1..12 in the monthly-report query is not range-checked, by the handler or by the upsert (its validators check the updated paths, and the month comes from the filter). The model stores such a summary as given. `ReportController.SummaryOfValid` states validity for months in range only.
- ReportController.SpentLookup: a category named like an inherited object property (e.g. "constructor") is not modelled. It reads 0 here.
- SettingsController.UpdateOutcome: `categories` is taken to be an array, or absent. Any other value is not modelled. A body without `fixedDeductions` is not modelled; the input always carries a list. A category's `monthlyLimit` and a deduction's `amount` and `deductionDate` are always present, so the schema's "Monthly limit is required", "Deduction amount is required" and "Deduction date is required" refusals cannot arise here.
- SettingsController.UpdateOutcome: the salary credit day is an integer. A fractional day such as 15.5, which the handler's range check and the schema's min and max both accept, is not modelled.
- ImportController.TxnInput: tags are taken as strings. `String(t)` on other values is not modelled.
- ImportController.TxnInput: a date is a string or absent. A JSON `null` date, which `new Date(null)` reads as 1 January 1970 and the source accepts, is not modelled; absent gives "Invalid date: undefined".
- The stored expenses have no `tags` path, so strict mode drops the normalised tags on insert. `BuiltRecord` keeps them apart from the stored `Expense`.
- ExpenseController.ExpenseStore: ids are natural numbers. An id that is not an ObjectId is modelled as `None`, giving a CastError.
- ImportController.SaveBulkExpenses: answers with the count only. The message text `<n> expenses imported successfully` is not modelled.
- Timestamps (`createdAt`, `updatedAt`) are not modelled.
- ErrorHandler.HandleError: the `console.error` log line written for every error is output only, and is not modelled.
- ExpenseController.AddCheck: lengths are counted in characters (Unicode scalar values), whereas JavaScript's `length` counts UTF-16 code units. A description of more than 100 characters outside the Basic Multilingual Plane can be refused by the source's 200 limit but not here.
- ExpenseController.ApplyUpdate: the 200 limit on the description is counted in characters, not UTF-16 code units, as in `AddCheck`.
- Models.ValidExpense: the schema's `maxlength` of 200 is counted in characters, not UTF-16 code units.
- ImportController.Prefix: `substring(0, 200)` is cut after 200 characters, not 200 UTF-16 code units, so it never splits a surrogate pair as the source can.
- PdfParser.StoredDescription: the cut to 200 is in characters, not UTF-16 code units, as in `Prefix`.
- ExpenseController.AddCheck: `amount` is a number or absent. A non-numeric string passes the handler's `!amount || amount <= 0` test and then fails the schema's cast as a ValidationError; that path is not modelled.

## Findings

| source | as written | input that shows it | evidently intended | confidence | as-written member | corrected member |
|---|---|---|---|---|---|---|
| utils/importParser.js:207-222 | the global amount pattern is executed over the whole line, so the date's own digits are read as amounts, and the first three digits of a 2020s year give 202 | the line `01/01/2025 Tea 45` is recorded at 202 instead of 45 | the amounts are those printed after the date (the transaction columns), and the largest of them is recorded | not executed | PdfParser.AsWrittenTwentyTwenties | PdfParser.CorrectedAmountAfterDate |
