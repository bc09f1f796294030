/** `parsePDF`: best-effort extraction of transactions from the text of an SBI statement,
    one line at a time, with the three regular expressions of the parser written out as
    scanners that follow the backtracking order of the ECMAScript matcher. */
module PdfParser {

  import opened Wrappers
  import opened Text
  import opened Calendar
  import opened Normalizers
  import opened SbiDateFacts
  import opened Transactions

  /** The lines that are not blank, in order, keeping their surrounding white space. */
  function NonBlank(parts: seq<string>): (r: seq<string>)
    ensures |r| <= |parts|
  {
    if parts == [] then []
    else
      var rest := NonBlank(parts[1..]);
      if Trim(parts[0]) != "" then [parts[0]] + rest else rest
  }

  /** The kept lines are exactly the lines that are not blank. */
  lemma {:induction false} NonBlankKeeps(parts: seq<string>)
    ensures forall l | l in NonBlank(parts) :: l in parts && Trim(l) != ""
    ensures forall l | l in parts && Trim(l) != "" :: l in NonBlank(parts)
  {
    if parts != [] {
      NonBlankKeeps(parts[1..]);
      assert forall l | l in parts[1..] :: l in parts;
      assert forall l | l in parts :: l == parts[0] || l in parts[1..];
    }
  }

  /** `text.split('\n').filter((l) => l.trim())`. */
  function Lines(text: string): seq<string> {
    NonBlank(SplitOn(text, '\n'))
  }

  /** `\d{1,2}[/\-]` at offset `p` of `s`, greedy: two digits are tried before one. 0 when
      neither fits. */
  function FieldLen(s: string, p: nat): (d: nat)
    ensures d <= 2
    ensures d > 0 ==> p + d < |s| && IsDateSeparator(s[p + d]) && IsDigit(s[p])
    ensures d == 2 ==> IsDigit(s[p + 1])
  {
    if p + 2 < |s| && IsDigit(s[p]) && IsDigit(s[p + 1]) && IsDateSeparator(s[p + 2]) then 2
    else if p + 1 < |s| && IsDigit(s[p]) && IsDateSeparator(s[p + 1]) then 1
    else 0
  }

  /** `\d{4}` at offset `y` of `s`. */
  predicate FourDigitsAt(s: string, y: nat) {
    y + 4 <= |s| && IsDigit(s[y]) && IsDigit(s[y + 1]) && IsDigit(s[y + 2]) && IsDigit(s[y + 3])
  }

  /** The length of the match of `\d{1,2}[/\-]\d{1,2}[/\-]\d{4}` that starts at offset `p`,
      if any. */
  function DateMatchLen(s: string, p: nat): (r: Option<nat>)
    ensures r.Some? ==> p + r.value <= |s|
  {
    var d := FieldLen(s, p);
    if d == 0 then None
    else
      var m := FieldLen(s, p + d + 1);
      if m == 0 then None
      else if FourDigitsAt(s, p + d + m + 2) then Some(d + m + 6)
      else None
  }

  /** `line.match(datePattern)`: the leftmost start from `from` on and the match length. */
  function SearchDate(s: string, from: nat): (m: Option<(nat, nat)>)
    ensures m.Some? ==>
      && from <= m.value.0
      && DateMatchLen(s, m.value.0) == Some(m.value.1)
      && m.value.0 + m.value.1 <= |s|
    decreases |s| - from
  {
    if from >= |s| then None
    else match DateMatchLen(s, from)
      case Some(len) => Some((from, len))
      case None => SearchDate(s, from + 1)
  }

  /** The search finds the leftmost match, and no match at all when it finds none. */
  lemma {:induction false} SearchDateLeftmost(s: string, from: nat)
    ensures var m := SearchDate(s, from);
      && (m.Some? ==> forall q | from <= q < m.value.0 :: DateMatchLen(s, q).None?)
      && (m.None? ==> forall q | from <= q :: DateMatchLen(s, q).None?)
    decreases |s| - from
  {
    if from < |s| && DateMatchLen(s, from).None? {
      SearchDateLeftmost(s, from + 1);
    }
  }

  /** The text of a date match has the numeric shape, with no white space around it. */
  lemma DateMatchText(s: string, p: nat, len: nat) returns (i: int, j: int)
    requires DateMatchLen(s, p) == Some(len)
    ensures p + len <= |s|
    ensures NumericShapeAt(s[p..p + len], i, j)
    ensures IsTrimmed(s[p..p + len])
  {
    var d := FieldLen(s, p);
    var m := FieldLen(s, p + d + 1);
    i, j := d, d + 1 + m;
    var t := s[p..p + len];
    forall x | 0 <= x < len ensures t[x] == s[p + x] {
    }
    ShapeFromChars(t, i, j);
  }

  /** Digits around two separators, at the places the numeric shape puts them, make that
      shape, and a string that starts and ends with a digit is trimmed. */
  lemma ShapeFromChars(t: string, i: int, j: int)
    requires 1 <= i <= 2 && i + 2 <= j <= i + 3 && j + 5 == |t|
    requires IsDateSeparator(t[i]) && IsDateSeparator(t[j])
    requires forall k | 0 <= k < |t| && k != i && k != j :: IsDigit(t[k])
    ensures NumericShapeAt(t, i, j)
    ensures IsTrimmed(t)
  {
    SliceAllDigits(t, 0, i);
    assert t[0..i] == t[..i];
    SliceAllDigits(t, i + 1, j);
    SliceAllDigits(t, j + 1, |t|);
    assert t[j + 1..|t|] == t[j + 1..];
    assert IsDigit(t[0]) && IsDigit(t[|t| - 1]);
  }

  /** The date a match denotes is always readable: its text has the numeric shape. */
  lemma DateMatchParses(s: string, p: nat, len: nat, parseNamed: DateParse)
    requires DateMatchLen(s, p) == Some(len)
    ensures p + len <= |s|
    ensures ParseSBIDate(Some(s[p..p + len]), parseNamed).Some?
  {
    var i, j := DateMatchText(s, p, len);
    TrimmedNumericParses(s[p..p + len], parseNamed, i, j);
  }

  /** `line.indexOf(dateMatch[0])` finds the match itself. */
  lemma IndexOfDateMatch(s: string, p: nat, len: nat)
    requires SearchDate(s, 0) == Some((p, len))
    ensures p + len <= |s|
    ensures IndexOf(s, s[p..p + len]) == p
  {
    SearchDateLeftmost(s, 0);
    LeftmostIndexOf(s, p, len);
  }

  /** The text of the leftmost match is first found where it was matched: an earlier copy of
      it would have been an earlier match. */
  lemma LeftmostIndexOf(s: string, p: nat, len: nat)
    requires DateMatchLen(s, p) == Some(len)
    requires forall q | 0 <= q < p :: DateMatchLen(s, q).None?
    ensures p + len <= |s|
    ensures IndexOf(s, s[p..p + len]) == p
  {
    NoEarlierCopy(s, p, p + len);
    FirstOccurrence(s, p, p + len);
  }

  /** The text `s[p..e]` of the leftmost match occurs nowhere before it. */
  lemma NoEarlierCopy(s: string, p: nat, e: nat)
    requires p <= e && DateMatchLen(s, p) == Some(e - p)
    requires forall q | 0 <= q < p :: DateMatchLen(s, q).None?
    ensures e <= |s|
    ensures forall i | 0 <= i < p :: !OccursAt(s, s[p..e], i)
  {
    var t := s[p..e];
    forall i | 0 <= i < p ensures !OccursAt(s, t, i) {
      if OccursAt(s, t, i) {
        EarlierCopyMatches(s, p, e - p, i);
      }
    }
  }

  /** Another occurrence of a match's text is a match of the same length. */
  lemma EarlierCopyMatches(s: string, p: nat, len: nat, i: nat)
    requires DateMatchLen(s, p) == Some(len)
    requires OccursAt(s, s[p..p + len], i)
    ensures DateMatchLen(s, i) == Some(len)
  {
    var t := s[p..p + len];
    forall k | i <= k < i + len ensures s[k] == t[k - i] {
      assert s[k] == s[i..i + len][k - i];
    }
    forall x | 0 <= x < len ensures t[x] == s[p + x] {
    }
  }

  // The amount pattern /(\d{1,3}(?:,\d{2,3})*(?:\.\d{1,2})?)/g. Every part after the first
  // digit is optional, so the greedy first attempt always succeeds and no backtracking is
  // needed: the match ends where the greedy scanners below stop.

  predicate IsAmountChar(c: char) {
    IsDigit(c) || c == ',' || c == '.'
  }

  /** `\d{1,3}` from a digit at `p`. */
  function LeadEnd(s: string, p: nat): (e: nat)
    requires p <= |s|
    ensures p <= e <= |s| && e <= p + 3
  {
    var e := ScanDigits(s, p);
    if e > p + 3 then p + 3 else e
  }

  /** `(?:,\d{2,3})*`, each group taking three digits when it can. */
  function GroupsEnd(s: string, e: nat): (r: nat)
    requires e <= |s|
    ensures e <= r <= |s|
    decreases |s| - e
  {
    if e + 2 < |s| && s[e] == ',' && IsDigit(s[e + 1]) && IsDigit(s[e + 2]) then
      GroupsEnd(s, if e + 3 < |s| && IsDigit(s[e + 3]) then e + 4 else e + 3)
    else e
  }

  /** `(?:\.\d{1,2})?`. */
  function FractionEnd(s: string, e: nat): (r: nat)
    requires e <= |s|
    ensures e <= r <= |s|
  {
    if e + 1 < |s| && s[e] == '.' && IsDigit(s[e + 1]) then
      if e + 2 < |s| && IsDigit(s[e + 2]) then e + 3 else e + 2
    else e
  }

  /** The end of the amount match that starts at the digit at `p`. */
  function AmountEnd(s: string, p: nat): (e: nat)
    requires p < |s| && IsDigit(s[p])
    ensures p < e <= |s|
  {
    FractionEnd(s, GroupsEnd(s, LeadEnd(s, p)))
  }

  lemma {:induction false} GroupsEndChars(s: string, e: nat)
    requires e <= |s|
    ensures forall k | e <= k < GroupsEnd(s, e) :: IsAmountChar(s[k])
    decreases |s| - e
  {
    if e + 2 < |s| && s[e] == ',' && IsDigit(s[e + 1]) && IsDigit(s[e + 2]) {
      GroupsEndChars(s, if e + 3 < |s| && IsDigit(s[e + 3]) then e + 4 else e + 3);
    }
  }

  /** An amount match covers only digits, commas and points. */
  lemma AmountEndChars(s: string, p: nat)
    requires p < |s| && IsDigit(s[p])
    ensures forall k | p <= k < AmountEnd(s, p) :: IsAmountChar(s[k])
  {
    ScanDigitsRun(s, p);
    GroupsEndChars(s, LeadEnd(s, p));
  }

  /** The first digit from `from` on, or `|s|`. */
  function NextDigit(s: string, from: nat): (p: nat)
    requires from <= |s|
    ensures from <= p <= |s|
    ensures p < |s| ==> IsDigit(s[p])
    decreases |s| - from
  {
    if from == |s| || IsDigit(s[from]) then from else NextDigit(s, from + 1)
  }

  /** Starting the search anywhere up to the digit it finds finds the same digit. */
  lemma {:induction false} NextDigitFrom(s: string, from: nat, q: nat)
    requires from <= |s|
    requires from <= q <= NextDigit(s, from)
    ensures NextDigit(s, q) == NextDigit(s, from)
    decreases q - from
  {
    if from < q {
      NextDigitFrom(s, from + 1, q);
    }
  }

  /** The search for a digit passes over no digit. */
  lemma {:induction false} NextDigitSkips(s: string, from: nat)
    requires from <= |s|
    ensures forall k | from <= k < NextDigit(s, from) :: !IsDigit(s[k])
    decreases |s| - from
  {
    if from < |s| && !IsDigit(s[from]) {
      NextDigitSkips(s, from + 1);
    }
  }

  /** `amountPattern.exec(line)` with `lastIndex == from`: the start and end of the next match. */
  function ExecAmount(s: string, from: nat): (m: Option<(nat, nat)>)
    requires from <= |s|
    ensures m.Some? ==> from <= m.value.0 < m.value.1 <= |s|
  {
    var p := NextDigit(s, from);
    if p == |s| then None else Some((p, AmountEnd(s, p)))
  }

  /** The positive values of the amount matches from `from` on, in order. */
  function AmountsFrom(s: string, from: nat): (vs: seq<real>)
    requires from <= |s|
    decreases |s| - from
  {
    match ExecAmount(s, from)
    case None => []
    case Some((p, e)) =>
      var v := ParseAmount(Some(s[p..e]));
      (if v > 0.0 then [v] else []) + AmountsFrom(s, e)
  }

  /** Only positive amounts are kept. */
  lemma {:induction false} AmountsPositive(s: string, from: nat)
    requires from <= |s|
    ensures forall v | v in AmountsFrom(s, from) :: v > 0.0
    decreases |s| - from
  {
    match ExecAmount(s, from)
    case None =>
    case Some((p, e)) =>
      AmountsPositive(s, e);
  }

  /** `Math.max(...amounts)`. */
  function MaxOf(vs: seq<real>): real
    requires vs != []
  {
    if |vs| == 1 then vs[0]
    else
      var rest := MaxOf(vs[1..]);
      if vs[0] >= rest then vs[0] else rest
  }

  // The description pattern /^\s*(.+?)\s+[\d,]+/ on the text after the date. The engine
  // tries the longest run of leading white space first and gives it back one character at a
  // time; for each, the lazy group grows one character at a time. `.` matches anything but
  // a line terminator. After the group, `\s+` takes the whole white-space run (giving it
  // back cannot help, as white space is never a digit or a comma) and `[\d,]+` needs one
  // digit or comma.

  /** The group can end at `e`: white space follows, and after it a digit or a comma. */
  predicate GroupCanEnd(u: string, e: nat) {
    e < |u| && IsSpace(u[e])
    && var f := ScanSpaces(u, e); f < |u| && (IsDigit(u[f]) || u[f] == ',')
  }

  /** The lazy group that starts at `w`, tried with ends `e`, `e + 1`, ... */
  function LazyEnd(u: string, w: nat, e: nat): (r: Option<nat>)
    requires w < e <= |u|
    ensures r.Some? ==> e <= r.value < |u| && GroupCanEnd(u, r.value)
    decreases |u| - e
  {
    if IsLineTerminator(u[e - 1]) then None
    else if GroupCanEnd(u, e) then Some(e)
    else if e < |u| then
      var r := LazyEnd(u, w, e + 1);
      if r.Some? then Some(r.value) else None
    else None
  }

  /** The group with leading white space `u[..w]`, `u[..w - 1]`, ... down to none. */
  function DescGroup(u: string, w: nat): (g: Option<(nat, nat)>)
    requires w <= |u|
    ensures g.Some? ==> g.value.0 < g.value.1 <= |u|
    decreases w
  {
    var r := if w < |u| then LazyEnd(u, w, w + 1) else None;
    if r.Some? then Some((w, r.value))
    else if w == 0 then None
    else DescGroup(u, w - 1)
  }

  /** The lazy group never runs over a line terminator. */
  lemma {:induction false} LazyEndStaysOnLine(u: string, w: nat, e: nat)
    requires w < e <= |u|
    requires forall k | w <= k < e - 1 :: !IsLineTerminator(u[k])
    ensures var r := LazyEnd(u, w, e);
      r.Some? ==> forall k | w <= k < r.value :: !IsLineTerminator(u[k])
    decreases |u| - e
  {
    if !IsLineTerminator(u[e - 1]) && !GroupCanEnd(u, e) && e < |u| {
      LazyEndStaysOnLine(u, w, e + 1);
    }
  }

  /** The description group lies within one line of text. */
  lemma {:induction false} DescGroupOneLine(u: string, w: nat)
    requires w <= |u|
    ensures var g := DescGroup(u, w);
      g.Some? ==> forall k | g.value.0 <= k < g.value.1 :: !IsLineTerminator(u[k])
    decreases w
  {
    if w < |u| {
      LazyEndStaysOnLine(u, w, w + 1);
    }
    if w > 0 {
      DescGroupOneLine(u, w - 1);
    }
  }

  /** `descMatch ? descMatch[1].trim() : 'Bank Transaction'`. */
  function DescriptionOf(afterDate: string): string {
    match DescGroup(afterDate, ScanSpaces(afterDate, 0))
    case Some((w, e)) => Trim(afterDate[w..e])
    case None => DefaultDescription
  }

  /** `description.substring(0, 200) || 'Bank Transaction'`. */
  function StoredDescription(d: string): string {
    var cut := if |d| <= 200 then d else d[..200];
    if cut == "" then DefaultDescription else cut
  }

  /** The stored description has 1 to 200 characters: the first 200 of a non-empty
      description, the default text otherwise. */
  lemma StoredDescriptionCut(d: string)
    ensures var r := StoredDescription(d);
      && 0 < |r| <= 200
      && (0 < |d| ==> r == d[..if |d| < 200 then |d| else 200])
      && (d == "" ==> r == DefaultDescription)
  {
  }

  /** Where the amount scan starts. As written, the scan covers the whole line, the date
      included; the corrected parser starts it after the date. */
  datatype ScanStart = WholeLine | AfterDate

  function ScanFrom(start: ScanStart, p: nat, len: nat): nat {
    if start == WholeLine then 0 else p + len
  }

  /** `vs` holds `a`, and nothing larger. */
  predicate IsLargest(a: real, vs: seq<real>) {
    a in vs && forall v | v in vs :: v <= a
  }

  /** `Math.max` gives the largest of the values. */
  lemma {:induction false} MaxOfIsLargest(vs: seq<real>)
    requires vs != []
    ensures IsLargest(MaxOf(vs), vs)
  {
    if |vs| > 1 {
      MaxOfIsLargest(vs[1..]);
      assert forall v | v in vs :: v == vs[0] || v in vs[1..];
    }
  }

  /** The transaction of a dated line, from the text after the date and the amounts found;
      none when no amount was found. */
  function Assemble(date: CalendarDate, afterDate: string, amounts: seq<real>): Option<Transaction> {
    if amounts == [] then None
    else
      Some(Transaction(
        date,
        StoredDescription(DescriptionOf(afterDate)),
        MaxOf(amounts),
        Debit,
        "",
        []))
  }

  /** The line once its leftmost date match is known. */
  function DatedLine(line: string, parseNamed: DateParse, p: nat, len: nat, start: ScanStart)
    : Option<Transaction>
    requires p + len <= |line|
  {
    match ParseSBIDate(Some(line[p..p + len]), parseNamed)
    case None => None
    case Some(date) => Assemble(date, line[p + len..], AmountsFrom(line, ScanFrom(start, p, len)))
  }

  /** One line of the statement: the leftmost date, the positive amounts the scan finds (the
      line is dropped when there are none), the largest of them, and the text between the
      date and the first run of digits and commas as description. */
  function PdfLineWith(line: string, parseNamed: DateParse, start: ScanStart): Option<Transaction> {
    match SearchDate(line, 0)
    case None => None
    case Some((p, len)) => DatedLine(line, parseNamed, p, len, start)
  }

  /** The line as the source parses it. */
  function PdfLineAsWritten(line: string, parseNamed: DateParse): Option<Transaction> {
    PdfLineWith(line, parseNamed, WholeLine)
  }

  /** The line with the amount scan starting after the date. */
  function PdfLine(line: string, parseNamed: DateParse): Option<Transaction> {
    PdfLineWith(line, parseNamed, AfterDate)
  }

  /** What each line gives, in order, with the amount scan starting at `start`. */
  function LineResults(lines: seq<string>, parseNamed: DateParse, start: ScanStart): (r: seq<Option<Transaction>>)
    ensures |r| == |lines|
  {
    if lines == [] then []
    else LineResults(lines[..|lines| - 1], parseNamed, start) + [PdfLineWith(lines[|lines| - 1], parseNamed, start)]
  }

  /** Entry `j` is what line `j` gives. */
  lemma {:induction false} LineResultsAt(lines: seq<string>, parseNamed: DateParse, start: ScanStart, j: int)
    requires 0 <= j < |lines|
    ensures LineResults(lines, parseNamed, start)[j] == PdfLineWith(lines[j], parseNamed, start)
  {
    if j < |lines| - 1 {
      var init := lines[..|lines| - 1];
      LineResultsAt(init, parseNamed, start, j);
      assert init[j] == lines[j];
    }
  }

  /** The transactions of the given lines, in order. */
  function PdfLines(lines: seq<string>, parseNamed: DateParse, start: ScanStart): seq<Transaction> {
    Somes(LineResults(lines, parseNamed, start))
  }

  /** `parsePDF` on the extracted text, as written: every amount scan covers the whole line. */
  function PdfSpec(text: string, parseNamed: DateParse): seq<Transaction> {
    PdfLines(Lines(text), parseNamed, WholeLine)
  }

  /** `parsePDF` with the corrected amount scan, starting after the date. */
  function PdfSpecCorrected(text: string, parseNamed: DateParse): seq<Transaction> {
    PdfLines(Lines(text), parseNamed, AfterDate)
  }

  /** One `exec` step of the amount scan. */
  lemma AmountsStep(s: string, from: nat)
    requires from <= |s|
    ensures ExecAmount(s, from).None? ==> AmountsFrom(s, from) == []
    ensures ExecAmount(s, from).Some? ==>
      var (p, e) := ExecAmount(s, from).value;
      var v := ParseAmount(Some(s[p..e]));
      AmountsFrom(s, from) == (if v > 0.0 then [v] else []) + AmountsFrom(s, e)
  {
  }

  /** One `exec` step, seen from the values already collected. */
  lemma AmountsAccumulate(s: string, from: nat, acc: seq<real>)
    requires from <= |s| && ExecAmount(s, from).Some?
    ensures var (p, e) := ExecAmount(s, from).value;
      var v := ParseAmount(Some(s[p..e]));
      acc + AmountsFrom(s, from) == (if v > 0.0 then acc + [v] else acc) + AmountsFrom(s, e)
  {
    AmountsStep(s, from);
    var (p, e) := ExecAmount(s, from).value;
    KeepPositive(acc, ParseAmount(Some(s[p..e])), AmountsFrom(s, e));
  }

  lemma KeepPositive(acc: seq<real>, v: real, rest: seq<real>)
    ensures acc + ((if v > 0.0 then [v] else []) + rest) == (if v > 0.0 then acc + [v] else acc) + rest
  {
    if v > 0.0 {
      assert acc + ([v] + rest) == (acc + [v]) + rest;
    } else {
      assert [] + rest == rest;
    }
  }

  /** The amount loop: `exec` until no match is left, keeping the positive values. */
  method ScanAmounts(line: string, from: nat) returns (amounts: seq<real>)
    requires from <= |line|
    ensures amounts == AmountsFrom(line, from)
  {
    amounts := [];
    var lastIndex := from;
    var m := ExecAmount(line, lastIndex);
    while m.Some?
      invariant lastIndex <= |line|
      invariant m == ExecAmount(line, lastIndex)
      invariant AmountsFrom(line, from) == amounts + AmountsFrom(line, lastIndex)
      decreases |line| - lastIndex
    {
      AmountsAccumulate(line, lastIndex, amounts);
      var (p, e) := m.value;
      var val := ParseAmount(Some(line[p..e]));
      if val > 0.0 {
        amounts := amounts + [val];
      }
      lastIndex := e;
      m := ExecAmount(line, lastIndex);
    }
    AmountsStep(line, lastIndex);
    assert amounts + [] == amounts;
  }

  /** The body of the line loop. */
  method ParsePdfLine(line: string, parseNamed: DateParse) returns (t: Option<Transaction>)
    ensures t == PdfLineAsWritten(line, parseNamed)
  {
    var dateMatch := SearchDate(line, 0);
    if dateMatch.None? {
      return None;
    }
    var (p, len) := dateMatch.value;
    var matched := line[p..p + len];
    var date := ParseSBIDate(Some(matched), parseNamed);
    if date.None? {
      return None;
    }
    var amounts := ScanAmounts(line, 0);
    if amounts == [] {
      return None;
    }
    IndexOfDateMatch(line, p, len);
    var afterDate := line[IndexOf(line, matched) + len..];
    var description := DescriptionOf(afterDate);
    var amount := MaxOf(amounts);
    t := Some(Transaction(date.value, StoredDescription(description), amount, Debit, "", []));
  }

  /** `parsePDF`: every non-blank line, in order. */
  method ParsePDF(text: string, parseNamed: DateParse) returns (transactions: seq<Transaction>)
    ensures transactions == PdfSpec(text, parseNamed)
  {
    var lines := Lines(text);
    transactions := ParseLines(lines, parseNamed);
  }

  /** The line loop of `parsePDF`. */
  method ParseLines(lines: seq<string>, parseNamed: DateParse) returns (transactions: seq<Transaction>)
    ensures transactions == PdfLines(lines, parseNamed, WholeLine)
  {
    ghost var results := LineResults(lines, parseNamed, WholeLine);
    transactions := [];
    for i := 0 to |lines|
      invariant transactions == Somes(results[..i])
    {
      SomesSnoc(results, i);
      var t := ParsePdfLine(lines[i], parseNamed);
      LineResultsAt(lines, parseNamed, WholeLine, i);
      if t.Some? {
        transactions := transactions + [t.value];
      }
    }
    assert results[..|lines|] == results;
  }

  /** An assembled transaction is a debit of the largest amount found, with a description
      of 1 to 200 characters, and no category or tags yet; it exists exactly when some amount
      was found. */
  lemma AssembleMeaning(date: CalendarDate, afterDate: string, amounts: seq<real>)
    requires forall v | v in amounts :: v > 0.0
    ensures Assemble(date, afterDate, amounts).Some? <==> amounts != []
    ensures Assemble(date, afterDate, amounts).Some? ==>
      var t := Assemble(date, afterDate, amounts).value;
      && t.date == date
      && IsLargest(t.amount, amounts)
      && t.amount > 0.0
      && t.kind == Debit
      && 0 < |t.description| <= 200
      && t.category == ""
      && t.tags == []
  {
    if amounts != [] {
      MaxOfIsLargest(amounts);
      StoredDescriptionCut(DescriptionOf(afterDate));
    }
  }

  /** What a dated line gives: the date its match reads as, and the largest positive amount
      the scan finds. */
  lemma DatedLineMeaning(line: string, parseNamed: DateParse, p: nat, len: nat, start: ScanStart)
    requires p + len <= |line|
    requires DatedLine(line, parseNamed, p, len, start).Some?
    ensures var t := DatedLine(line, parseNamed, p, len, start).value;
      && Some(t.date) == ParseSBIDate(Some(line[p..p + len]), parseNamed)
      && IsLargest(t.amount, AmountsFrom(line, ScanFrom(start, p, len)))
      && t.amount > 0.0
      && t.kind == Debit
      && 0 < |t.description| <= 200
      && t.category == ""
      && t.tags == []
  {
    var date := ParseSBIDate(Some(line[p..p + len]), parseNamed).value;
    AmountsPositive(line, ScanFrom(start, p, len));
    AssembleMeaning(date, line[p + len..], AmountsFrom(line, ScanFrom(start, p, len)));
  }

  /** A line with a date match gives what the dated line of its first match gives; a line
      without one gives nothing. */
  lemma PdfLineDated(line: string, parseNamed: DateParse, start: ScanStart)
    ensures SearchDate(line, 0).None? ==> PdfLineWith(line, parseNamed, start).None?
    ensures SearchDate(line, 0).Some? ==>
      var m := SearchDate(line, 0).value;
      m.0 + m.1 <= |line| && PdfLineWith(line, parseNamed, start) == DatedLine(line, parseNamed, m.0, m.1, start)
  {
  }

  /** As written, a line whose first date match is at `p` is dropped exactly when the scan of
      the whole line finds no positive amount: the date found is always readable. */
  lemma PdfLineDropped(line: string, parseNamed: DateParse, p: nat, len: nat)
    requires SearchDate(line, 0) == Some((p, len))
    ensures PdfLineAsWritten(line, parseNamed).None? <==> AmountsFrom(line, 0) == []
  {
    PdfLineDated(line, parseNamed, WholeLine);
    DateMatchParses(line, p, len, parseNamed);
  }

  /** With the corrected scan, a dated line is dropped exactly when no positive amount follows
      the date. */
  lemma CorrectedLineDropped(line: string, parseNamed: DateParse, p: nat, len: nat)
    requires SearchDate(line, 0) == Some((p, len))
    ensures PdfLine(line, parseNamed).None? <==> AmountsFrom(line, p + len) == []
  {
    PdfLineDated(line, parseNamed, AfterDate);
    DateMatchParses(line, p, len, parseNamed);
  }

  /** Every transaction of a statement is a positive debit with a 1 to 200 character
      description, and there is at most one per non-blank line, wherever the scan starts. */
  lemma PdfLinesMeaning(lines: seq<string>, parseNamed: DateParse, start: ScanStart)
    ensures var ts := PdfLines(lines, parseNamed, start);
      && |ts| <= |lines|
      && forall t | t in ts :: t.amount > 0.0 && t.kind == Debit && 0 < |t.description| <= 200
  {
    var results := LineResults(lines, parseNamed, start);
    SomesFrom(results);
    forall t: Transaction | t in Somes(results)
      ensures t.amount > 0.0 && t.kind == Debit && 0 < |t.description| <= 200
    {
      var j :| 0 <= j < |results| && results[j] == Some(t);
      LineResultsAt(lines, parseNamed, start, j);
      PdfLineDated(lines[j], parseNamed, start);
      var m := SearchDate(lines[j], 0).value;
      DatedLineMeaning(lines[j], parseNamed, m.0, m.1, start);
    }
  }

  /** An amount match never runs over a character that cannot appear in an amount, so a scan
      that starts before such a character stops at or before it, and the matches after it are
      all still found. */
  lemma {:induction false} ScanReaches(s: string, from: nat, q: nat)
    requires from <= q <= |s|
    requires q == from || !IsAmountChar(s[q - 1])
    ensures forall v | v in AmountsFrom(s, q) :: v in AmountsFrom(s, from)
    decreases q - from
  {
    if from < q {
      NextDigitSkips(s, from);
      var p := NextDigit(s, from);
      if p < q - 1 {
        var e := AmountEnd(s, p);
        AmountEndChars(s, p);
        assert e <= q - 1;
        ScanReaches(s, e, q);
        var v := ParseAmount(Some(s[p..e]));
        assert AmountsFrom(s, from) == (if v > 0.0 then [v] else []) + AmountsFrom(s, e);
      } else {
        NextDigitFrom(s, from, q);
        assert ExecAmount(s, from) == ExecAmount(s, q);
      }
    }
  }

  /** The last four characters of a date match are the year's digits, after a separator. */
  lemma YearDigits(s: string, p: nat, len: nat)
    requires DateMatchLen(s, p) == Some(len)
    ensures 5 <= len && p + len <= |s|
    ensures IsDateSeparator(s[p + len - 5])
    ensures forall k | p + len - 4 <= k < p + len :: IsDigit(s[k])
  {
    var d := FieldLen(s, p);
    var m := FieldLen(s, p + d + 1);
    assert len == d + m + 6;
  }

  /** A scan that reaches the year of a date match takes its first three digits as one
      amount: the separator before the year stops any earlier match, and the fourth digit
      is past the `\d{1,3}` limit. */
  lemma YearMatch(line: string, p: nat, len: nat) returns (y: nat)
    requires DateMatchLen(line, p) == Some(len)
    ensures 5 <= len && y == p + len - 4 && y + 4 <= |line|
    ensures !IsAmountChar(line[y - 1])
    ensures AllDigits(line[y..y + 3])
    ensures ExecAmount(line, y) == Some((y, y + 3))
  {
    YearDigits(line, p, len);
    y := p + len - 4;
    SliceAllDigits(line, y, y + 3);
    ScanDigitsAtLeast(line, y, y + 4);
    assert LeadEnd(line, y) == y + 3;
    assert GroupsEnd(line, y + 3) == y + 3;
    assert FractionEnd(line, y + 3) == y + 3;
  }

  /** The whole-line scan finds the number three digits at `y` spell, when it is not zero
      and they are matched as one amount after a character no amount can hold. */
  lemma YearCounted(line: string, y: nat)
    requires 0 < y && y + 3 <= |line| && !IsAmountChar(line[y - 1])
    requires AllDigits(line[y..y + 3]) && ExecAmount(line, y) == Some((y, y + 3))
    ensures var v := DigitsValue(line[y..y + 3]) as real;
      v > 0.0 ==> v in AmountsFrom(line, 0)
  {
    ParseAmountDigits(line[y..y + 3]);
    AmountsStep(line, y);
    ScanReaches(line, 0, y);
  }

  /** As written, the scan reads the first three digits of the date's year as an amount, so
      the amount recorded is never below that number. */
  lemma AsWrittenCountsYearDigits(line: string, parseNamed: DateParse, p: nat, len: nat)
    requires SearchDate(line, 0) == Some((p, len))
    requires PdfLineAsWritten(line, parseNamed).Some?
    ensures 5 <= len && p + len <= |line|
    ensures AllDigits(line[p + len - 4..p + len - 1])
    ensures PdfLineAsWritten(line, parseNamed).value.amount
      >= DigitsValue(line[p + len - 4..p + len - 1]) as real
  {
    YearInScan(line, p, len);
    assert PdfLineAsWritten(line, parseNamed) == DatedLine(line, parseNamed, p, len, WholeLine);
    DatedLineMeaning(line, parseNamed, p, len, WholeLine);
  }

  /** The whole-line scan finds the number the first three digits of a date match's year
      spell, when it is not zero. */
  lemma YearInScan(line: string, p: nat, len: nat)
    requires DateMatchLen(line, p) == Some(len)
    ensures 5 <= len && p + len <= |line|
    ensures AllDigits(line[p + len - 4..p + len - 1])
    ensures var v := DigitsValue(line[p + len - 4..p + len - 1]) as real;
      v > 0.0 ==> v in AmountsFrom(line, 0)
  {
    var y := YearMatch(line, p, len);
    YearCounted(line, y);
  }

  lemma {:induction false} ScanDigitsAtLeast(s: string, i: nat, j: nat)
    requires i <= j <= |s|
    requires forall k | i <= k < j :: IsDigit(s[k])
    ensures ScanDigits(s, i) >= j
    decreases j - i
  {
    if i < j {
      ScanDigitsAtLeast(s, i + 1, j);
    }
  }

  /** Every line dated 2020 to 2029 is recorded at 202 or more as written, whatever amounts it
      shows: "01/01/2025 Tea 45" is recorded at 202, not 45. */
  lemma AsWrittenTwentyTwenties(line: string, parseNamed: DateParse, p: nat, len: nat)
    requires SearchDate(line, 0) == Some((p, len))
    requires PdfLineAsWritten(line, parseNamed).Some?
    requires line[p + len - 4..p + len - 1] == "202"
    ensures PdfLineAsWritten(line, parseNamed).value.amount >= 202.0
  {
    AsWrittenCountsYearDigits(line, parseNamed, p, len);
    TwoOhTwo();
  }

  /** As written, a dated line is never dropped unless its year starts with "000": the year's
      digits are an amount of their own, so "01/01/2025 Opening balance" is recorded too. */
  lemma AsWrittenYearKeepsLine(line: string, parseNamed: DateParse, p: nat, len: nat)
    requires SearchDate(line, 0) == Some((p, len))
    ensures 5 <= len && p + len <= |line|
    ensures AllDigits(line[p + len - 4..p + len - 1])
    ensures DigitsValue(line[p + len - 4..p + len - 1]) > 0 ==>
      && PdfLineAsWritten(line, parseNamed).Some?
      && PdfLineAsWritten(line, parseNamed).value.amount >= DigitsValue(line[p + len - 4..p + len - 1]) as real
  {
    YearInScan(line, p, len);
    PdfLineDropped(line, parseNamed, p, len);
    if DigitsValue(line[p + len - 4..p + len - 1]) > 0 {
      AsWrittenCountsYearDigits(line, parseNamed, p, len);
    }
  }

  lemma TwoOhTwo()
    ensures DigitsValue("202") == 202
  {
    assert "202"[..2][..1] == "2";
    assert "202"[..2] == "20";
  }

  /** With the scan starting after the date, the amount recorded is the largest amount printed
      after the date. */
  lemma CorrectedAmountAfterDate(line: string, parseNamed: DateParse, p: nat, len: nat)
    requires SearchDate(line, 0) == Some((p, len))
    requires PdfLine(line, parseNamed).Some?
    ensures IsLargest(PdfLine(line, parseNamed).value.amount, AmountsFrom(line, p + len))
  {
    assert PdfLine(line, parseNamed) == DatedLine(line, parseNamed, p, len, AfterDate);
    DatedLineMeaning(line, parseNamed, p, len, AfterDate);
  }
}
