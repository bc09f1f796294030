/** The amount and date normalisers of the statement importer
    (`parseAmount` and `parseSBIDate`). */
module Normalizers {

  import opened Wrappers
  import opened Text
  import opened Calendar

  /** The end of the run of digits that starts at `i`. */
  function ScanDigits(s: string, i: nat): (j: nat)
    requires i <= |s|
    ensures i <= j <= |s|
    ensures j == |s| || !IsDigit(s[j])
    decreases |s| - i
  {
    if i < |s| && IsDigit(s[i]) then ScanDigits(s, i + 1) else i
  }

  /** Everything the digit scan steps over is a digit. */
  lemma {:induction false} ScanDigitsRun(s: string, i: nat)
    requires i <= |s|
    ensures forall k | i <= k < ScanDigits(s, i) :: IsDigit(s[k])
    decreases |s| - i
  {
    if i < |s| && IsDigit(s[i]) {
      ScanDigitsRun(s, i + 1);
    }
  }

  /** The end of the run of white space that starts at `i`. */
  function ScanSpaces(s: string, i: nat): (j: nat)
    requires i <= |s|
    ensures i <= j <= |s|
    ensures j == |s| || !IsSpace(s[j])
    decreases |s| - i
  {
    if i < |s| && IsSpace(s[i]) then ScanSpaces(s, i + 1) else i
  }

  /** Everything the white-space scan steps over is white space. */
  lemma {:induction false} ScanSpacesRun(s: string, i: nat)
    requires i <= |s|
    ensures forall k | i <= k < ScanSpaces(s, i) :: IsSpace(s[k])
    decreases |s| - i
  {
    if i < |s| && IsSpace(s[i]) {
      ScanSpacesRun(s, i + 1);
    }
  }

  predicate AllDigits(s: string) {
    forall i | 0 <= i < |s| :: IsDigit(s[i])
  }

  /** `x` times 10 to the power `e`, one decimal place at a time. */
  function Shift(x: real, e: int): real
    decreases if e >= 0 then e else -e
  {
    if e == 0 then x
    else if e > 0 then Shift(x, e - 1) * 10.0
    else Shift(x, e + 1) / 10.0
  }

  /** Shifting right by `n` places divides by 10 to the power `n`. */
  lemma {:induction false} ShiftRight(x: real, n: nat)
    ensures Shift(x, -(n as int)) == x / Pow10(n) as real
  {
    if n > 0 {
      ShiftRight(x, n - 1);
      assert Pow10(n) as real == Pow10(n - 1) as real * 10.0;
    }
  }

  /** The exponent part `e[+-]digits` that starts at `p`, if one does. */
  function ExponentAt(s: string, p: nat): Option<int>
    requires p <= |s|
  {
    if p < |s| && (s[p] == 'e' || s[p] == 'E') then
      var q := if p + 1 < |s| && (s[p + 1] == '+' || s[p + 1] == '-') then p + 2 else p + 1;
      if q <= |s| then
        var e := ScanDigits(s, q);
        if e > q then
          var v: int := DigitsIn(s, q, e);
          Some(if s[p + 1] == '-' then -v else v)
        else None
      else None
    else None
  }

  /** The length of the optional sign that opens `s`. */
  function SignLen(s: string): nat {
    if |s| > 0 && (s[0] == '+' || s[0] == '-') then 1 else 0
  }

  /** Whether `t` opens with what `parseFloat` reads as a number: an optional sign, then a
      digit, or a point followed by a digit. */
  predicate StartsNumeric(t: string) {
    var k := SignLen(t);
    (k < |t| && IsDigit(t[k])) || (k + 1 < |t| && t[k] == '.' && IsDigit(t[k + 1]))
  }

  /** `parseFloat` on the separator-free text `parseAmount` passes it: the longest prefix of
      the form sign, digits, point, digits, exponent; `None` stands for NaN. Leading white
      space, which `parseFloat` skips, cannot occur here. */
  function ParseFloat(s: string): (r: Option<real>)
    ensures r.Some? <==> StartsNumeric(s)
  {
    var signLen := SignLen(s);
    var intEnd := ScanDigits(s, signLen);
    var hasDot := intEnd < |s| && s[intEnd] == '.';
    var fracStart := if hasDot then intEnd + 1 else intEnd;
    var fracEnd := ScanDigits(s, fracStart);
    if intEnd == signLen && fracEnd == fracStart then None
    else
      var fraction := Shift(DigitsIn(s, fracStart, fracEnd) as real, -(fracEnd - fracStart));
      var magnitude := Shift(DigitsIn(s, signLen, intEnd) as real + fraction,
        ExponentAt(s, fracEnd).GetOr(0));
      Some(if signLen == 1 && s[0] == '-' then -magnitude else magnitude)
  }

  predicate IsAmountSeparator(c: char) {
    c == ',' || IsSpace(c)
  }

  /** `String(str).replace(/[,\s]/g, '')`. */
  function StripSeparators(s: string): (r: string)
    ensures |r| <= |s|
  {
    if s == [] then []
    else if IsAmountSeparator(s[0]) then StripSeparators(s[1..])
    else [s[0]] + StripSeparators(s[1..])
  }

  lemma {:induction false} StripSeparatorsAppend(a: string, b: string)
    ensures StripSeparators(a + b) == StripSeparators(a) + StripSeparators(b)
  {
    if a == [] {
      assert a + b == b;
    } else {
      assert (a + b)[0] == a[0];
      assert (a + b)[1..] == a[1..] + b;
      StripSeparatorsAppend(a[1..], b);
    }
  }

  lemma {:induction false} StripSeparatorsNoop(s: string)
    requires forall i | 0 <= i < |s| :: !IsAmountSeparator(s[i])
    ensures StripSeparators(s) == s
  {
    if s != [] {
      StripSeparatorsNoop(s[1..]);
    }
  }

  /** `parseAmount`: a falsy input, or one that does not open with a number once commas and
      white space are gone, reads as 0; any other reads as the number `parseFloat` finds. */
  function ParseAmount(str: Option<string>): (r: real)
    ensures str.None? || str == Some("") ==> r == 0.0
    ensures str.Some? && !StartsNumeric(StripSeparators(str.value)) ==> r == 0.0
  {
    if str.None? || str.value == "" then 0.0
    else match ParseFloat(StripSeparators(str.value))
      case Some(v) => v
      case None => 0.0
  }

  /** A plain run of digits reads as its decimal value. */
  lemma ParseAmountDigits(t: string)
    requires t != [] && AllDigits(t)
    ensures ParseAmount(Some(t)) == DigitsValue(t) as real
  {
    StripSeparatorsNoop(t);
    ParseFloatDigits(t);
  }

  lemma ParseFloatDigits(t: string)
    requires t != [] && AllDigits(t)
    ensures ParseFloat(t) == Some(DigitsValue(t) as real)
  {
    ScanDigitsOver(t, 0, |t|);
    DigitsInSlice(t, 0, |t|);
    assert t[0..|t|] == t;
    assert ExponentAt(t, |t|) == None;
  }

  /** A comma or a white-space character anywhere in the input changes nothing. */
  lemma {:induction false} SeparatorIgnored(a: string, c: char, b: string)
    requires IsAmountSeparator(c)
    ensures ParseAmount(Some(a + [c] + b)) == ParseAmount(Some(a + b))
  {
    StripSeparatorsAppend(a + [c], b);
    StripSeparatorsAppend(a, [c]);
    StripSeparatorsAppend(a, b);
    assert StripSeparators([c]) == [];
    assert StripSeparators(a + [c] + b) == StripSeparators(a + b);
    if a + b == [] {
      assert ParseFloat(StripSeparators(a + [c] + b)) == None;
    }
  }

  /** A plain decimal `int.frac` reads as its exact value. */
  lemma {:induction false} ParseFloatDecimal(whole: string, frac: string)
    requires whole != [] && AllDigits(whole) && AllDigits(frac)
    ensures ParseFloat(whole + "." + frac)
      == Some(DigitsValue(whole) as real + DigitsValue(frac) as real / Pow10(|frac|) as real)
  {
    var s := whole + "." + frac;
    assert ScanDigits(s, 0) == |whole| by {
      ScanDigitsOver(s, 0, |whole|);
    }
    assert ScanDigits(s, |whole| + 1) == |s| by {
      ScanDigitsOver(s, |whole| + 1, |s|);
    }
    DigitsInSlice(s, 0, |whole|);
    DigitsInSlice(s, |whole| + 1, |s|);
    assert s[0..|whole|] == whole;
    assert s[|whole| + 1..|s|] == frac;
    assert s[0] == whole[0] && s[|whole|] == '.';
    assert ExponentAt(s, |s|) == None;
    ShiftRight(DigitsValue(frac) as real, |frac|);
  }

  lemma {:induction false} ScanDigitsOver(s: string, i: nat, j: nat)
    requires i <= j <= |s|
    requires forall k | i <= k < j :: IsDigit(s[k])
    requires j == |s| || !IsDigit(s[j])
    ensures ScanDigits(s, i) == j
    decreases j - i
  {
    if i < j {
      ScanDigitsOver(s, i + 1, j);
    }
  }

  function Digit(c: char): int {
    c as int - '0' as int
  }

  /** The value of a two-digit field. */
  lemma DigitsValue2(s: string)
    requires |s| == 2 && AllDigits(s)
    ensures DigitsValue(s) == Digit(s[0]) * 10 + Digit(s[1])
  {
    assert s[..1][..0] == [] && s[..1][0] == s[0];
    assert DigitsValue(s[..1]) == s[0] as int - '0' as int;
  }

  /** The value of a four-digit field. */
  lemma DigitsValue4(s: string)
    requires |s| == 4 && AllDigits(s)
    ensures DigitsValue(s) == Digit(s[0]) * 1000 + Digit(s[1]) * 100 + Digit(s[2]) * 10 + Digit(s[3])
  {
    assert s[..3][..2] == s[..2];
    DigitsValue2(s[..2]);
  }

  lemma StripAroundCommas(a: string, b: string, c: string)
    requires forall i | 0 <= i < |a| :: !IsAmountSeparator(a[i])
    requires forall i | 0 <= i < |b| :: !IsAmountSeparator(b[i])
    requires forall i | 0 <= i < |c| :: !IsAmountSeparator(c[i])
    ensures StripSeparators(a + ([','] + (b + ([','] + c)))) == a + (b + c)
  {
    StripSeparatorsAppend(a, [','] + (b + ([','] + c)));
    StripSeparatorsAppend([','], b + ([','] + c));
    StripSeparatorsAppend(b, [','] + c);
    StripSeparatorsAppend([','], c);
    assert StripSeparators([',']) == [];
    StripSeparatorsNoop(a);
    StripSeparatorsNoop(b);
    StripSeparatorsNoop(c);
  }

  lemma StripGrouping(x: string, a: string, b: string, c: string)
    requires a == "1" && b == "23" && c == "456.78" && x == a + ([','] + (b + ([','] + c)))
    ensures StripSeparators(x) == "123456.78"
  {
    assert forall i | 0 <= i < |c| :: IsDigit(c[i]) || c[i] == '.';
    StripAroundCommas(a, b, c);
  }

  lemma DigitsValueExample()
    ensures DigitsValue("123456") == 123456
  {
    var w := "123456";
    assert w[..5][..4] == "1234";
    DigitsValue4("1234");
    assert w[..5] == "12345";
  }

  lemma ParseDecimalExample(w: string, f: string)
    requires w == "123456" && f == "78"
    ensures ParseFloat(w + "." + f) == Some(123456.78)
  {
    assert AllDigits(w) && AllDigits(f);
    ParseFloatDecimal(w, f);
    DigitsValueExample();
    DigitsValue2(f);
    assert Pow10(|f|) == 100;
  }

  /** The documented example: South-Asian digit grouping reads as the plain number. */
  lemma IndianGroupingExample()
    ensures ParseAmount(Some("1,23,456.78")) == 123456.78
  {
    assert "1,23,456.78" == "1" + ([','] + ("23" + ([','] + "456.78")));
    StripGrouping("1,23,456.78", "1", "23", "456.78");
    assert "123456.78" == "123456" + "." + "78";
    ParseDecimalExample("123456", "78");
  }

  /** Non-numeric text reads as 0, not NaN. */
  lemma NonNumericExample()
    ensures ParseAmount(Some("abc")) == 0.0
  {
    var s := "abc";
    StripSeparatorsNoop(s);
    assert !StartsNumeric(s) by {
      assert s[0] == 'a';
    }
  }

  predicate IsDateSeparator(c: char) {
    c == '/' || c == '-'
  }

  /** `t` matches `^\d{1,2}[/\-]\d{1,2}[/\-]\d{4}$`, with its separators at `i` and `j`. */
  predicate NumericShapeAt(t: string, i: int, j: int) {
    && 1 <= i <= 2 && i + 2 <= j <= i + 3 && j + 5 == |t|
    && IsDateSeparator(t[i]) && IsDateSeparator(t[j])
    && AllDigits(t[..i]) && AllDigits(t[i + 1..j]) && AllDigits(t[j + 1..])
  }

  lemma AllDigitsSlice(t: string, a: int, b: int)
    requires 0 <= a <= b <= |t| && AllDigits(t[a..b])
    ensures forall k | a <= k < b :: IsDigit(t[k])
  {
    forall k | a <= k < b ensures IsDigit(t[k]) {
      assert t[a..b][k - a] == t[k];
    }
  }

  lemma SliceAllDigits(t: string, a: int, b: int)
    requires 0 <= a <= b <= |t|
    requires forall k | a <= k < b :: IsDigit(t[k])
    ensures AllDigits(t[a..b])
  {
    forall k | 0 <= k < b - a ensures IsDigit(t[a..b][k]) {
      assert t[a..b][k] == t[a + k];
    }
  }

  /** The separators of a numeric date sit where the digit scans stop. */
  lemma NumericShapeScans(t: string, i: int, j: int)
    requires NumericShapeAt(t, i, j)
    ensures ScanDigits(t, 0) == i && ScanDigits(t, i + 1) == j
  {
    AllDigitsSlice(t, 0, i);
    ScanDigitsOver(t, 0, i);
    AllDigitsSlice(t, i + 1, j);
    ScanDigitsOver(t, i + 1, j);
  }

  /** The day, month and year fields of a string of the numeric date shape. */
  function NumericDateParts(t: string): Option<(int, int, int)> {
    var i := ScanDigits(t, 0);
    var j := if i < |t| then ScanDigits(t, i + 1) else i;
    if 1 <= i <= 2 && i < |t| && IsDateSeparator(t[i])
       && i + 2 <= j <= i + 3 && j + 5 == |t| && IsDateSeparator(t[j])
       && ScanDigits(t, j + 1) == |t|
    then
      Some((DigitsIn(t, 0, i), DigitsIn(t, i + 1, j), DigitsIn(t, j + 1, |t|)))
    else
      None
  }

  /** The scans find fields exactly when the string has the numeric shape, and then they are
      the shape's fields. */
  lemma NumericDatePartsMeans(t: string)
    ensures NumericDateParts(t).Some? <==> exists i, j :: NumericShapeAt(t, i, j)
    ensures forall i, j | NumericShapeAt(t, i, j) ::
      NumericDateParts(t) == Some((DigitsValue(t[..i]), DigitsValue(t[i + 1..j]), DigitsValue(t[j + 1..])))
  {
    if NumericDateParts(t).Some? {
      NumericScanFound(t);
    }
    forall i, j | NumericShapeAt(t, i, j)
      ensures NumericDateParts(t)
        == Some((DigitsValue(t[..i]), DigitsValue(t[i + 1..j]), DigitsValue(t[j + 1..])))
    {
      NumericParts(t, i, j);
    }
  }

  /** Fields found by the scans sit where the numeric shape puts them. */
  lemma NumericScanFound(t: string)
    requires NumericDateParts(t).Some?
    ensures var i := ScanDigits(t, 0);
      NumericShapeAt(t, i, ScanDigits(t, i + 1))
  {
    var i := ScanDigits(t, 0);
    var j := ScanDigits(t, i + 1);
    ScanDigitsRun(t, 0);
    ScanDigitsRun(t, i + 1);
    ScanDigitsRun(t, j + 1);
    ShapeFields(t, i, j);
  }

  /** A string of the numeric shape gives the values of its three digit runs. */
  lemma NumericParts(t: string, i: int, j: int)
    requires NumericShapeAt(t, i, j)
    ensures NumericDateParts(t) == Some((DigitsValue(t[..i]), DigitsValue(t[i + 1..j]), DigitsValue(t[j + 1..])))
  {
    NumericShapeScans(t, i, j);
    AllDigitsSlice(t, j + 1, |t|);
    ScanDigitsOver(t, j + 1, |t|);
    ShapeFields(t, i, j);
  }

  /** The in-place fields of a string with separators at `i` and `j` are the values of its
      slices, and the slices are all digits. */
  lemma ShapeFields(t: string, i: nat, j: nat)
    requires 1 <= i < j < |t|
    requires forall k | 0 <= k < i :: IsDigit(t[k])
    requires forall k | i + 1 <= k < j :: IsDigit(t[k])
    requires forall k | j + 1 <= k < |t| :: IsDigit(t[k])
    ensures AllDigits(t[..i]) && AllDigits(t[i + 1..j]) && AllDigits(t[j + 1..])
    ensures DigitsIn(t, 0, i) == DigitsValue(t[..i])
    ensures DigitsIn(t, i + 1, j) == DigitsValue(t[i + 1..j])
    ensures DigitsIn(t, j + 1, |t|) == DigitsValue(t[j + 1..])
  {
    DigitsInSlice(t, 0, i);
    assert t[0..i] == t[..i];
    DigitsInSlice(t, i + 1, j);
    DigitsInSlice(t, j + 1, |t|);
    assert t[j + 1..|t|] == t[j + 1..];
  }

  /** `t` matches `^\d{1,2}\s+[A-Za-z]{3}\s+\d{4}$`: digits up to `i`, white space up to `j`,
      three letters, white space up to `l`, four digits. */
  predicate NamedShapeAt(t: string, i: int, j: int, l: int) {
    && 1 <= i <= 2 && i < j && j + 3 < l && l + 4 == |t|
    && AllDigits(t[..i]) && AllDigits(t[l..])
    && (forall k | i <= k < j :: IsSpace(t[k]))
    && (forall k | j <= k < j + 3 :: IsAsciiLetter(t[k]))
    && (forall k | j + 3 <= k < l :: IsSpace(t[k]))
  }

  lemma NamedShapeScans(t: string, i: int, j: int, l: int)
    requires NamedShapeAt(t, i, j, l)
    ensures ScanDigits(t, 0) == i && ScanSpaces(t, i) == j && ScanSpaces(t, j + 3) == l
  {
    AllDigitsSlice(t, 0, i);
    ScanDigitsOver(t, 0, i);
    ScanSpacesOver(t, i, j);
    ScanSpacesOver(t, j + 3, l);
  }


  /** The scan `parseSBIDate`'s month-name regular expression performs. */
  predicate IsNamedShape(t: string) {
    var i := ScanDigits(t, 0);
    var j := ScanSpaces(t, i);
    var l := if j + 3 <= |t| then ScanSpaces(t, j + 3) else j + 3;
    && 1 <= i <= 2 && i < j && j + 3 < l && l + 4 == |t|
    && IsAsciiLetter(t[j]) && IsAsciiLetter(t[j + 1]) && IsAsciiLetter(t[j + 2])
    && ScanDigits(t, l) == |t|
  }

  /** The scan accepts exactly the strings of the month-name shape. */
  lemma IsNamedShapeMeans(t: string)
    ensures IsNamedShape(t) <==> exists i, j, l :: NamedShapeAt(t, i, j, l)
  {
    if IsNamedShape(t) {
      NamedScanFound(t);
    }
    forall i, j, l | NamedShapeAt(t, i, j, l) ensures IsNamedShape(t) {
      NamedShapeScanned(t, i, j, l);
    }
  }

  /** What the month-name scan accepts has the month-name shape at the scanned positions. */
  lemma NamedScanFound(t: string)
    requires IsNamedShape(t)
    ensures var i := ScanDigits(t, 0);
      var j := ScanSpaces(t, i);
      NamedShapeAt(t, i, j, ScanSpaces(t, j + 3))
  {
    var i := ScanDigits(t, 0);
    var j := ScanSpaces(t, i);
    var l := ScanSpaces(t, j + 3);
    ScanDigitsRun(t, 0);
    ScanSpacesRun(t, i);
    ScanSpacesRun(t, j + 3);
    ScanDigitsRun(t, l);
    SliceAllDigits(t, 0, i);
    assert t[0..i] == t[..i];
    SliceAllDigits(t, l, |t|);
    assert t[l..|t|] == t[l..];
  }

  /** Every string of the month-name shape passes the scan. */
  lemma NamedShapeScanned(t: string, i: int, j: int, l: int)
    requires NamedShapeAt(t, i, j, l)
    ensures IsNamedShape(t)
  {
    NamedShapeScans(t, i, j, l);
    AllDigitsSlice(t, l, |t|);
    ScanDigitsOver(t, l, |t|);
  }

  lemma {:induction false} ScanSpacesOver(s: string, i: nat, j: nat)
    requires i <= j <= |s|
    requires forall k | i <= k < j :: IsSpace(s[k])
    requires j == |s| || !IsSpace(s[j])
    ensures ScanSpaces(s, i) == j
    decreases j - i
  {
    if i < j {
      ScanSpacesOver(s, i + 1, j);
    }
  }

  /** `parseSBIDate`: a falsy input gives no date; otherwise the trimmed text is read by
      `DateOfShape`. */
  function ParseSBIDate(str: Option<string>, parseNamed: DateParse): (r: Option<CalendarDate>)
    ensures str.None? || str == Some("") ==> r.None?
  {
    if str.None? || str.value == "" then None
    else DateOfShape(Trim(str.value), parseNamed)
  }

  /** The numeric shape gives the date the `Date(year, month - 1, day)` constructor builds;
      the month-name shape is handed to `new Date(string)`; anything else gives no date. */
  function DateOfShape(t: string, parseNamed: DateParse): Option<CalendarDate> {
    match NumericDateParts(t)
    case Some(fields) => Some(MakeDate(fields.2, fields.1 - 1, fields.0))
    case None => if IsNamedShape(t) then parseNamed(t) else None
  }
}

/** What `parseSBIDate` gives for each shape of input. */
module SbiDateFacts {

  import opened Wrappers
  import opened Text
  import opened Calendar
  import opened Normalizers

  /** The numeric shape never gives "no date": it gives the date `Date(year, month - 1, day)`
      builds, with out-of-range days and months rolled over. */
  lemma NumericShapeDate(s: string, parseNamed: DateParse, i: int, j: int)
    requires s != "" && NumericShapeAt(Trim(s), i, j)
    ensures ParseSBIDate(Some(s), parseNamed) == Some(MakeDate(
      DigitsValue(Trim(s)[j + 1..]), DigitsValue(Trim(s)[i + 1..j]) - 1, DigitsValue(Trim(s)[..i])))
  {
    var t := Trim(s);
    ParseNonEmpty(s, parseNamed);
    NumericParts(t, i, j);
    NumericFields(t, parseNamed, DigitsValue(t[..i]), DigitsValue(t[i + 1..j]), DigitsValue(t[j + 1..]));
  }

  /** Non-empty text is trimmed and handed to the shape tests. */
  lemma ParseNonEmpty(s: string, parseNamed: DateParse)
    requires s != ""
    ensures ParseSBIDate(Some(s), parseNamed) == DateOfShape(Trim(s), parseNamed)
  {
  }

  /** Text with nothing to trim goes to the shape tests unchanged. */
  lemma ParseTrimmed(t: string, parseNamed: DateParse)
    requires t != "" && IsTrimmed(t)
    ensures ParseSBIDate(Some(t), parseNamed) == DateOfShape(t, parseNamed)
  {
    ParseNonEmpty(t, parseNamed);
    TrimOfTrimmed(t);
  }

  /** Trimmed text of the numeric shape always reads as a date. */
  lemma TrimmedNumericParses(t: string, parseNamed: DateParse, i: int, j: int)
    requires IsTrimmed(t) && NumericShapeAt(t, i, j)
    ensures ParseSBIDate(Some(t), parseNamed).Some?
  {
    ParseTrimmed(t, parseNamed);
    NumericParts(t, i, j);
    NumericFields(t, parseNamed, DigitsValue(t[..i]), DigitsValue(t[i + 1..j]), DigitsValue(t[j + 1..]));
  }

  lemma NumericFields(t: string, parseNamed: DateParse, d: int, m: int, y: int)
    requires NumericDateParts(t) == Some((d, m, y))
    ensures DateOfShape(t, parseNamed) == Some(MakeDate(y, m - 1, d))
  {
  }

  /** A string of the month-name shape and not the numeric one is handed to `new Date(string)`. */
  lemma NamedShapeDelegates(s: string, parseNamed: DateParse, i: int, j: int, l: int)
    requires forall i', j' :: !NumericShapeAt(Trim(s), i', j')
    requires NamedShapeAt(Trim(s), i, j, l)
    ensures ParseSBIDate(Some(s), parseNamed) == parseNamed(Trim(s))
  {
    assert |Trim(s)| <= |s|;
    ParseNonEmpty(s, parseNamed);
    NumericDatePartsMeans(Trim(s));
    IsNamedShapeMeans(Trim(s));
  }

  /** A string of neither shape gives no date. */
  lemma NeitherShapeIsNull(s: string, parseNamed: DateParse)
    requires forall i, j :: !NumericShapeAt(Trim(s), i, j)
    requires forall i, j, l :: !NamedShapeAt(Trim(s), i, j, l)
    ensures ParseSBIDate(Some(s), parseNamed) == None
  {
    NumericDatePartsMeans(Trim(s));
    IsNamedShapeMeans(Trim(s));
  }

  /** The fields of a `dd?dd?yyyy` string. */
  lemma TwoTwoFourFields(t: string)
    requires |t| == 10 && IsDateSeparator(t[2]) && IsDateSeparator(t[5])
    requires forall k | 0 <= k < 10 && k != 2 && k != 5 :: IsDigit(t[k])
    ensures NumericShapeAt(t, 2, 5)
    ensures DigitsValue(t[..2]) == Digit(t[0]) * 10 + Digit(t[1])
    ensures DigitsValue(t[3..5]) == Digit(t[3]) * 10 + Digit(t[4])
    ensures DigitsValue(t[6..]) == Digit(t[6]) * 1000 + Digit(t[7]) * 100 + Digit(t[8]) * 10 + Digit(t[9])
  {
    assert t[..2][0] == t[0] && t[..2][1] == t[1];
    assert t[3..5][0] == t[3] && t[3..5][1] == t[4];
    assert t[6..][0] == t[6] && t[6..][1] == t[7] && t[6..][2] == t[8] && t[6..][3] == t[9];
    DigitsValue2(t[..2]);
    DigitsValue2(t[3..5]);
    DigitsValue4(t[6..]);
  }

  /** A `dd?dd?yyyy` string gives the date `Date(year, month - 1, day)` builds. */
  lemma TwoTwoFour(t: string, parseNamed: DateParse, day: int, month: int, year: int)
    requires |t| == 10 && IsDateSeparator(t[2]) && IsDateSeparator(t[5])
    requires forall k | 0 <= k < 10 && k != 2 && k != 5 :: IsDigit(t[k])
    requires day == Digit(t[0]) * 10 + Digit(t[1]) && month == Digit(t[3]) * 10 + Digit(t[4])
    requires year == Digit(t[6]) * 1000 + Digit(t[7]) * 100 + Digit(t[8]) * 10 + Digit(t[9])
    ensures ParseSBIDate(Some(t), parseNamed) == Some(MakeDate(year, month - 1, day))
  {
    assert IsDigit(t[0]) && IsDigit(t[9]);
    ParseTrimmed(t, parseNamed);
    TwoTwoFourFields(t);
    NumericParts(t, 2, 5);
    NumericFields(t, parseNamed, day, month, year);
  }

  /** Slash and hyphen are interchangeable, also mixed within one date. */
  lemma SeparatorsInterchangeable(t: string, parseNamed: DateParse)
    requires t in {"15/01/2025", "15-01-2025", "15/01-2025"}
    ensures ParseSBIDate(Some(t), parseNamed) == Some(Date(2025, 1, 15))
  {
    TwoTwoFour(t, parseNamed, 15, 1, 2025);
    MakeDateInRange(2025, 1, 15);
  }

  /** 31/02/2025 is not rejected: it rolls over to 3 March 2025. */
  lemma FebruaryThirtyFirstRollsOver(parseNamed: DateParse)
    ensures ParseSBIDate(Some("31/02/2025"), parseNamed) == Some(Date(2025, 3, 3))
  {
    TwoTwoFour("31/02/2025", parseNamed, 31, 2, 2025);
    var r := MakeDate(2025, 1, 31);
    MakeDateOrdinal(2025, 1, 31);
    YearLength(2025);
    OrdinalInjective(r, Date(2025, 3, 3));
  }
}
