/** `findColumnIndices`: which header column holds each field of a CSV statement. */
module ColumnResolver {

  import opened Text

  /** The column index of each field, -1 when no header names it. */
  datatype Columns = Columns(date: int, description: int, debit: int, credit: int)

  datatype Role = DateRole | DescriptionRole | DebitRole | CreditRole

  /** A header as compared: `(h || '').toLowerCase().trim()`. */
  function HeaderKey(h: string): string {
    Trim(ToLower(h))
  }

  /** The compared form of every header, in order. */
  function Keys(headers: seq<string>): (keys: seq<string>)
    ensures |keys| == |headers|
    ensures forall j | 0 <= j < |headers| :: keys[j] == HeaderKey(headers[j])
  {
    seq(|headers|, j requires 0 <= j < |headers| => HeaderKey(headers[j]))
  }

  /** The words that name each field; a header names it when it contains any of them. */
  function Needles(role: Role): seq<string> {
    match role
    case DateRole => ["date"]
    case DescriptionRole => ["description", "narration", "particular"]
    case DebitRole => ["debit", "withdrawal"]
    case CreditRole => ["credit", "deposit"]
  }

  /** `key` contains at least one of `words`. */
  predicate ContainsAny(key: string, words: seq<string>) {
    words != [] && (Contains(key, words[0]) || ContainsAny(key, words[1..]))
  }

  /** Whether a compared header names the field of `role`. */
  predicate Fills(role: Role, key: string) {
    ContainsAny(key, Needles(role))
  }

  /** The smallest index whose compared header fills `role`, or -1. */
  function FirstFilling(keys: seq<string>, role: Role): int {
    if keys == [] then -1
    else
      var i := FirstFilling(keys[..|keys| - 1], role);
      if i != -1 then i
      else if Fills(role, keys[|keys| - 1]) then |keys| - 1
      else -1
  }

  /** `FirstFilling` finds the first header that fills the role, and -1 exactly when none
      does. */
  lemma {:induction false} FirstFillingIsFirst(keys: seq<string>, role: Role)
    ensures var i := FirstFilling(keys, role);
      && -1 <= i < |keys|
      && (i == -1 <==> forall j | 0 <= j < |keys| :: !Fills(role, keys[j]))
      && (i != -1 ==> Fills(role, keys[i]) && forall j | 0 <= j < i :: !Fills(role, keys[j]))
  {
    if keys != [] {
      var init := keys[..|keys| - 1];
      FirstFillingIsFirst(init, role);
      assert forall j | 0 <= j < |init| :: init[j] == keys[j];
    }
  }

  /** The columns `findColumnIndices` reports for already compared headers: the first match
      for each role. One column may fill several roles. */
  function ResolveKeys(keys: seq<string>): Columns {
    Columns(FirstFilling(keys, DateRole), FirstFilling(keys, DescriptionRole),
            FirstFilling(keys, DebitRole), FirstFilling(keys, CreditRole))
  }

  function Resolve(headers: seq<string>): Columns {
    ResolveKeys(Keys(headers))
  }

  /** Each reported column is the first header that fills its role, and -1 exactly when no
      header does. */
  lemma ResolveIsFirst(headers: seq<string>, role: Role)
    ensures var c := Resolve(headers);
      var i := match role
        case DateRole => c.date
        case DescriptionRole => c.description
        case DebitRole => c.debit
        case CreditRole => c.credit;
      && -1 <= i < |headers|
      && (i == -1 <==> forall j | 0 <= j < |headers| :: !Fills(role, HeaderKey(headers[j])))
      && (i != -1 ==>
        && Fills(role, HeaderKey(headers[i]))
        && forall j | 0 <= j < i :: !Fills(role, HeaderKey(headers[j])))
  {
    var keys := Keys(headers);
    FirstFillingIsFirst(keys, role);
  }

  /** Appending a header changes a role's column only when the role had none. */
  lemma FirstFillingSnoc(keys: seq<string>, key: string, role: Role)
    ensures FirstFilling(keys + [key], role)
      == if FirstFilling(keys, role) != -1 then FirstFilling(keys, role)
         else if Fills(role, key) then |keys| else -1
  {
    assert (keys + [key])[..|keys|] == keys;
  }

  /** One more header updates exactly the roles still without a column. */
  lemma ResolveKeysStep(keys: seq<string>, i: int)
    requires 0 <= i < |keys|
    ensures var c, k := ResolveKeys(keys[..i]), keys[i];
      ResolveKeys(keys[..i + 1]) == Columns(
        if c.date == -1 && Fills(DateRole, k) then i else c.date,
        if c.description == -1 && Fills(DescriptionRole, k) then i else c.description,
        if c.debit == -1 && Fills(DebitRole, k) then i else c.debit,
        if c.credit == -1 && Fills(CreditRole, k) then i else c.credit)
  {
    assert keys[..i + 1] == keys[..i] + [keys[i]];
    FirstFillingSnoc(keys[..i], keys[i], DateRole);
    FirstFillingSnoc(keys[..i], keys[i], DescriptionRole);
    FirstFillingSnoc(keys[..i], keys[i], DebitRole);
    FirstFillingSnoc(keys[..i], keys[i], CreditRole);
  }

  lemma ResolveEmpty()
    ensures ResolveKeys([]) == Columns(-1, -1, -1, -1)
  {
  }

  /** `findColumnIndices`: compare the headers, then scan them. */
  method FindColumnIndices(headers: seq<string>) returns (cols: Columns)
    ensures cols == Resolve(headers)
  {
    var lower := Keys(headers);
    cols := ResolveLoop(lower);
  }

  /** The loop of `findColumnIndices`: each role keeps the first column that fills it. */
  method ResolveLoop(lower: seq<string>) returns (cols: Columns)
    ensures cols == ResolveKeys(lower)
  {
    cols := Columns(-1, -1, -1, -1);
    var i := 0;
    while i < |lower|
      invariant 0 <= i <= |lower|
      invariant cols.date == FirstFilling(lower[..i], DateRole)
      invariant cols.description == FirstFilling(lower[..i], DescriptionRole)
      invariant cols.debit == FirstFilling(lower[..i], DebitRole)
      invariant cols.credit == FirstFilling(lower[..i], CreditRole)
    {
      assert lower[..i + 1] == lower[..i] + [lower[i]];
      FirstFillingSnoc(lower[..i], lower[i], DateRole);
      FirstFillingSnoc(lower[..i], lower[i], DescriptionRole);
      FirstFillingSnoc(lower[..i], lower[i], DebitRole);
      FirstFillingSnoc(lower[..i], lower[i], CreditRole);
      if Fills(DateRole, lower[i]) && cols.date == -1 {
        cols := cols.(date := i);
      }
      if Fills(DescriptionRole, lower[i]) && cols.description == -1 {
        cols := cols.(description := i);
      }
      if Fills(DebitRole, lower[i]) && cols.debit == -1 {
        cols := cols.(debit := i);
      }
      if Fills(CreditRole, lower[i]) && cols.credit == -1 {
        cols := cols.(credit := i);
      }
      i := i + 1;
    }
    assert lower[..i] == lower;
  }
}
