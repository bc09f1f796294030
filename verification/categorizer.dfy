/** `autoCategorize`: an ordered keyword lookup that prefers the user's own spelling of
    the category it finds. */
module Categorizer {

  import opened Wrappers
  import opened Text

  /** `KEYWORD_MAP` has 47 entries; entry `k` pairs `Keyword(k)` with `Label(k)`, in the
      insertion order `Object.entries` walks. */
  const EntryCount: nat := 47

  /** The keywords, lower-case, in table order. */
  function Keyword(k: nat): string
    requires k < EntryCount
  {
    match k
    case 0 => "zomato"
    case 1 => "swiggy"
    case 2 => "food"
    case 3 => "restaurant"
    case 4 => "dominos"
    case 5 => "pizza"
    case 6 => "cafe"
    case 7 => "dining"
    case 8 => "petrol"
    case 9 => "diesel"
    case 10 => "uber"
    case 11 => "ola"
    case 12 => "rapido"
    case 13 => "metro"
    case 14 => "irctc"
    case 15 => "railway"
    case 16 => "fuel"
    case 17 => "amazon"
    case 18 => "flipkart"
    case 19 => "myntra"
    case 20 => "ajio"
    case 21 => "meesho"
    case 22 => "shopping"
    case 23 => "mall"
    case 24 => "netflix"
    case 25 => "hotstar"
    case 26 => "spotify"
    case 27 => "movie"
    case 28 => "pvr"
    case 29 => "inox"
    case 30 => "jio"
    case 31 => "airtel"
    case 32 => "vodafone"
    case 33 => "electricity"
    case 34 => "broadband"
    case 35 => "recharge"
    case 36 => "bill"
    case 37 => "rent"
    case 38 => "society"
    case 39 => "maintenance"
    case 40 => "hospital"
    case 41 => "medical"
    case 42 => "pharmacy"
    case 43 => "apollo"
    case 44 => "doctor"
    case 45 => "medicine"
    case _ => "gym"
  }

  /** The category each keyword maps to; equal labels sit in consecutive entries. */
  function Label(k: nat): string
    requires k < EntryCount
  {
    if k < 8 then "Food"
    else if k < 17 then "Transport"
    else if k < 24 then "Shopping"
    else if k < 30 then "Entertainment"
    else if k < 37 then "Bills"
    else if k < 40 then "Rent"
    else "Health"
  }

  const Uncategorized: string := "Uncategorized"

  /** Entry `k` is the first entry, in table order, whose keyword occurs in `desc`. */
  predicate IsFirstKeyword(desc: string, k: int) {
    && 0 <= k < EntryCount
    && Contains(desc, Keyword(k))
    && forall j | 0 <= j < k :: !Contains(desc, Keyword(j))
  }

  /** The first entry from `from` on whose keyword occurs in `desc`, or -1. */
  function FirstKeyword(desc: string, from: nat): (k: int)
    requires from <= EntryCount
    ensures k == -1 || from <= k < EntryCount
    ensures k == -1 ==> forall j | from <= j < EntryCount :: !Contains(desc, Keyword(j))
    ensures k != -1 ==>
      && Contains(desc, Keyword(k))
      && forall j | from <= j < k :: !Contains(desc, Keyword(j))
    decreases EntryCount - from
  {
    if from == EntryCount then -1
    else if Contains(desc, Keyword(from)) then from
    else FirstKeyword(desc, from + 1)
  }

  /** The first name in `names` equal to `target` ignoring case, or -1 (`Array.prototype.find`). */
  function FindNameIgnoringCase(names: seq<string>, target: string): (i: int)
    ensures i == -1 || 0 <= i < |names|
    ensures i == -1 <==> forall j | 0 <= j < |names| :: ToLower(names[j]) != ToLower(target)
    ensures i != -1 ==>
      && ToLower(names[i]) == ToLower(target)
      && forall j | 0 <= j < i :: ToLower(names[j]) != ToLower(target)
  {
    if names == [] then -1
    else if ToLower(names[0]) == ToLower(target) then 0
    else
      var i := FindNameIgnoringCase(names[1..], target);
      if i == -1 then -1 else i + 1
  }

  /** The user's spelling of `target` when they have one, else `target` itself. */
  function PreferUserName(names: seq<string>, target: string): (r: string)
    ensures ToLower(r) == ToLower(target)
    ensures r == target || r in names
  {
    var i := FindNameIgnoringCase(names, target);
    if i == -1 then target else names[i]
  }

  /** `autoCategorize(description, userCategories)`, with the categories given by name and a
      missing (or empty) description as `None`. */
  function AutoCategorize(description: Option<string>, names: seq<string>): (r: string)
    ensures var desc := ToLower(description.GetOr(""));
      && ((forall j | 0 <= j < EntryCount :: !Contains(desc, Keyword(j))) ==> r == Uncategorized)
      && (forall k | IsFirstKeyword(desc, k) :: r == PreferUserName(names, Label(k)))
  {
    var desc := ToLower(description.GetOr(""));
    var k := FirstKeyword(desc, 0);
    if k == -1 then Uncategorized else PreferUserName(names, Label(k))
  }

  /** The result is "Uncategorized" exactly when no keyword occurs: every mapped label, and
      every name equal to one ignoring case, differs from it. */
  lemma UncategorizedIffNoKeyword(description: Option<string>, names: seq<string>)
    ensures var desc := ToLower(description.GetOr(""));
      AutoCategorize(description, names) == Uncategorized
      <==> forall j | 0 <= j < EntryCount :: !Contains(desc, Keyword(j))
  {
    var desc := ToLower(description.GetOr(""));
    var k := FirstKeyword(desc, 0);
    if k != -1 {
      assert IsFirstKeyword(desc, k);
      LabelIsNotUncategorized(k);
    }
  }

  /** No label reads "Uncategorized", in any letter case. */
  lemma LabelIsNotUncategorized(k: nat)
    requires k < EntryCount
    ensures ToLower(Label(k)) != ToLower(Uncategorized)
  {
    assert ToLower(Label(k))[0] == LowerChar(Label(k)[0]);
    assert ToLower(Uncategorized)[0] == 'u';
  }

  lemma KeywordNonEmpty(k: nat)
    requires k < EntryCount
    ensures Keyword(k) != ""
  {
  }

  /** A returned category, when one is found, is a user name or the built-in label, and
      equals that label ignoring case. */
  lemma FoundCategoryMatchesLabel(description: Option<string>, names: seq<string>, k: int)
    requires IsFirstKeyword(ToLower(description.GetOr("")), k)
    ensures var r := AutoCategorize(description, names);
      && ToLower(r) == ToLower(Label(k))
      && (r == Label(k) || r in names)
  {
  }

  /** With no description there is no keyword to find. */
  lemma NoDescriptionIsUncategorized(names: seq<string>)
    ensures AutoCategorize(None, names) == Uncategorized
  {
    forall j | 0 <= j < EntryCount ensures !Contains("", Keyword(j)) {
      KeywordNonEmpty(j);
    }
  }

  /** The documented example: an upper-case Zomato order lands in the user's "Food". */
  lemma ZomatoExample()
    ensures AutoCategorize(Some("ZOMATO ORDER #123"), ["Food"]) == "Food"
  {
    var desc := ToLower("ZOMATO ORDER #123");
    assert desc[..6] == "zomato";
    assert StartsWith(desc, "zomato");
    assert IsFirstKeyword(desc, 0);
    assert ToLower("Food") == "food";
  }
}
