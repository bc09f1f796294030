/** Option and Result: the model's stand-ins for JavaScript's `null`/`undefined`
    results and for thrown errors. */
module Wrappers {

  datatype Option<+T> = None | Some(value: T) {
    function GetOr(default: T): T {
      match this
      case Some(v) => v
      case None => default
    }
  }

  datatype Result<+T, +E> = Ok(value: T) | Err(error: E)

  /** The present values, in order. */
  function Somes<T>(opts: seq<Option<T>>): seq<T> {
    if opts == [] then []
    else
      var rest := Somes(opts[..|opts| - 1]);
      match opts[|opts| - 1]
      case Some(x) => rest + [x]
      case None => rest
  }

  /** One more entry adds its value, if present, at the end. */
  lemma SomesSnoc<T>(opts: seq<Option<T>>, i: int)
    requires 0 <= i < |opts|
    ensures Somes(opts[..i + 1]) == match opts[i]
      case Some(x) => Somes(opts[..i]) + [x]
      case None => Somes(opts[..i])
  {
    assert opts[..i + 1][..i] == opts[..i];
  }

  /** There are no more values than entries, and each value is present in some entry. */
  lemma {:induction false} SomesFrom<T>(opts: seq<Option<T>>)
    ensures |Somes(opts)| <= |opts|
    ensures forall x | x in Somes(opts) :: Some(x) in opts
  {
    if opts != [] {
      var init := opts[..|opts| - 1];
      SomesFrom(init);
      assert forall o | o in init :: o in opts;
    }
  }
}
