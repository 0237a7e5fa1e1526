/** The usual optional-value wrapper, used where the source has `null` or `undefined`. */
module Wrappers {

  datatype Option<+T> = None | Some(value: T)

  /** Indexing an array as JavaScript does: `undefined` past the end. */
  function Element<T>(s: seq<T>, i: nat): (r: Option<T>)
    ensures r.Some? <==> i < |s|
    ensures r.Some? ==> r.value == s[i]
  {
    if i < |s| then Some(s[i]) else None
  }
}
