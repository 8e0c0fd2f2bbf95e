/** Optional values and the first-match search that JavaScript's Array.prototype.find
    performs: every lookup of the server (hotel by id, user by email, user by
    credentials) is a `find` over one of the document's collections. */
module Lookup {

  datatype Option<+T> = None | Some(value: T)

  /** `i` is the index of the first element of `s` that satisfies `p`. */
  ghost predicate IsFirst<T>(s: seq<T>, p: T -> bool, i: int)
  {
    0 <= i < |s| && p(s[i]) && forall j :: 0 <= j < i ==> !p(s[j])
  }

  /** The index `find` stops at: the first element satisfying `p`, or None when
      no element does. */
  function FirstIndex<T>(s: seq<T>, p: T -> bool): (r: Option<nat>)
    ensures r.None? <==> forall i :: 0 <= i < |s| ==> !p(s[i])
    ensures r.Some? ==> IsFirst(s, p, r.value)
    decreases |s|
  {
    if |s| == 0 then None
    else if p(s[0]) then Some(0)
    else match FirstIndex(s[1..], p)
      case None => None
      case Some(k) => Some(k + 1)
  }
}
