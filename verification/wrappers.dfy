/** Optional values (TypeScript's `T | undefined` / `T | null`). */
module Wrappers {

  datatype Option<+T> = None | Some(value: T) {

    /** The value, or `default` when there is none (the `??` operator). */
    function GetOr(default: T): T
    {
      match this
      case Some(v) => v
      case None => default
    }
  }
}

/**
 * `Array.prototype.find` and `findIndex`: the FIRST element, in stored order,
 * that satisfies a predicate.  The model returns the index of that element so
 * that callers can state first-match properties about it.
 */
module Search {
  import opened Wrappers

  function FindIndex<T>(xs: seq<T>, p: T -> bool): (r: Option<nat>)
    ensures r.Some? ==> r.value < |xs| && p(xs[r.value])
    ensures r.Some? ==> forall k :: 0 <= k < r.value ==> !p(xs[k])
    ensures r.None? <==> forall k :: 0 <= k < |xs| ==> !p(xs[k])
  {
    if xs == [] then None
    else if p(xs[0]) then Some(0)
    else match FindIndex(xs[1..], p)
      case None => None
      case Some(i) => Some(i + 1)
  }

  /** The element `find` returns. */
  function Find<T>(xs: seq<T>, p: T -> bool): (r: Option<T>)
    ensures r.Some? <==> exists k :: 0 <= k < |xs| && p(xs[k])
    ensures r.Some? ==> p(r.value) && r.value in xs
    ensures r.Some? ==> exists k :: 0 <= k < |xs| && r.value == xs[k] && forall l :: 0 <= l < k ==> !p(xs[l])
  {
    match FindIndex(xs, p)
    case None => None
    case Some(i) => Some(xs[i])
  }
}
