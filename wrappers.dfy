/** Failure-carrying values, and Swift's throwing `map` over an array. */
module Wrappers {

  datatype Option<+T> = None | Some(value: T)

  datatype Result<+T, +E> = Ok(value: T) | Err(error: E)

  /** `try xs.map(f)` where `f` may throw (here: return None): the mapped
      array, in order, when every call succeeds, and None as soon as one fails. */
  function TryMap<A, B>(xs: seq<A>, f: A --> Option<B>): (r: Option<seq<B>>)
    requires forall i :: 0 <= i < |xs| ==> f.requires(xs[i])
    ensures r.Some? <==> forall i :: 0 <= i < |xs| ==> f(xs[i]).Some?
    ensures r.Some? ==> |r.value| == |xs|
    ensures r.Some? ==> forall i :: 0 <= i < |xs| ==> r.value[i] == f(xs[i]).value
  {
    if xs == [] then Some([])
    else
      match f(xs[0])
      case None => None
      case Some(y) =>
        match TryMap(xs[1..], f)
        case None => None
        case Some(ys) =>
          assert forall i :: 1 <= i < |xs| ==> xs[1..][i - 1] == xs[i];
          Some([y] + ys)
  }
}
