/** Optional values, typed outcomes and capped fetches, shared by every module. */
module Wrappers {

  datatype Option<+T> = None | Some(value: T)

  datatype Result<+T, +E> = Ok(value: T) | Err(error: E)

  /** The first n elements, or all of them: an SQL LIMIT. */
  function Take<T>(s: seq<T>, n: nat): (r: seq<T>) {
    if |s| <= n then s else s[..n]
  }

  lemma InTake<T>(s: seq<T>, n: nat, k: nat)
    requires k < |s|
    ensures k < |Take(s, n)| ==> s[k] in Take(s, n)
  {
    if k < |Take(s, n)| { assert Take(s, n)[k] == s[k]; }
  }
}
