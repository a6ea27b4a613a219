/** Failure-carrying wrappers and small sequence facts shared by the other
    modules. */
module Util {

  datatype Option<+T> = None | Some(value: T)

  datatype Result<+T, +E> = Ok(value: T) | Err(error: E)

  /** Appending is associative. */
  lemma AppendAssoc<T>(x: seq<T>, y: seq<T>, z: seq<T>)
    ensures x + (y + z) == (x + y) + z
  {
  }

  /** Splitting off the head of `u + v` when `u` has one. */
  lemma ConcatParts<T>(u: seq<T>, v: seq<T>)
    requires u != []
    ensures (u + v)[0] == u[0] && (u + v)[1..] == u[1..] + v
  {
  }

  /** Cutting `u + v` inside `u`. */
  lemma ConcatSlices<T>(u: seq<T>, v: seq<T>, k: nat)
    requires k <= |u|
    ensures (u + v)[..k] == u[..k] && (u + v)[k..] == u[k..] + v
  {
  }

  /** A slice grown by one element on the right. */
  lemma SliceSnoc<T>(s: seq<T>, lo: nat, hi: nat)
    requires lo <= hi < |s|
    ensures s[lo..hi + 1] == s[lo..hi] + [s[hi]]
  {
  }
}
