/**
 * Option and Result, the stand-ins for Python's `None` and for raised
 * exceptions, and the first-occurrence search that `list.remove` and the
 * split of a display form at its first '@' rest on.
 */
module Wrappers {

  datatype Option<+T> = None | Some(value: T)

  /** `Err` carries what the Python code raises; `Ok` what it returns. */
  datatype Result<+T, +E> = Ok(value: T) | Err(error: E)

  /** Position of the first `x` in `s`, or the length when there is none. */
  function FirstIndex<T(==)>(s: seq<T>, x: T): (i: nat)
    ensures i <= |s|
    ensures i < |s| ==> s[i] == x
    ensures forall j :: 0 <= j < i ==> s[j] != x
  {
    if s == [] then 0 else if s[0] == x then 0 else 1 + FirstIndex(s[1..], x)
  }
}
