/** The optional value used wherever the source has a pointer that may be null
    or a field that a decoder may leave unfilled. */
module Wrappers {

  datatype Option<+T> = None | Some(value: T) {

    /** The wrapped value, or `default` when there is none. */
    function GetOr(default: T): (v: T)
      ensures Some? ==> v == value
      ensures None? ==> v == default
    {
      match this
      case Some(v) => v
      case None => default
    }
  }

  function Min(a: int, b: int): int { if a <= b then a else b }

  function Max(a: int, b: int): int { if a <= b then b else a }

  /** Sum of a sequence of byte counts. */
  function Sum(ns: seq<nat>): nat
  {
    if ns == [] then 0 else ns[0] + Sum(ns[1..])
  }
}
