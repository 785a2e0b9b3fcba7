/** Optional values and results, the Swift `T?` and `throws` of the modelled code. */
module Wrappers {

  datatype Option<T> = None | Some(value: T)

  datatype Result<T, E> = Ok(value: T) | Err(error: E)

  /** The elements of an optional value, as a sequence of length 0 or 1. */
  function OptionToSeq<T>(o: Option<T>): (s: seq<T>)
    ensures o.None? <==> s == []
    ensures o.Some? ==> s == [o.value]
  {
    match o
    case None => []
    case Some(v) => [v]
  }
}
