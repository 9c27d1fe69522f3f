/** An optional value: `undefined`/`null` versus a present value. */
module Wrappers {

  datatype Option<T> = None | Some(value: T) {

    /** The value, or `default` when absent: the `??` operator. */
    function GetOr(default: T): T
    {
      match this
      case Some(v) => v
      case None => default
    }

    /** Zero or one element, for appending to a log. */
    function ToSeq(): seq<T>
    {
      match this
      case Some(v) => [v]
      case None => []
    }
  }

  /** The last element of a non-empty sequence: the latest of a burst of argument lists. */
  function Last<A>(xs: seq<A>): (x: A)
    requires xs != []
    ensures x in xs
  {
    xs[|xs| - 1]
  }
}
