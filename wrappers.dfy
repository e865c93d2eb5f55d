/** Failure-carrying return values standing for Java's null results and exceptions. */
module Wrappers {

  /** A value that may be absent (Java's null). */
  datatype Option<+T> = None | Some(value: T) {
    function GetOr(default: T): T {
      match this
      case Some(v) => v
      case None => default
    }
  }

  /** A value or the exception a call throws. */
  datatype Result<+T, +E> = Success(value: T) | Failure(error: E)

  /** A call that returns nothing, or the exception it throws. */
  datatype Outcome<+E> = Pass | Fail(error: E)

  /** A subset is never larger than the set that holds it. */
  lemma CardinalityOfSubset<T>(small: set<T>, big: set<T>)
    requires small <= big
    ensures |small| <= |big|
  {
    assert big == small + (big - small);
  }
}
