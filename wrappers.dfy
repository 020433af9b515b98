/** Option and Outcome values used throughout the model. */
module Wrappers {

  datatype Option<+T> = None | Some(value: T) {
    /** The zero- or one-element sequence holding the carried value. */
    function ToSeq(): (s: seq<T>)
      ensures |s| <= 1
      ensures None? <==> s == []
      ensures Some? ==> s == [value]
    {
      if None? then [] else [value]
    }
  }

  datatype Result<+R, +E> = Success(value: R) | Failure(error: E)

  /** A pass/fail result that carries no value on success (Rust's `Result<(), E>`). */
  datatype Outcome<+E> = Pass | Fail(error: E)
}
