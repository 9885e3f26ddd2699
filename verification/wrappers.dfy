/** Failure-carrying result type used by the report pipeline. */
module Wrappers {

  /** A value that is either present or absent (an exception caught by the page). */
  datatype Option<+T> = None | Some(value: T)
}
