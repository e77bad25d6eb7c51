/** The Option datatype shared by the billing engine, the calculator and the history store. */
module Wrappers {

  /** A value that may be absent (the source's `null` or missing storage entry). */
  datatype Option<+T> = None | Some(value: T)
}
