/** Failure-carrying result types used by the lookup. */
module Wrappers {

  datatype Option<+T> = None | Some(value: T)

  /** Either the value found or the error the lookup raised. */
  datatype Result<+T, +E> = Ok(value: T) | Err(error: E)

  /** Outcome of a check that returns nothing on success. */
  datatype Outcome<+E> = Pass | Fail(error: E)
}
