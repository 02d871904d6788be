/** Small failure-carrying datatypes shared by the queue and the residency manager. */
module Outcomes {

  datatype Option<+T> = None | Some(value: T)

  /** A value or the exception that a Python call raised instead. */
  datatype Result<+T, +E> = Ok(value: T) | Err(error: E)

  /** A call that returns nothing (`None`) or raises. */
  datatype Outcome<+E> = Pass | Fail(error: E)
}
