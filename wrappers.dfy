/** Failure-carrying result types shared by the other modules. */
module Wrappers {

  /** A value that may be absent: `None` stands for a failed parse or an
      arithmetic result that the calendar cannot represent. */
  datatype Option<+T> = None | Some(value: T)

  /** The exceptions the modelled code can raise and does not catch. */
  datatype Error =
    | OverflowError   // a date computed outside 0001-01-01 .. 9999-12-31
    | IndexError      // a table row with fewer than four cells

  /** Either a value or the exception that aborted the computation. */
  datatype Result<+T> = Ok(value: T) | Err(error: Error)
}
