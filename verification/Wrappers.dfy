/** The two outcome types every component shares: a value that may be absent (SQL NULL,
    Python None), and an operation that either yields a value or is refused. */
module Wrappers {

  datatype Option<+T> = None | Some(value: T)

  /** A refusal stands for the exception the program raises before it changes anything. */
  datatype Result<+T> = Ok(value: T) | Refused(reason: string)
}
