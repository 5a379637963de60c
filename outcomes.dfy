/** The one failure the record raises: `ArgumentOutOfRangeException`, carrying the
    parameter's name and the rejected value. */
module Outcomes {

  datatype Error = ArgumentOutOfRange(paramName: string, actualValue: int)

  /** The result of a call that returns a value or throws. */
  datatype Result<T> = Ok(value: T) | Err(error: Error)

  /** The result of a call that returns nothing or throws. */
  datatype Outcome = Pass | Fail(error: Error)
}
