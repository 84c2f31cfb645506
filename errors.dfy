/** The two exception classes a socket raises, and the result types that carry them. */
module Errors {

  /** fProgrammerException: the caller broke a precondition.
      fConnectivityException: the environment or the transport failed. */
  datatype Error =
    | ProgrammerError(message: string)
    | ConnectivityError(message: string)

  /** A value, or the exception that was thrown instead of returning it. */
  datatype Result<T> = Ok(value: T) | Err(error: Error)

  /** A check that returns nothing, or the exception it threw. */
  datatype Outcome = Pass | Fail(error: Error)

  datatype Option<T> = None | Some(value: T)
}
