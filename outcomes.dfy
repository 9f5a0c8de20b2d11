/** Shared result types: a missing value, the outcome of a backend call, and the outcome of
    an awaited call that may also throw. */
module Outcomes {

  datatype Option<+T> = None | Some(value: T)

  /** What a backend query or mutation hands back: rows (or nothing) or an error message. */
  datatype Outcome<+T> = Ok(value: T) | Err(message: string)

  /** What an awaited `{ error }`-returning call does: it completes (with an error message or
      none), or it throws. */
  datatype CallResult = Completed(error: Option<string>) | Threw

  /** A call that may be refused before it reaches the backend: `Result` is what the data
      hooks return to their callers (`{ data }` or `{ error }`). */
  datatype Result<+T> = Success(data: T) | Failure(error: string)
}
