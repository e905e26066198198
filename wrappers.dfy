/** Wrappers shared by every module of the model. */
module Wrappers {

  /** A value that may be absent: JavaScript's `T | null`. */
  datatype Option<+T> = None | Some(value: T)

  /** The error a port or the service throws: a JavaScript `Error` with its message. */
  datatype Failure = Failure(message: string)

  /** A call that either resolves with a value or rejects with a failure. */
  datatype Result<+T> = Ok(value: T) | Err(error: Failure)

  /** A call that resolves with nothing (`Promise<void>`) or rejects. */
  datatype Outcome = Pass | Fail(error: Failure)

  /** The behaviour of one call to a backend client (Redis, MongoDB, AMQP):
      it answers, or it fails with the client's error message. */
  datatype Link = Up | Down(reason: string)
}
