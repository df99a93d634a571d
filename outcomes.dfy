/** Result shapes shared by the whole model: an optional value, the reply of a
    call into the messaging backend, and the failures a handler reports. */
module Outcomes {

  datatype Option<+T> = None | Some(value: T)

  /** The outcome of one call into the backend client: a reply, or an
      exception carrying its message. */
  datatype Rpc<+T> = Replied(value: T) | Raised(reason: string)

  /** `HttpError` is an HTTPException raised by a handler; `Unhandled` is any
      other exception, which the framework answers with status 500. */
  datatype Failure = HttpError(status: int, detail: string) | Unhandled(reason: string)

  datatype Result<+T> = Ok(value: T) | Err(error: Failure)

  /** The HTTP status the caller receives for a failure. */
  function StatusCode(f: Failure): int
  {
    match f
    case HttpError(status, _) => status
    case Unhandled(_) => 500
  }
}
