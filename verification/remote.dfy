/** The boundary with the remote service. A remote call is not performed by
    the model: its settled result is passed in as a `Reply`, so every store
    operation is a pure function of the pre-state and that reply. */
module Remote {
  import opened Wrappers

  /** What a rejected remote call throws: either an `Error` object (with the
      response text as its message and, possibly, an HTTP status), or some
      other thrown value that carries no message. */
  datatype RemoteError =
    | HttpError(status: Option<int>, message: string)
    | NonError

  /** The settled outcome of one remote call. */
  datatype Reply<+T> = Ok(value: T) | Err(error: RemoteError)

  /** The status the service reserves for a scheduling conflict. */
  const ConflictStatus := 409

  /** The text a failure surfaces: the error's own message when it is an
      `Error`, otherwise the caller's fallback text. */
  function Message(e: RemoteError, fallback: string): (m: string)
    ensures e.NonError? ==> m == fallback
    ensures e.HttpError? ==> m == e.message
  {
    match e
    case HttpError(_, msg) => msg
    case NonError => fallback
  }
}
