/**
 * The shape every handler returns: an HTTP status, the human-readable string the
 * handler puts in its body (the `error` field of a JSON error, or the page title of
 * an HTML reply), and, on success, the handler-specific payload.
 */
module Http {
  import opened Wrappers

  datatype Reply<T> = Reply(status: int, message: string, data: Option<T>)

  function Fail<T>(status: int, message: string): Reply<T> {
    Reply(status, message, None)
  }

  function Done<T>(status: int, data: T): Reply<T> {
    Reply(status, "", Some(data))
  }

  /** What the outer `catch` of every handler returns. */
  function InternalError<T>(): Reply<T> {
    Fail(500, "Internal server error")
  }

  const InvalidJson := "Invalid JSON"
}
