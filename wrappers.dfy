/** Optional values and results with an error, as used across the model. */
module Wrappers {

  /** A JavaScript value that may be null (or, where the source says so, undefined). */
  datatype Option<+T> = None | Some(value: T) {
    function GetOr(default: T): T {
      match this
      case Some(v) => v
      case None => default
    }
  }

  /** The outcome of an operation that can fail with an error value. */
  datatype Result<+R, +E> = Success(value: R) | Failure(error: E)
}

/** What the client's HTTP helper reports back from one call to the server. */
module ClientApi {
  import opened Wrappers

  /** A call either resolves with the response body, or rejects; a rejection
      may carry the server's `message` field. */
  datatype ApiOutcome<+T> = Resolved(payload: T) | Rejected(message: Option<string>)

  /** The text the client shows for a rejected call:
      `error.response?.data?.message || fallback`. A missing or empty message is
      falsy, so the fallback is used. */
  function ErrorText(message: Option<string>, fallback: string): (text: string)
    ensures message.Some? && message.value != "" ==> text == message.value
    ensures message.None? || message.value == "" ==> text == fallback
  {
    if message.Some? && message.value != "" then message.value else fallback
  }
}
