/**
 * What the pages exchange with the outside world, as plain values: the reply
 * the backend gives to one request (an input of every handler) and the toast
 * a handler raises (one of its outputs).
 */
module Io {

  /** The outcome of one `fetch`: either the request could not complete (the
      promise rejects, with `reason` as the error's message) or the server
      answered with an HTTP status, the decoded body and the body's `message`
      field, "" when there is none. The one exception is the role update,
      whose failure branch reads the raw body text: there `message` is that text. */
  datatype Reply<T> =
    | NetworkError(reason: string)
    | Answered(status: int, payload: T, message: string)

  /** `response.ok`: the server answered with a 2xx status. */
  predicate Succeeded<T>(r: Reply<T>) {
    r.Answered? && 200 <= r.status <= 299
  }

  /** The message of the error thrown for a failed reply: the network error's
      own message, or the server's `message`. */
  function ErrorText<T>(r: Reply<T>): string {
    match r
    case NetworkError(reason) => reason
    case Answered(_, _, message) => message
  }

  /** A `toast.success` or `toast.error` notification with its text. */
  datatype Toast = Success(text: string) | Error(text: string)
}
