/** The outcome of an awaited REST call, as the form handlers see it, and the
    error text they show when it fails. */
module Requests {
  import opened Wrappers

  /** The call resolved with `body`, or it threw; a thrown error may carry
      the server's `response.data.message`. */
  datatype Outcome<T> = Success(body: T) | Failure(serverMessage: Option<string>)

  /** `error.response?.data?.message || fallback`: the server's message when
      it sent a non-empty one, the handler's own text otherwise. */
  function ErrorText(serverMessage: Option<string>, fallback: string): (text: string)
    ensures serverMessage.Some? && serverMessage.value != "" ==> text == serverMessage.value
    ensures serverMessage.None? || serverMessage.value == "" ==> text == fallback
    ensures fallback != "" ==> text != ""
  {
    if serverMessage.Some? && serverMessage.value != "" then serverMessage.value else fallback
  }
}
