/** Failure-compatible wrappers shared by every page model. */
module Wrappers {

  /** A value that may be absent: JavaScript's `null`/`undefined`. */
  datatype Option<+T> = None | Some(value: T)

  /** A client-side check that either yields a value or an error message. */
  datatype Result<+T> = Success(value: T) | Failure(error: string)

  /** `message || fallback`: an absent or empty message falls back to the default text. */
  function MessageOr(message: Option<string>, fallback: string): (r: string)
    ensures message.Some? && message.value != "" ==> r == message.value
    ensures message.None? || message.value == "" ==> r == fallback
  {
    if message.Some? && message.value != "" then message.value else fallback
  }

  /** JavaScript truthiness of a string that may be absent: present and non-empty. */
  predicate Truthy(s: Option<string>)
  {
    s.Some? && s.value != ""
  }
}
