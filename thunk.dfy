/**
 * What every rejected async-thunk case of the client stores records as its error:
 * `action.error.message || '<default for the operation>'`.
 */
module Thunk {
  import opened Wrappers

  /**
   * The thrown message when there is one and it is not empty (JavaScript's `||`
   * treats both `undefined` and `''` as false), the operation's default otherwise.
   */
  function RejectionMessage(thrown: Option<string>, fallback: string): (m: string)
    ensures thrown.Some? && thrown.value != "" ==> m == thrown.value
    ensures (thrown.None? || thrown.value == "") ==> m == fallback
    ensures fallback != "" ==> m != ""
  {
    match thrown
    case Some(message) => if message != "" then message else fallback
    case None => fallback
  }
}
