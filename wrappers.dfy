/** Optional values and results, used for nullable fields and for error paths. */
module Wrappers {

  datatype Option<+T> = None | Some(value: T)

  datatype Result<+R, +E> = Success(value: R) | Failure(error: E)

  /**
   * Truthiness of a nullable string in JavaScript and in Python alike: present and not
   * empty.
   */
  predicate Truthy(s: Option<string>)
  {
    s.Some? && s.value != ""
  }
}
