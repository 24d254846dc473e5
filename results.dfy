/** Optional values, results of operations that may fail, and JavaScript truthiness of optional strings. */
module Results {

  /** A value that may be absent (`undefined` in the source). */
  datatype Option<+T> = None | Some(value: T)

  /** The value of an operation, or the error it throws. */
  datatype Result<+T, +E> = Success(value: T) | Failure(error: E)

  /** `if (s)` on an optional string: present and not the empty string. */
  predicate Truthy(s: Option<string>) {
    s.Some? && s.value != ""
  }
}
