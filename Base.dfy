/** Failure-carrying wrappers shared by the store and backend modules. */
module Base {

  /** A value that may be absent: JavaScript's `null`/`undefined`, Python's `None`. */
  datatype Option<+T> = None | Some(value: T)

  /** The outcome of an operation that either succeeds or throws / returns an error. */
  datatype Result<+T, +E> = Ok(value: T) | Err(error: E)

  /** JavaScript/Python truthiness of an optional string: absent and "" are falsy. */
  predicate Truthy(s: Option<string>)
  {
    s.Some? && s.value != ""
  }
}
