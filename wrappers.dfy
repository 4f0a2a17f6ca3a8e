/** The optional-value and success-or-error datatypes shared by every module of the model. */
module Wrappers {

  /** A value that may be missing (JavaScript's `undefined` / `null`). */
  datatype Option<+T> = None | Some(value: T)

  /** The outcome of a call that can fail (a thrown error or an `{ error }` reply). */
  datatype Result<+T, +E> = Ok(value: T) | Err(error: E)
}

/** User identifiers as the store and the token payloads carry them. */
module Identity {
  import opened Wrappers

  /** The store's numeric `id` column. */
  type UserId = nat

  /** JavaScript truthiness of an id that may be absent: `undefined` and `0` are falsy. */
  predicate Truthy(id: Option<UserId>)
  {
    id.Some? && id.value != 0
  }
}
