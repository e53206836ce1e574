/** Failure-carrying values shared by the modules of this model. */
module Results {

  /** A value that may be absent, as a missing JSON field or a library call that raised. */
  datatype Option<+T> = None | Some(value: T)

  /** The outcome of a step that can raise: a value, or the error it raised. */
  datatype Result<+T, +E> = Ok(value: T) | Err(error: E)
}
