/** Null-or-value and value-or-exception wrappers used by the rest of the model. */
module Results {

  /** A C# reference that may be null: None stands for null. */
  datatype Option<+T> = None | Some(value: T)

  /** The outcome of a call that returns a value or throws. */
  datatype Result<+T, +E> = Ok(value: T) | Err(error: E)
}
