/** Option and Result values shared by the modules of this model. */
module Common {

  datatype Option<T> = None | Some(value: T)

  /** The outcome of a call that either produces a value or raises an error. */
  datatype Result<T, E> = Success(value: T) | Failure(error: E)
}
