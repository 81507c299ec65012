/** Failure-carrying result types shared by the models of the build-script generator and the CPU shim. */
module Wrappers {

  /** A value that may be absent, as an optional parameter or a field not yet set. */
  datatype Option<T> = None | Some(value: T)

  /** The value an operation computes, or the error it raises instead. */
  datatype Result<T, E> = Ok(value: T) | Err(error: E)

  /** The outcome of an operation that computes nothing but may raise an error. */
  datatype Outcome<E> = Pass | Fail(error: E)
}
