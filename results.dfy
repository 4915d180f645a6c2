/** Failure-compatible wrappers shared by the model: an optional value (a Java
    reference that may be null) and a result that is either a value or an error
    (a call that returns or throws). */
module Results {

  datatype Option<+T> = None | Some(value: T)

  datatype Result<+T, +E> = Success(value: T) | Failure(error: E)
}
