/**
 * Outcome wrappers shared by the model: an optional value (Go's nil-able
 * pointer or "ok" flag) and a value-or-error pair (Go's (T, error) returns).
 */
module Results {

  datatype Option<T> = None | Some(value: T)

  datatype Result<T> = Success(value: T) | Failure(error: string)
  {
    predicate IsFailure() { Failure? }
  }
}
