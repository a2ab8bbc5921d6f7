/** Go's error returns, modelled as values. */
module Outcomes {

  /** The `error` a Go function returns: nil, or an error carrying its message. */
  datatype Outcome = Ok | Err(message: string)

  /** A value together with a nil error, or a non-nil error. The `IsFailure`
      members let `:-` model Go's `if err != nil { return ..., err }`. */
  datatype Result<T> = Success(value: T) | Failure(message: string) {
    predicate IsFailure() { Failure? }

    function PropagateFailure<U>(): Result<U>
      requires Failure?
    {
      Failure(message)
    }

    function Extract(): T
      requires Success?
    {
      value
    }
  }

  /** A value that may be absent (a nil function value, a sample not observed). */
  datatype Option<T> = None | Some(value: T)
}
