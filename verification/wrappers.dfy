/** How the client model represents Python's absent arguments and raised
    errors: `Option` is an argument that may be `None`, and `Result` is either
    what a client method returns or the `APIKeyError` it raises, with `:-`
    standing for the exception propagating out of the method. */
module Wrappers {

  /** A value that may be absent, the model of a Python argument defaulting to `None`. */
  datatype Option<+T> = None | Some(value: T)

  /** Either the value an operation returns or the exception it raises. */
  datatype Result<+R, +E> = Success(value: R) | Failure(error: E) {

    predicate IsFailure() {
      Failure?
    }

    function PropagateFailure<U>(): Result<U, E>
      requires Failure?
    {
      Failure(error)
    }

    function Extract(): R
      requires Success?
    {
      value
    }

    /** Applies `f` to a returned value and passes a raised error through. */
    function MapValue<U>(f: R -> U): (r: Result<U, E>)
      ensures r.Success? <==> Success?
      ensures Success? ==> r.value == f(value)
      ensures Failure? ==> r.error == error
    {
      match this
      case Success(v) => Success(f(v))
      case Failure(e) => Failure(e)
    }
  }
}
