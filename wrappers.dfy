/** Failure-compatible wrappers: `Option` stands for a Java reference that may be
    null, `Result` for a call that either returns a value or throws. */
module Wrappers {

  datatype Option<+T> = None | Some(value: T)

  datatype Result<+T, +E> = Success(value: T) | Failure(error: E) {
    predicate IsFailure() {
      Failure?
    }

    function PropagateFailure<U>(): Result<U, E>
      requires Failure?
    {
      Failure(error)
    }

    function Extract(): T
      requires Success?
    {
      value
    }
  }
}

/** The Java exceptions the modelled code can raise or let through. */
module JavaExceptions {
  datatype Throwable =
    | NullPointerException(site: string)
    | IllegalArgumentException(message: string)
    /** Any exception raised by code outside the model (Groovy, the XML
        configuration, the load generator, the store client). */
    | ForeignException(message: string)
}
