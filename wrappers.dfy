/** Option and Result, the failure-compatible wrappers the rest of the model
    uses in place of Python's `None` and raised exceptions. */
module Wrappers {

  datatype Option<+T> = None | Some(value: T) {
    function GetOr(default: T): T {
      match this
      case Some(v) => v
      case None => default
    }
  }

  /** A computation that either produced a value or raised `error`. */
  datatype Result<+T, +E> = Ok(value: T) | Err(error: E) {
    predicate IsFailure() { Err? }

    function PropagateFailure<U>(): Result<U, E>
      requires Err?
    {
      Err(error)
    }

    function Extract(): T
      requires Ok?
    {
      value
    }
  }

  /** A computation run for its effect that either completed or raised `error`. */
  datatype Outcome<+E> = Pass | Fail(error: E) {
    predicate IsFailure() { Fail? }

    function PropagateFailure(): Outcome<E>
      requires Fail?
    {
      this
    }
  }
}

/** The exceptions the core raises or lets escape, as one closed type. */
module Exceptions {

  datatype Failure =
    | AllDataReceived              // AllDataReceivedException: every question is answered
    | UserInputExpired             // no stored answer set for the identity
    | UserMessageValidationFailed  // the answer failed its key-specific check
    | NotImplemented               // NotImplementedError from a decoder or the classifier
    | KeyError(key: string)        // a required key is absent from a payload or the store
    | TypeError                    // a payload value that cannot be indexed or has the wrong type
    | AttributeError               // `.get` or `.lower` on a value that has no such method
    | ValueError                   // int() or strptime() rejected a stored answer
}
