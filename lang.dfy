/** Java notions the dispatch code leans on: a nullable reference as an
    Option, and a thrown exception as the error side of a Result. */
module Lang {

  /** A reference that may be null. */
  datatype Option<+T> = None | Some(value: T)

  /** The exception classes the dispatch code throws, catches or lets through. */
  datatype ExceptionClass =
    | RuntimeException
    | IllegalArgumentException
    | ClassCastException
    /** any exception raised by code outside the model (controllers, views, constructors) */
    | ApplicationException(name: string)

  /** A thrown exception: its class and what `getMessage()` returns (None for null). */
  datatype Exception = Exception(cls: ExceptionClass, message: Option<string>)

  /** The outcome of a Java call: a returned value or a thrown exception. */
  datatype Result<+T> = Ok(value: T) | Err(error: Exception)

  /** `new RuntimeException()`: no message. */
  const BareRuntimeException: Exception := Exception(RuntimeException, None)

  /** `new RuntimeException(e.getMessage())`: keeps only the message of `e`. */
  function Rewrap(e: Exception): (r: Exception)
    ensures r.cls == RuntimeException && r.message == e.message
  {
    Exception(RuntimeException, e.message)
  }
}
