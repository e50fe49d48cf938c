/** Failure-compatible wrappers shared by every pipeline module.
    `Result` stands for a Python call that either returns a value or raises;
    the exception kinds the pipelines raise are the constructors of `Error`.
 */
module Results {

  /** The exceptions a pipeline run can surface to its caller. The kinds are
      kept flat: in Python a JSON decoding error is a subclass of ValueError,
      a relation this datatype does not record. */
  datatype Error =
    | ValueError(message: string)   // an invalid argument, e.g. an empty source path
    | TypeError(message: string)    // a decoded value of the wrong shape
    | DecodeError(message: string)  // malformed JSON or CSV text
    | ReadError(message: string)    // the reader could not produce the text

  /** An optional value; `None` plays the part of Python's `None`. */
  datatype Option<+T> = None | Some(value: T)

  /** Either a returned value or a raised `Error`; usable with `:-`. */
  datatype Result<+T> = Success(value: T) | Failure(error: Error) {

    predicate IsFailure() {
      Failure?
    }

    function PropagateFailure<U>(): Result<U>
      requires Failure?
    {
      Failure(error)
    }

    function Extract(): T
      requires Success?
    {
      value
    }
  }
}
