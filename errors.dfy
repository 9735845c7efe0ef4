/** Failure values of the calculator.  Every exception the program can raise
    on inputs within floating-point range becomes one case of `Error`, and an
    operation that can raise returns a `Result`. */
module Errors {

  datatype Option<+T> = None | Some(value: T)

  datatype Error =
    | UnknownWorkoutType          // the tag is not a key of the factory table
    | ArityMismatch               // the reading list does not fit the constructor
    | NotImplemented(className: string)  // calories asked of the bare base class
    | DivisionByZero              // a zero duration or a zero height was divided by

  datatype Result<+T> = Ok(value: T) | Err(error: Error)
}
