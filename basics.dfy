/** Small failure-carrying datatypes shared by the other modules. */
module Basics {

  /** A value that may be absent: Java's nullable references. */
  datatype Option<+T> = None | Some(value: T)

  /** The value a computation returns, or the message of the exception it throws. */
  datatype Result<+T> = Success(value: T) | Failure(message: string)
}
