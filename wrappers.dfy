/** Option and Result types shared by the whole model. */
module Wrappers {
  /** A Java reference that may be null, or a JPA `Optional`. */
  datatype Option<T> = None | Some(value: T)

  /** The exception classes the services throw and the controllers map to HTTP statuses. */
  datatype ErrorKind =
    | NotFound          // ResourceNotFoundException
    | IllegalState      // IllegalStateException
    | IllegalArgument   // IllegalArgumentException
    | Runtime           // RuntimeException, or any other unchecked exception (NPE, NoSuchElementException, ...)

  /** The value a Java method returns, or the exception it throws. */
  datatype Result<T> = Ok(value: T) | Err(error: ErrorKind)
}
