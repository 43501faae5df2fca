/** Option and Result, the two outcome shapes used throughout the model. */
module Wrappers {

  datatype Option<+T> = None | Some(value: T)

  /** A computation that either yields a value or fails with an error. */
  datatype Result<+T, +E> = Success(value: T) | Failure(error: E)
}

/** The Python exception classes the command layer can raise. */
module Exceptions {

  datatype PyException =
    | ValueError      // raised on purpose for a bad command line, and by `bytes.fromhex`
    | NameError       // a name used that is not bound where it is used
    | AttributeError  // an attribute read that the object does not have
}
