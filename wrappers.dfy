/** Optional values, and exceptions turned into returned values. */
module Wrappers {

  /** A Java `null`, a Python `None` or a C++ `nullptr`, or a present value. */
  datatype Option<+T> = None | Some(value: T)

  /** The exceptions the modelled code throws, one constructor per language. */
  datatype Thrown =
    | IllegalArgumentException(message: string)  // Java
    | InvalidArgument(message: string)           // C++ std::invalid_argument
    | ValueError(message: string)                // Python

  /** The outcome of a call that returns nothing but may throw. */
  datatype Outcome = Pass | Fail(error: Thrown)

  /** The outcome of a call that returns a value or throws. */
  datatype Result<+T> = Ok(value: T) | Err(error: Thrown)
}
