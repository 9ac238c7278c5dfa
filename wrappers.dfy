/** Option and Result, the model's stand-ins for Java's null and for thrown exceptions. */
module Wrappers {

  /** `None` plays the part of a Java `null` reference. */
  datatype Option<+T> = None | Some(value: T)

  /** `Err` plays the part of an exception that aborts the current call. */
  datatype Result<+T, +E> = Ok(value: T) | Err(error: E)
}
