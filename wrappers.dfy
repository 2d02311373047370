/** Option and Result, for Java's null and for the RuntimeExceptions the cursor throws. */
module Wrappers {

  /** `None` stands for Java's `null`. */
  datatype Option<+T> = None | Some(value: T)

  /** `Err` stands for a thrown exception, `Ok` for a normal return. */
  datatype Result<+T, +E> = Ok(value: T) | Err(error: E)
}
