/** Optional values and results with an error, used where the C# code uses null or throws. */
module Wrappers {

  /** `None` stands for a C# null reference. */
  datatype Option<+T> = None | Some(value: T)

  /** `Err` stands for an exception that leaves the call. */
  datatype Result<+T, +E> = Ok(value: T) | Err(error: E)
}
