/** Option and Result wrappers shared by every module of the model. */
module Results {

  /** A value that may be absent: JavaScript's `undefined` and Solidity's missing mapping entry. */
  datatype Option<+T> = None | Some(value: T)

  /** The outcome of an operation that either succeeds or reverts/throws with a typed error. */
  datatype Result<+T, +E> = Ok(value: T) | Err(error: E)
}
