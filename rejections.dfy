/**
 * The three ways a selection can be rejected, in the order in which they are
 * checked, and a result type that carries either a value or one of them.
 */
module Rejections {

  datatype Rejection = InvalidSlot | OutOfStock | InsufficientFunds

  datatype Result<+T> = Ok(value: T) | Err(error: Rejection)
}
