/** Types and small functions shared by every part of the model. */
module Basics {

  /** An order's row in the orders table. */
  type OrderId = nat

  const UINT64 := 0x1_0000_0000_0000_0000

  datatype Option<+T> = None | Some(value: T)

  datatype Result<+T, +E> = Ok(value: T) | Err(error: E)

  function Max(x: int, y: int): int {
    if x < y then y else x
  }

  function Min(x: int, y: int): int {
    if x < y then x else y
  }
}
