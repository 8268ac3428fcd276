/** Small wrapper types shared by the game models. */
module Util {

  /** Python's `None` / a present value. */
  datatype Option<+T> = None | Some(value: T)

  /** An operation that may raise: Ok(value) or the error it raises. */
  datatype Result<+T, +E> = Ok(value: T) | Err(error: E)

  function Min(a: int, b: int): (r: int)
    ensures r <= a && r <= b && (r == a || r == b)
  {
    if a <= b then a else b
  }

  function Max(a: int, b: int): (r: int)
    ensures r >= a && r >= b && (r == a || r == b)
  {
    if a >= b then a else b
  }
}
