/** What several models share. */
module Basics {

  datatype Option<+T> = None | Some(value: T)

  datatype Result<+T, +E> = Ok(value: T) | Err(error: E)

  function Min(a: int, b: int): int { if a < b then a else b }

  function Max0(x: int): (r: nat)
    ensures r >= x
  {
    if x < 0 then 0 else x
  }
}
