/** What several modules share. */
module Basics {
  type Task = nat

  type Byte = x: int | 0 <= x < 256

  datatype Option<T> = None | Some(value: T)

  function Larger(a: nat, b: nat): nat { if a < b then b else a }
}
