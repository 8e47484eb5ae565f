/** Vocabulary shared by every part of the model. */
module Basics {
  /** Row keys: the program uses random UUIDs, of which only equality matters. */
  type Id = nat

  datatype Option<+T> = None | Some(value: T)

  function Max(a: int, b: int): int {
    if a >= b then a else b
  }
}
