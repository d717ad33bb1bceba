/** Values shared by every component: optional values and outcomes of operations that can fail. */
module Basics {
  datatype Option<+T> = None | Some(value: T)

  datatype Result<+T, +E> = Ok(value: T) | Err(error: E)

  // Row identifiers. The program draws them from a random source and relies on their being fresh.
  type Id = nat
}
