/** What several of the modules need. */
module Wrappers {

  datatype Option<T> = None | Some(value: T)

  function Min(a: int, b: int): int { if a < b then a else b }

  function Max(a: int, b: int): int { if a < b then b else a }

  /** The same for reals. */
  function Least(a: real, b: real): real { if a < b then a else b }

  function Greatest(a: real, b: real): real { if a < b then b else a }
}
