/** The absent-or-present value the engine uses for squares, pieces and slots. */
module Wrappers {

  datatype Option<+T> = None | Some(value: T)

  function Max(a: int, b: int): int { if a < b then b else a }
}
