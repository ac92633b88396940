/** Vocabulary shared by every module of the model. */
module Basics {
  datatype Option<+T> = None | Some(value: T)

  /** The value inside, or `default` where the source dereferences nothing. */
  function GetOr<T>(o: Option<T>, default: T): T {
    match o
    case Some(v) => v
    case None => default
  }

  function Min(a: int, b: int): int {
    if a <= b then a else b
  }

  function Max(a: int, b: int): int {
    if a <= b then b else a
  }

  type ClientId = string
}
