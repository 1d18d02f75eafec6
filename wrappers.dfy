/** Small value types shared by every module of the model. */
module Wrappers {

  /** An optional value: Go's `(T, error)` pairs and map lookups whose failure
      carries no information the model needs. */
  datatype Option<+T> = None | Some(value: T)

  /** What a Go function can do: return a value, return an error, or panic. */
  datatype Outcome<+T> = Ok(value: T) | Err(error: string) | Panic(message: string)
}

/** Go's `byte`: an unsigned 8-bit integer. */
module Bytes {

  type byte = b: int | 0 <= b < 256
}
