/** Small wrappers and helpers shared by every module of the model. */
module Base {

  /** A value that may be absent: TypeScript's `T | undefined` or `T | null`. */
  datatype Option<+T> = None | Some(value: T)

  /** The settled state of a promise: resolved with a value, or rejected with an error message. */
  datatype Outcome<+T> = Ok(value: T) | Err(error: string)

  function Max(a: int, b: int): int { if a < b then b else a }

  function Min(a: real, b: real): real { if a < b then a else b }
}
