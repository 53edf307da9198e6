/** Small value types shared by the whole model. */
module Common {

  /** A value that may be absent: JavaScript's `null` / `undefined`. */
  datatype Option<+T> = None | Some(value: T)

  /** The outcome of an awaited call: a value, or what it threw. */
  datatype Result<+R, +E> = Success(value: R) | Failure(error: E)

  /** What a JavaScript `throw` or a rejected promise carries: an `Error` object
      with its message, or any other value. */
  datatype Exception = ErrorObject(message: string) | OtherValue

  function Min(a: int, b: int): int
  {
    if a <= b then a else b
  }
}
