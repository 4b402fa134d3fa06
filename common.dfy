/** Shared vocabulary: bytes, optional values, results and the JavaScript
    errors the radio driver can throw. */
module Common {

  /** One element of a `Uint8Array`. */
  type byte = x: int | 0 <= x < 256

  /** A value that may be `undefined`. */
  datatype Option<+T> = None | Some(value: T)

  /** A call that either returns a value or throws. */
  datatype Result<+T, +E> = Success(value: T) | Failure(error: E)

  /** A call that returns nothing or throws. */
  datatype Outcome<+E> = Pass | Fail(error: E)

  /** What the driver throws: the engine's `RangeError` and `TypeError`, and
      `new Error(message)` from the driver's own `throw` statements. */
  datatype JsError = RangeError | TypeError | Thrown(message: string)
}
