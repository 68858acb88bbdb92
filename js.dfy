/** JavaScript values the data-access layer relies on: `null`, thrown values and truthiness. */
module Js {

  /** A variable that is either `null` or holds a value. */
  datatype Option<+T> = None | Some(value: T)

  /** What a JavaScript `throw` can carry here: a thrown string literal, or the
      TypeError raised when a property of `undefined` is read. */
  datatype Exception = Thrown(message: string) | TypeError

  /** The outcome of an operation that either returns a value or throws. */
  datatype Result<+T> = Ok(value: T) | Throw(exception: Exception)

  /** JavaScript truthiness of a string: only the empty string is falsy. */
  predicate StringTruthy(s: string) {
    s != ""
  }

  /** JavaScript truthiness of an object reference: every object is truthy. */
  predicate ObjectTruthy<V>(v: V) {
    true
  }
}
