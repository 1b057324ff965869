/** Values shared by the server utilities: optional values, results, and the
    completion of a JavaScript call (a returned value or a thrown error). */
module JsValues {

  /** An optional value; `None` also stands for `undefined`/`null`. */
  datatype Option<+T> = None | Some(value: T)

  /** A success value or an error value. */
  datatype Result<+T, +E> = Success(value: T) | Failure(error: E)

  /** A thrown JavaScript error, reduced to its `name` and `message`. */
  datatype JsError = JsError(name: string, message: string)

  /** How a call ended: it returned (a promise counts as its resolved value)
      or it threw (a rejected promise counts as a throw). */
  datatype Completion<+V> = Normal(value: V) | Abrupt(error: JsError)

  /** JavaScript truthiness of an optional string: `undefined`, `null` and
      the empty string are falsy. */
  predicate Truthy(s: Option<string>)
  {
    s.Some? && s.value != ""
  }
}
