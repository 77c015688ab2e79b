/** JavaScript values the guard reads: a value that may be `undefined`, and truthiness. */
module JsValues {

  datatype Option<+T> = None | Some(value: T)

  /** JavaScript truthiness of a value of type `string | undefined`:
      `undefined` and the empty string are falsy, every other string is truthy. */
  predicate Truthy(s: Option<string>)
  {
    s.Some? && s.value != ""
  }
}
