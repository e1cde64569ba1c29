/** Small shared vocabulary: optional values (JavaScript's null/undefined) and
    the shape of a failed HTTP call as the components see it. */
module Common {

  /** A value that may be absent (`null` or `undefined` in the program). */
  datatype Option<+T> = None | Some(value: T)

  /** JavaScript truthiness of an optional string: absent and "" are falsy. */
  predicate Present(s: Option<string>)
  {
    s.Some? && s.value != ""
  }

  /** A rejected request: `responseMessage` is `err.response.data.message` when
      the server answered, and `json` is what `JSON.stringify(err)` yields. */
  datatype HttpError = HttpError(responseMessage: Option<string>, json: string)
}
