/** What a route handler answers: a status code with either a body or an error message. */
module Http {
  import opened Wrappers

  datatype Reply<+T> = Ok(status: int, body: T) | Error(status: int, message: string)

  /**
   * JavaScript truthiness of an optional string field of a request body:
   * a missing field and the empty string are both falsy.
   */
  predicate Given(s: Option<string>) {
    s.Some? && s.value != ""
  }
}
