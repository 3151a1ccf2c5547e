/** What the Express handlers share: a reply that is either HTTP 400 with
    an error text or a body, and JavaScript truthiness of request fields. */
module Http {
  import opened Numeric

  datatype Reply<T> = BadRequest(error: string) | Ok(body: T)

  /** `!x` is false: the field is there (Some) and not the empty string. */
  predicate Present(x: Option<string>)
  {
    x.Some? && x.value != ""
  }
}
