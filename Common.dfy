/** Small shared vocabulary: optional values, the outcome of a remote call,
    and JavaScript truthiness of a `string | null`. */
module Common {

  datatype Option<+T> = None | Some(value: T)

  /** The outcome of one awaited API call: the parsed payload, or the message
      of the error it threw. */
  datatype Fetch<+T> = Ok(value: T) | Failed(message: string)

  /** `!!x` for `x: string | null | undefined`: only a present, non-empty
      string is truthy. */
  predicate Truthy(x: Option<string>)
  {
    x.Some? && x.value != ""
  }
}
