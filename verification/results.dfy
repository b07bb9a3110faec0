/** The success/failure container every factory of the domain returns, and the
    nullable reference a C# `string?` is. */
module Results {

  /** A C# nullable reference: `None` is `null`. */
  datatype Option<+T> = None | Some(value: T)

  /** Either the constructed value or the ordered list of validation messages. */
  datatype Result<+T> = Ok(value: T) | Fail(errors: seq<string>)
}
