/** Option and result types shared by the whole model. */
module Wrappers {

  /** A value that may be absent (a nullable column, a query's `.first()`). */
  datatype Option<T> = None | Some(value: T)

  /** The failures a request can end in. NotFound covers both a missing row and a
      row owned by another user: the two are indistinguishable to the caller. */
  datatype Error =
    | NotFound
    | Conflict            // a unique constraint rejected the write
    | MissingApiKey       // the generation provider is not configured
    | ProviderError(message: string)

  datatype Result<T> = Ok(value: T) | Err(error: Error)
}
