/** Shared value types: optional values, results, and the identifiers the
    storefront passes around (Mongo object ids, modelled as naturals). */
module Base {

  /** A value that may be absent: `null`/`undefined` in the JavaScript code. */
  datatype Option<+T> = None | Some(value: T)

  /** A success value or an error passed on to the error handler. */
  datatype Result<+T, +E> = Success(value: T) | Failure(error: E)

  type ProductId = nat

  type UserId = nat
}
