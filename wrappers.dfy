/** Optional values and data-or-error results shared by the composable models.
    `None` stands for a JavaScript `null` or `undefined`; `Failure` for the
    `error` half of a `{ data, error }` response of the hosted data service. */
module Wrappers {

  datatype Option<+T> = None | Some(value: T)

  datatype Result<+R, +E> = Success(value: R) | Failure(error: E)
}
