/** Optional values and fallible results shared by the task and auth modules. */
module Wrappers {

  /** A value that may be absent (a JavaScript `undefined` / `null`). */
  datatype Option<+T> = None | Some(value: T) {
    function GetOr(default: T): T {
      match this
      case Some(v) => v
      case None => default
    }
  }

  /** The reason a call into the persistence adapter rejects. */
  datatype ApiError =
    | NotFound   // the adapter's `throw new Error('Not found')`
    | Transport  // any other rejection of the promise (network, storage)

  /** The settled outcome of an adapter promise. */
  datatype Result<+T> = Ok(value: T) | Err(error: ApiError)
}
