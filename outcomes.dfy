/** Optional values and results with an error, shared by every module of the model. */
module Outcomes {

  /** A value that may be missing (Python's None, a missing dict key). */
  datatype Option<+T> = None | Some(value: T) {
    function GetOr(default: T): T {
      match this
      case Some(v) => v
      case None => default
    }
  }

  /** The outcome of an operation that can fail with an error `E`. */
  datatype Result<+T, +E> = Ok(value: T) | Err(error: E)

  /** An HTTP error raised by a handler, as FastAPI's HTTPException. */
  datatype HttpError = HttpError(status: int, detail: string)
}
