/** Value shapes shared by every part of the backend: an optional JSON field,
    the exceptions a route can raise, and the outcome of a route. */
module Common {

  /** A JSON field that may be missing (`d.get("k")` returning None). */
  datatype Option<+T> = None | Some(value: T) {

    /** `d.get("k", default)`. */
    function GetOr(default: T): T {
      match this
      case Some(v) => v
      case None => default
    }
  }

  /** The exceptions the handlers raise or let escape. */
  datatype Error =
    | HttpError(status: int, detail: string)  // raise HTTPException(status_code=..., detail=...)
    | KeyError(key: string)                   // d["key"] on a missing key
    | ZeroDivisionError                       // x / 0.0
    | Wrapped(status: int, context: string, cause: Error)
      // except Exception as e: raise HTTPException(status, f"{context}: {str(e)}")

  /** What a route returns: its response body, or the exception it ends with. */
  datatype Result<+T> = Ok(value: T) | Err(error: Error)

  /** The HTTP status the client finally sees; the framework answers 500 to
      any exception that is not an HTTPException. */
  function StatusOf(e: Error): int {
    match e
    case HttpError(s, _) => s
    case Wrapped(s, _, _) => s
    case _ => 500
  }

  /** Python's `seconds // 60`: floor division. Dafny's `/` is Euclidean,
      which agrees with flooring for a positive divisor. */
  function FloorMinutes(seconds: int): (m: int)
    ensures m * 60 <= seconds < m * 60 + 60
  {
    seconds / 60
  }
}
