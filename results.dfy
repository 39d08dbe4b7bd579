/** Optional values, results and the exceptions the pipeline raises, as values. */
module Results {

  /** Python's `None` or a value. */
  datatype Option<+T> = None | Some(value: T) {
    function GetOr(default: T): T {
      match this
      case Some(v) => v
      case None => default
    }
  }

  /** The exceptions raised (and possibly caught) along the pipeline. */
  datatype Error =
    | ValueError(arg: string)                        // bad caption type
    | CaptionNotFound(captionType: string, langCode: string)
    | KeyError(key: string)                          // a dict lookup on a missing key
    | IndexError                                     // a list index out of range
    | TypeError                                      // a value of the wrong shape
    | HttpError(status: int)                         // raise_for_status on a failed fetch
    | AssertionError(msg: string)                    // a failed `assert`
    | BulkWriteError                                 // insert_many hit a duplicate key
    | NotFoundError(id: string)                      // a search-index document lookup missed

  /** A computation that returns a value or raises. */
  datatype Result<+T> = Ok(value: T) | Err(error: Error)

  /** Python truthiness of an optional string: neither None nor "". */
  predicate Truthy(s: Option<string>) {
    s.Some? && s.value != ""
  }
}
