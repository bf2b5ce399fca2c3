/** Small value types shared by the rest of the model. */
module Basics {

  /** A value that may be missing: Python's `None` or a dictionary key that `.get` did not find. */
  datatype Option<+T> = None | Some(value: T) {
    function GetOr(default: T): T {
      match this
      case Some(v) => v
      case None => default
    }
  }

  /** The outcome of a Python call that either returns or raises; the error is `str(e)`. */
  datatype Result<+T> = Ok(value: T) | Err(message: string)

  /**
   * What the metadata extractor gave back for one URL: it raised (with some
   * message), or it returned a record or None.
   */
  datatype Extraction<+T> = Raised(message: string) | Returned(info: Option<T>)

  /** The zero- or one-element sequence holding an optional value. */
  function SeqOf<T>(o: Option<T>): (s: seq<T>)
    ensures |s| <= 1
    ensures o.Some? <==> |s| == 1
    ensures o.Some? ==> s[0] == o.value
  {
    match o
    case None => []
    case Some(v) => [v]
  }
}
