// Small wrappers shared by every module of the model: an optional value
// (a dictionary key that may be missing, a `None` return) and the outcome of
// a Python expression that may raise.

module Base {

  datatype Option<T> = None | Some(value: T) {
    /** `d.get(k, default)`: the stored value, or the default when absent. */
    function GetOr(default: T): (r: T)
      ensures Some? ==> r == value
      ensures None? ==> r == default
    {
      match this
      case Some(v) => v
      case None => default
    }
  }

  /** The Python exceptions the modelled string code can raise. */
  datatype Exception =
    | UnpackError    // ValueError: `a, b = s.split(sep)` with the wrong number of parts
    | IndexError     // `s[0]` on an empty string
    | NotFoundError  // ValueError: `s.index(sub)` when `sub` does not occur
    | FormatError    // TypeError or ValueError: `template % args` whose conversions and arguments do not match
    | TransportError // an exception of the HTTP library that the caller does not catch
    | ValidationError // a field value that a model's validator rejects

  datatype Result<T> = Ok(value: T) | Raised(error: Exception)

  /** Concatenation regroups freely. */
  lemma AppendAssociates<T>(a: seq<T>, b: seq<T>, c: seq<T>)
    ensures a + b + c == a + (b + c)
  {
  }
}
