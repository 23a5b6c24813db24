/** Small value types shared by every module of the model. */
module Common {

  /** A JSON field that may be absent from a response. */
  datatype Option<T> = None | Some(value: T) {
    /** The field's value, or `default` when it is absent (Python's `dict.get(key, default)`). */
    function GetOr(default: T): T {
      match this
      case Some(v) => v
      case None => default
    }
  }

  /** The answer to a single remote `get` call: the document, or the text of the raised exception. */
  datatype Fetch<T> = Found(value: T) | Failed(message: string)

  /** Python's `min` on two counts. */
  function Min(a: nat, b: nat): nat {
    if a <= b then a else b
  }
}
