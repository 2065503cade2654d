/** Shared value types: optional values, the exceptions the modelled code can raise,
    and Python's `dict.get(key, default)`. */
module Common {

  /** A value that may be absent (Python's `None`). */
  datatype Option<+T> = None | Some(value: T) {
    function GetOr(default: T): T {
      match this
      case Some(v) => v
      case None => default
    }
  }

  /** The exceptions raised by the modelled code on inputs it does not handle. */
  datatype Fault = KeyError(key: string) | ZeroDivisionError | AttributeError | TypeError | ValueError | IntegrityError

  /** A computation that returns a value or raises. */
  datatype Result<+T> = Ok(value: T) | Err(error: Fault)

  /** `d.get(key, default)` */
  function Get<V>(d: map<string, V>, key: string, default: V): (v: V)
    ensures key in d ==> v == d[key]
    ensures key !in d ==> v == default
  {
    if key in d then d[key] else default
  }
}
