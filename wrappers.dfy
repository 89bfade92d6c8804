/** Failure-carrying values: the Python code's exceptions and `None` results. */
module Wrappers {

  /** The exceptions the modelled code can raise. */
  datatype Exception =
    | InvalidId                        // bson `ObjectId(...)` on text that is not 24 hex digits
    | DuplicateKey                     // `insert_one` with an `_id` that is already taken
    | MissingField(field: string)      // `document[key]` on a missing key (KeyError)
    | UnknownTimeZone(zone: string)    // `pytz.timezone(name)` on an unknown name
    | TypeError                        // a call with a missing positional argument
    | AttributeError                   // a call of a method the object does not have
    | IndexError                       // `parts[1]` on a one-element list

  datatype Option<+T> = None | Some(value: T) {
    function GetOr(default: T): T {
      match this
      case Some(v) => v
      case None => default
    }
  }

  datatype Result<+T> = Ok(value: T) | Err(error: Exception)

  /** The result of a step that returns nothing but may raise. */
  datatype Outcome = Pass | Fail(error: Exception)
}
