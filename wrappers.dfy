/** Optional values, results and the JavaScript notions of "falsy" and "thrown value"
    that every other module of the model uses. */
module Wrappers {

  datatype Option<+T> = None | Some(value: T)

  /** A computation that either returns a value or throws an `Error` with the given message. */
  datatype Result<+T> = Ok(value: T) | Err(error: string)

  /** A value caught by a `catch` clause: an `Error` object, or anything else that was thrown. */
  datatype Thrown = ErrorObject(message: string) | OtherValue

  /** The message shown for a caught value: `error instanceof Error ? error.message : 'Unknown error'`. */
  function MessageOf(t: Thrown): (m: string)
    ensures t.ErrorObject? ==> m == t.message
    ensures t.OtherValue? ==> m == "Unknown error"
  {
    match t
    case ErrorObject(msg) => msg
    case OtherValue => "Unknown error"
  }

  /** An optional string is truthy when it is present and not empty. */
  predicate Truthy(o: Option<string>) {
    o.Some? && o.value != ""
  }

  /** JavaScript `o || d` for an optional string. */
  function Or(o: Option<string>, d: string): (r: string)
    ensures Truthy(o) ==> r == o.value
    ensures !Truthy(o) ==> r == d
  {
    if Truthy(o) then o.value else d
  }
}
