/** Values shared by the stores and the catalog service: optional values,
    the outcome of an operation that can throw, and what can be thrown. */
module Shared {

  datatype Option<+T> = None | Some(value: T) {
    function GetOr(default: T): T {
      match this
      case Some(v) => v
      case None => default
    }
  }

  /** What an operation of the storefront can throw. */
  datatype Failure =
    | NotFound              // `new Error('Item not found')` of the local cache update
    | InvalidJson           // the SyntaxError of `JSON.parse(undefined)` (a local fetchById miss)
    | Remote(message: string)  // a rejected HTTP call, carrying the Error's message
    | NotAnError            // a thrown value that is not an Error instance
    | EmptyOrder            // the order store's validation error

  /** `error.message` for the failures that are Error instances. */
  function Message(f: Failure): (m: Option<string>)
    ensures m.None? <==> f == NotAnError
  {
    match f
    case NotFound => Some("Item not found")
    // `JSON.parse(undefined)` throws a SyntaxError whose wording depends on the
    // JavaScript engine; this is V8's. Nothing in the stores reads it.
    case InvalidJson => Some("\"undefined\" is not valid JSON")
    case Remote(msg) => Some(msg)
    case NotAnError => None
    case EmptyOrder => Some("注文対象が選択されていません。")
  }

  /** The outcome of an operation that returns a value or throws. */
  datatype Result<+T> = Ok(value: T) | Err(error: Failure)

  /** What the browser's local storage holds under one key, as seen by JSON.parse. */
  datatype Stored<+T> =
    | Absent               // no entry, or the empty string (both falsy)
    | Unparsable           // text that is not JSON
    | NotAList             // JSON that is not an array
    | List(elems: seq<T>)  // a JSON array of well-formed records
}
