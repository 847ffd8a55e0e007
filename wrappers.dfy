/** Optional values and results, used in place of Python's `None` and of raised exceptions. */
module Wrappers {

  /** `None` stands for Python's `None`, `Some(v)` for a present value. */
  datatype Option<+T> = None | Some(value: T)

  /** The outcome of a Python call: the value it returned, or the exception it raised. */
  datatype Result<+T, +E> = Ok(value: T) | Err(error: E)
}

/** The kinds of exception the modelled code raises or catches. */
module Exceptions {
  import opened Wrappers

  datatype Exc =
    | ClientError                    // aiohttp.ClientError: a transport failure, or a body whose Content-Type is not JSON
    | StatusError(status: int)       // the plain Exception raised for an upstream status code
    | ValueError                     // update_env_tokens without both token keys, or malformed JSON (json.JSONDecodeError)
    | KeyError                       // subscripting a dict with a missing key
    | IndexError                     // subscripting an empty list
    | TypeError                      // subscripting a value that cannot be subscripted that way
    | AttributeError                 // calling a str method on None (a message without text) or on a non-string answer
    | ApiError                       // the client's own APIError
    | FileNotFound                   // opening a database file that does not exist
    | ForeignKeyViolation            // inserting a session for a login that is not in the login table
    | SendFailed                     // Telegram refused a bot.send_message call
    | RetryError                     // tenacity giving up after the last allowed attempt

  /** The exceptions the poll step is retried on: aiohttp.ClientError and APIError. */
  predicate Retryable(e: Exc)
  {
    e.ClientError? || e.ApiError?
  }

  /** What a response body is to aiohttp's `response.json()`: a document (an empty body reads
      as JSON `null`), a body whose Content-Type is not JSON, or malformed JSON text. */
  datatype JsonBody<+T> = Decoded(doc: T) | WrongContentType | Malformed

  /** `await response.json()`: the document, a ContentTypeError (a ClientError) for the wrong
      Content-Type, or a `json.JSONDecodeError` (a ValueError) for malformed text. */
  function ReadJson<T>(b: JsonBody<T>): (r: Result<T, Exc>)
    ensures r.Ok? <==> b.Decoded?
    ensures r.Ok? ==> r.value == b.doc
    ensures r.Err? ==> (r.error == ClientError <==> b.WrongContentType?) && (r.error == ValueError <==> b.Malformed?)
  {
    match b
    case Decoded(doc) => Ok(doc)
    case WrongContentType => Err(ClientError)
    case Malformed => Err(ValueError)
  }
}
