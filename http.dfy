/**
 * The transport boundary. A client method hands a request descriptor to the
 * transport and gets back a response or a raised error; the transport itself
 * (authentication, networking, HTTP error raising) is a parameter of every
 * operation, so the model says what is sent and how the reply is read.
 */
module Http {
  import opened Wrappers
  import opened Json

  datatype Method = GET | POST | PUT | DELETE

  /**
   * What a client method passes to `_request`: the verb, the path, the
   * `params=` query map, the `json=` body (None when no body is given) and the
   * `location_id=` scope (None when the call is not scoped to a location).
   */
  datatype Request = Request(
    verb: Method,
    path: string,
    query: map<string, Json>,
    body: Option<Json>,
    scope: Option<string>)

  /** A response: the status code and the decoded JSON body, None when the body is not JSON. */
  datatype Response = Response(status: int, body: Option<Json>)

  /** The exceptions a client method can propagate. */
  datatype Error =
    | TransportFailure(reason: string)   // raised by `_request` itself
    | DecodeFailure(reason: string)      // `response.json()`, `.get` on a non-dict, `Model(**x)` on a non-dict
    | ValidationFailure(reason: string)  // a tool's own model construction rejecting its input

  /** The abstract `_request`. */
  type Transport = Request -> Result<Response, Error>

  /** One client or tool call: the requests it issued, in order, and its outcome. */
  datatype Call<+T> = Call(trace: seq<Request>, result: Result<T, Error>)
}
