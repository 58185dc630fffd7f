/** The part of the HTTP transport the adapter relies on: the request it
    hands to the session, and the response it gets back. */
module Http {
  import opened Wrappers

  /** A decoded JSON value. */
  datatype Json =
    | JNull
    | JBool(b: bool)
    | JInt(i: int)
    | JStr(s: string)
    | JArray(elems: seq<Json>)
    | JObject(fields: map<string, Json>)

  /** Query parameters: a mapping from parameter name to value. */
  type Params = map<string, Json>

  /** Request headers: a mapping from header name to value. */
  type Headers = map<string, string>

  /** Everything the adapter passes to `session.request`; `verb` is the HTTP method. */
  datatype HttpRequest = HttpRequest(
    verb: string,
    url: string,
    params: Option<Params>,
    data: Option<Json>,
    json: Option<Json>,
    headers: Headers)

  /** A response: its status code, its raw body text and its decoded body.
      The decoded body type `B` is a parameter so that list endpoints can be
      described by their page shape directly. */
  datatype Response<B> = Response(statusCode: int, text: string, body: B)

  /** The status codes for which `raise_for_status` does not raise: 2xx. */
  predicate IsSuccess(statusCode: int) {
    200 <= statusCode < 300
  }
}
