/** The base adapter: resolves request URLs against the configured base URL,
    authenticates every request, and turns non-2xx responses into the
    client's exceptions. The session round trip is a `transport` parameter. */
module BaseAdapter {
  import opened Wrappers
  import opened Http
  import opened Exceptions

  /** The default base URL of the API. */
  const BASE_URL: string := "https://api.keepincrm.com/v1"

  /** Paths starting with this prefix are already absolute URLs. */
  const SECURE_SCHEME: string := "https://"

  /** The header that carries the API key. */
  const AUTH_HEADER: string := "X-Auth-Token"

  /** An adapter: the API key and the base URL (`BASE_URL` unless overridden). */
  datatype Adapter = Adapter(apiKey: string, baseUrl: string)

  /** The URL a request for `path` goes to. */
  function ResolveUrl(baseUrl: string, path: string): string {
    if SECURE_SCHEME <= path then path else baseUrl + path
  }

  /** The resolved URL always ends with the path, and is either the path
      itself or starts with the base URL. */
  lemma ResolveUrlShape(baseUrl: string, path: string)
    ensures var url := ResolveUrl(baseUrl, path);
      |path| <= |url| && url[|url| - |path|..] == path && (url == path || baseUrl <= url)
  {
  }

  /** A path is left untouched exactly when it is already absolute, or when
      there is no base URL to put in front of it. */
  lemma ResolveUrlUnchanged(baseUrl: string, path: string)
    ensures ResolveUrl(baseUrl, path) == path <==> (SECURE_SCHEME <= path || baseUrl == [])
  {
    if !(SECURE_SCHEME <= path) && ResolveUrl(baseUrl, path) == path {
      assert |baseUrl + path| == |baseUrl| + |path|;
    }
  }

  /** With an absolute base URL every resolved URL is absolute ... */
  lemma ResolvedUrlIsAbsolute(baseUrl: string, path: string)
    requires SECURE_SCHEME <= baseUrl
    ensures SECURE_SCHEME <= ResolveUrl(baseUrl, path)
  {
    if !(SECURE_SCHEME <= path) {
      assert (baseUrl + path)[..|SECURE_SCHEME|] == baseUrl[..|SECURE_SCHEME|];
    }
  }

  /** ... so resolving twice is the same as resolving once: the base URL is
      never put in front of a URL twice. */
  lemma ResolveUrlIdempotent(baseUrl: string, path: string)
    requires SECURE_SCHEME <= baseUrl
    ensures ResolveUrl(baseUrl, ResolveUrl(baseUrl, path)) == ResolveUrl(baseUrl, path)
  {
    ResolvedUrlIsAbsolute(baseUrl, path);
  }

  /** The default base URL is absolute, so a default adapter sends every
      request to an absolute URL. */
  lemma DefaultAdapterUrlsAreAbsolute(path: string)
    ensures SECURE_SCHEME <= BASE_URL
    ensures SECURE_SCHEME <= ResolveUrl(BASE_URL, path)
  {
    assert BASE_URL[..|SECURE_SCHEME|] == SECURE_SCHEME;
    ResolvedUrlIsAbsolute(BASE_URL, path);
  }

  /** The request handed to the session for one call of `_request`. */
  function BuildRequest(a: Adapter, path: string, verb: string, params: Option<Params>,
                        json: Option<Json>, data: Option<Json>): (r: HttpRequest)
    ensures r.headers == map[AUTH_HEADER := a.apiKey]
    ensures r.url == ResolveUrl(a.baseUrl, path)
    ensures r.verb == verb && r.params == params && r.json == json && r.data == data
  {
    HttpRequest(verb, ResolveUrl(a.baseUrl, path), params, data, json, map[AUTH_HEADER := a.apiKey])
  }

  /** The exception class a failing status code is mapped to. */
  function Classify(statusCode: int): (c: ErrorClass)
    ensures IsKeepinClass(c) && c != KeepinException
    ensures c == ValidationError <==> statusCode == 422
  {
    if statusCode == 401 then InvalidAPIKeyError
    else if statusCode == 422 then ValidationError
    else if statusCode == 404 then NotFoundError
    else if statusCode >= 500 then InternalServerError
    else KeepinStatusError
  }

  /** The status table, read one kind at a time, in both directions. */
  lemma ClassifyTable(statusCode: int)
    ensures Classify(statusCode) == InvalidAPIKeyError <==> statusCode == 401
    ensures Classify(statusCode) == ValidationError <==> statusCode == 422
    ensures Classify(statusCode) == NotFoundError <==> statusCode == 404
    ensures Classify(statusCode) == InternalServerError <==> statusCode >= 500
    ensures Classify(statusCode) == KeepinStatusError <==>
      statusCode !in {401, 404, 422} && statusCode < 500
  {
  }

  /** The same table with its branches evaluated in the opposite order. */
  function ClassifyReversed(statusCode: int): ErrorClass {
    if statusCode >= 500 then InternalServerError
    else if statusCode == 404 then NotFoundError
    else if statusCode == 422 then ValidationError
    else if statusCode == 401 then InvalidAPIKeyError
    else KeepinStatusError
  }

  /** The tests are disjoint, so their order does not matter. */
  lemma ClassifyOrderIrrelevant(statusCode: int)
    ensures Classify(statusCode) == ClassifyReversed(statusCode)
  {
  }

  /** The exception raised for a failing response. */
  function StatusError(statusCode: int, text: string): (e: Exc)
    ensures e.cls == Classify(statusCode)
    ensures e.args == [Int(statusCode), Str(text)]
    ensures statusCode != 422 ==> e.statusCode == Some(Int(statusCode)) && e.response == Some(Str(text))
    ensures statusCode == 422 ==> e.statusCode.None? && e.response.None?
  {
    Instantiate(Classify(statusCode), [Int(statusCode), Str(text)]).value
  }

  /** Which handlers catch the raised error: every one is a `KeepinException`
      and none an `Exception`; all but the 422 error are `KeepinStatusError`s. */
  lemma StatusErrorHandlers(statusCode: int, text: string)
    ensures Catches(KeepinException, StatusError(statusCode, text))
    ensures !Catches(Exception, StatusError(statusCode, text))
    ensures Catches(KeepinStatusError, StatusError(statusCode, text)) <==> statusCode != 422
  {
    var c := Classify(statusCode);
    KeepinHierarchy(c);
    StatusBearingClasses(c);
  }

  /** `raise_for_status` followed by the mapping of its failure. */
  function CheckStatus<B(==)>(resp: Response<B>): (r: Result<Response<B>, Exc>)
    ensures r.Success? <==> IsSuccess(resp.statusCode)
    ensures r.Success? ==> r.value == resp
    ensures r.Failure? ==> r.error == StatusError(resp.statusCode, resp.text)
  {
    if IsSuccess(resp.statusCode) then Success(resp)
    else Failure(StatusError(resp.statusCode, resp.text))
  }

  /** One call: the request that was sent, and what the call returned or raised. */
  datatype Call<T> = Call(sent: HttpRequest, result: Result<T, Exc>)

  /** `_request`: send the built request through `transport` and check its status. */
  function Request<B(==)>(a: Adapter, path: string, verb: string, params: Option<Params>,
                      json: Option<Json>, data: Option<Json>,
                      transport: HttpRequest -> Response<B>): (c: Call<Response<B>>)
    ensures c.sent == BuildRequest(a, path, verb, params, json, data)
    ensures c.result.Success? <==> IsSuccess(transport(c.sent).statusCode)
    ensures c.result.Success? ==> c.result.value == transport(c.sent)
    ensures c.result.Failure? ==>
      c.result.error == StatusError(transport(c.sent).statusCode, transport(c.sent).text)
  {
    var sent := BuildRequest(a, path, verb, params, json, data);
    Call(sent, CheckStatus(transport(sent)))
  }

  /** A convenience wrapper's call sent `verb` with the given parameters and
      JSON body and no form data, and returned the decoded body on 2xx. */
  predicate Forwards<B(==)>(c: Call<B>, a: Adapter, path: string, verb: string, params: Option<Params>,
                        json: Option<Json>, transport: HttpRequest -> Response<B>)
  {
    && c.sent == BuildRequest(a, path, verb, params, json, None)
    && (c.result.Success? <==> IsSuccess(transport(c.sent).statusCode))
    && (c.result.Success? ==> c.result.value == transport(c.sent).body)
    && (c.result.Failure? ==>
          c.result.error == StatusError(transport(c.sent).statusCode, transport(c.sent).text))
  }

  /** `response.json()` of a successful `_request`; failures propagate. */
  function Decoded<B>(c: Call<Response<B>>): (d: Call<B>)
    ensures d.sent == c.sent
    ensures d.result.Success? <==> c.result.Success?
    ensures c.result.Success? ==> d.result.value == c.result.value.body
    ensures c.result.Failure? ==> d.result.error == c.result.error
  {
    match c.result
    case Success(resp) => Call(c.sent, Success(resp.body))
    case Failure(e) => Call(c.sent, Failure(e))
  }

  function Get<B(==)>(a: Adapter, path: string, params: Option<Params>,
                  transport: HttpRequest -> Response<B>): (c: Call<B>)
    ensures Forwards(c, a, path, "get", params, None, transport)
  {
    Decoded(Request(a, path, "get", params, None, None, transport))
  }

  function Post<B(==)>(a: Adapter, path: string, json: Option<Json>, params: Option<Params>,
                   transport: HttpRequest -> Response<B>): (c: Call<B>)
    ensures Forwards(c, a, path, "post", params, json, transport)
  {
    Decoded(Request(a, path, "post", params, json, None, transport))
  }

  function Patch<B(==)>(a: Adapter, path: string, params: Option<Params>, json: Option<Json>,
                    transport: HttpRequest -> Response<B>): (c: Call<B>)
    ensures Forwards(c, a, path, "patch", params, json, transport)
  {
    Decoded(Request(a, path, "patch", params, json, None, transport))
  }

  function Delete<B(==)>(a: Adapter, path: string, params: Option<Params>, json: Option<Json>,
                     transport: HttpRequest -> Response<B>): (c: Call<B>)
    ensures Forwards(c, a, path, "delete", params, json, transport)
  {
    Decoded(Request(a, path, "delete", params, json, None, transport))
  }

  function Put<B(==)>(a: Adapter, path: string, params: Option<Params>, json: Option<Json>,
                  transport: HttpRequest -> Response<B>): (c: Call<B>)
    ensures Forwards(c, a, path, "put", params, json, transport)
  {
    Decoded(Request(a, path, "put", params, json, None, transport))
  }

  /** With the live API answering 401 to a bad key and 404 to an unknown
      path, `get` raises an `InvalidAPIKeyError` or a `NotFoundError` whose
      `status_code` is 401 or 404 whether it is caught by its own class or
      as a `KeepinStatusError`. */
  lemma GetRaisesDocumentedErrors(a: Adapter, path: string, text: string, code: int)
    requires code == 401 || code == 404
    ensures var c := Get(a, path, None, (_: HttpRequest) => Response(code, text, JNull));
      && c.result.Failure?
      && c.result.error.cls == (if code == 401 then InvalidAPIKeyError else NotFoundError)
      && Catches(c.result.error.cls, c.result.error)
      && Catches(KeepinStatusError, c.result.error)
      && c.result.error.statusCode == Some(Int(code))
  {
  }
}
