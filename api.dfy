/**
 * The HTTP wrapper apiFetch: how a request is put together from the caller's
 * options and the stored session token, and what a response turns into. The
 * network is a transport function from a request to a reply; JSON bodies stay
 * symbolic (Json(payload) is the text JSON.stringify(payload)).
 */
module Api {
  import opened Wrappers
  import opened Text
  import Auth

  /** The backend origin used when NEXT_PUBLIC_API_BASE_URL is unset or empty. */
  const DefaultBase := "http://localhost:8000"

  /** BASE: the configured value verbatim when it is non-empty, else the default. */
  function Base(env: Option<string>): (r: string)
    ensures r != ""
    ensures env.Some? && env.value != "" ==> r == env.value
    ensures env.None? || env.value == "" ==> r == DefaultBase
  {
    if env.Some? && env.value != "" then env.value else DefaultBase
  }

  /** A file picked in an upload input. */
  datatype File = File(name: string, content: seq<bv8>)

  datatype FormValue = FileValue(file: File) | TextValue(text: string)

  /** A body the caller passes as-is: a string or a FormData list. */
  datatype RawBody = TextBody(text: string) | FormBody(entries: seq<(string, FormValue)>)

  /** RequestInit & { json?: unknown }: method, headers init, body, and the JSON payload. */
  datatype Options<P> = Options(httpMethod: Option<string>, headers: seq<(string, string)>, body: Option<RawBody>, json: Option<P>)

  /** The body handed to fetch. */
  datatype Body<P> = NoBody | Raw(raw: RawBody) | Json(payload: P)

  /** The arguments of the fetch call. */
  datatype Request<P> = Request(url: string, httpMethod: Option<string>, headers: map<string, string>, body: Body<P>)

  const AuthorizationHeader := "authorization"
  const ContentTypeHeader := "content-type"
  const JsonType := "application/json"

  /** Headers.append: names are lower-cased; a repeated name joins the values with ", ". */
  function HeaderAppend(h: map<string, string>, name: string, value: string): (r: map<string, string>)
    ensures LowerAscii(name) in r
    ensures LowerAscii(name) in h ==> r[LowerAscii(name)] == h[LowerAscii(name)] + ", " + value
    ensures LowerAscii(name) !in h ==> r[LowerAscii(name)] == value
    ensures forall k :: k != LowerAscii(name) ==> (k in r <==> k in h) && (k in h ==> r[k] == h[k])
  {
    var k := LowerAscii(name);
    if k in h then h[k := h[k] + ", " + value] else h[k := value]
  }

  /** The lower-cased names of a header list, in order. */
  function LowerNames(init: seq<(string, string)>): (r: seq<string>)
    ensures |r| == |init|
    ensures forall i :: 0 <= i < |init| ==> r[i] == LowerAscii(init[i].0)
  {
    if init == [] then [] else LowerNames(init[..|init| - 1]) + [LowerAscii(init[|init| - 1].0)]
  }

  /** new Headers(init): the pairs appended in order. */
  function HeadersOf(init: seq<(string, string)>): map<string, string>
  {
    if init == [] then map[]
    else
      var last := init[|init| - 1];
      HeaderAppend(HeadersOf(init[..|init| - 1]), last.0, last.1)
  }

  /** The headers object holds exactly the lower-cased names of the init list. */
  lemma {:induction false} HeadersKeys(init: seq<(string, string)>)
    ensures forall k :: k in HeadersOf(init) <==> k in LowerNames(init)
  {
    if init != [] {
      var front := init[..|init| - 1];
      HeadersKeys(front);
      assert LowerNames(init) == LowerNames(front) + [LowerAscii(init[|init| - 1].0)];
    }
  }

  /** Every name in a headers object is already lower case. */
  lemma HeaderNamesLower(init: seq<(string, string)>)
    ensures forall k :: k in HeadersOf(init) ==> LowerAscii(k) == k
  {
    HeadersKeys(init);
    forall k | k in HeadersOf(init) ensures LowerAscii(k) == k {
      var i :| 0 <= i < |init| && LowerNames(init)[i] == k;
      LowerAsciiIdempotent(init[i].0);
    }
  }

  /** A name given once, in any letter case, keeps its value. */
  lemma {:induction false} HeaderGivenOnce(init: seq<(string, string)>, i: nat)
    requires i < |init|
    requires forall j :: 0 <= j < |init| && j != i ==> LowerAscii(init[j].0) != LowerAscii(init[i].0)
    ensures LowerAscii(init[i].0) in HeadersOf(init)
    ensures HeadersOf(init)[LowerAscii(init[i].0)] == init[i].1
  {
    var front := init[..|init| - 1];
    if i < |init| - 1 {
      HeaderGivenOnce(front, i);
    } else {
      HeadersKeys(front);
      assert LowerAscii(init[i].0) !in LowerNames(front);
    }
  }

  /** A token is used only when it is present and non-empty (JavaScript truthiness). */
  predicate Truthy(token: Option<string>)
  {
    token.Some? && token.value != ""
  }

  /** Key k has the same entry (or the same absence) in both header maps. */
  predicate SameEntry(a: map<string, string>, b: map<string, string>, k: string)
  {
    (k in a <==> k in b) && (k in a ==> a[k] == b[k])
  }

  /**
   * What apiFetch sends for token, base and path and options: URL is base ++ path;
   * the bearer header exactly for a truthy token; the JSON content type and a JSON
   * body exactly when json is given, else the caller's body untouched; every other
   * header as the caller gave it.
   */
  ghost predicate Builds<P>(req: Request<P>, token: Option<string>, base: string, path: string, opts: Options<P>)
  {
    var init := HeadersOf(opts.headers);
    && req.url == base + path
    && req.httpMethod == opts.httpMethod
    && (Truthy(token) ==> AuthorizationHeader in req.headers && req.headers[AuthorizationHeader] == "Bearer " + token.value)
    && (!Truthy(token) ==> SameEntry(req.headers, init, AuthorizationHeader))
    && (opts.json.Some? ==> ContentTypeHeader in req.headers && req.headers[ContentTypeHeader] == JsonType
                              && req.body == Json(opts.json.value))
    && (opts.json.None? ==> SameEntry(req.headers, init, ContentTypeHeader)
                              && req.body == (if opts.body.Some? then Raw(opts.body.value) else NoBody))
    && (forall k :: k != AuthorizationHeader && k != ContentTypeHeader ==> SameEntry(req.headers, init, k))
  }

  /** Builds pins the request down completely. */
  lemma BuildsUnique<P>(r1: Request<P>, r2: Request<P>, token: Option<string>, base: string, path: string, opts: Options<P>)
    requires Builds(r1, token, base, path, opts) && Builds(r2, token, base, path, opts)
    ensures r1 == r2
  {
    var init := HeadersOf(opts.headers);
    forall k ensures SameEntry(r1.headers, r2.headers, k) {
      if k != AuthorizationHeader && k != ContentTypeHeader {
        assert SameEntry(r1.headers, init, k) && SameEntry(r2.headers, init, k);
      }
    }
    forall k | k in r1.headers || k in r2.headers
      ensures k in r1.headers && k in r2.headers && r1.headers[k] == r2.headers[k]
    {
      assert SameEntry(r1.headers, r2.headers, k);
    }
    assert r1.headers == r2.headers;
  }

  /** The request part of apiFetch: the headers object and the body are updated step by step. */
  method BuildRequest<P>(store: Auth.SessionStore, env: Option<string>, path: string, opts: Options<P>) returns (req: Request<P>)
    ensures Builds(req, store.GetToken(), Base(env), path, opts)
  {
    var headers := HeadersOf(opts.headers);
    var token := if store.hasWindow then store.GetToken() else None;
    if token.Some? && token.value != "" {
      headers := headers[AuthorizationHeader := "Bearer " + token.value];
    }
    var body: Body<P> := if opts.body.Some? then Raw(opts.body.value) else NoBody;
    if opts.json.Some? {
      headers := headers[ContentTypeHeader := JsonType];
      body := Json(opts.json.value);
    }
    req := Request(Base(env) + path, opts.httpMethod, headers, body);
  }

  /** A thrown Error: its name and message. */
  datatype ApiError = ApiError(name: string, message: string)

  /** String(e?.message || e) for an Error: the message, or the name when the message is empty. */
  function Describe(e: ApiError): (r: string)
    ensures e.message != "" ==> r == e.message
    ensures e.message == "" ==> r == e.name
    ensures r == "" <==> e.message == "" && e.name == ""
  {
    if e.message != "" then e.message else e.name
  }

  /** What the transport gives back: fetch rejected, or a response with its status, text and decoded JSON. */
  datatype Reply<T> =
    | Unreachable(error: ApiError)
    | Responded(status: nat, text: Option<string>, json: Result<T, ApiError>)

  /** Response.ok */
  predicate StatusOk(status: nat)
  {
    200 <= status <= 299
  }

  const FailurePrefix := "Request failed ("

  /** text || `Request failed (${res.status})`, where a failed text read counts as "". */
  function FailureMessage(status: nat, text: Option<string>): (r: string)
    ensures r != ""
    ensures text.Some? && text.value != "" ==> r == text.value
    ensures text.None? || text.value == "" ==> r == FailurePrefix + NatText(status) + ")"
  {
    var body := if text.Some? then text.value else "";
    if body != "" then body else FailurePrefix + NatText(status) + ")"
  }

  /** The fallback message carries the status: the digits between the parentheses read back to it. */
  lemma FailureMessageStatus(status: nat)
    ensures var m := FailureMessage(status, None);
            && |m| > |FailurePrefix| + 1
            && m[..|FailurePrefix|] == FailurePrefix
            && m[|FailurePrefix|..|m| - 1] == NatText(status)
            && DigitsValue(m[|FailurePrefix|..|m| - 1]) == status
  {
    var m := FailureMessage(status, None);
    assert m[|FailurePrefix|..|m| - 1] == NatText(status);
    NatTextValue(status);
  }

  /** The promise apiFetch settles with. */
  function Outcome<T>(reply: Reply<T>): (r: Result<T, ApiError>)
    ensures reply.Unreachable? ==> r == Failure(reply.error)
    ensures reply.Responded? && !StatusOk(reply.status) ==>
              r == Failure(ApiError("Error", FailureMessage(reply.status, reply.text)))
    ensures reply.Responded? && StatusOk(reply.status) ==> r == reply.json
  {
    match reply
    case Unreachable(e) => Failure(e)
    case Responded(status, text, json) =>
      if !StatusOk(status) then Failure(ApiError("Error", FailureMessage(status, text))) else json
  }

  /** A non-ok response always yields a non-empty error text, the response text when there is one. */
  lemma FailedResponseMessage<T>(status: nat, text: Option<string>, json: Result<T, ApiError>)
    requires !StatusOk(status)
    ensures Outcome(Responded(status, text, json)).Failure?
    ensures Describe(Outcome(Responded(status, text, json)).error) != ""
    ensures text.Some? && text.value != "" ==> Describe(Outcome(Responded(status, text, json)).error) == text.value
  {
  }

  /** An ok response never produces the wrapper's own failure: the result is what res.json() gave. */
  lemma OkResponsePassesThrough<T>(status: nat, text: Option<string>, value: T)
    requires StatusOk(status)
    ensures Outcome(Responded(status, text, Success(value))) == Success(value)
  {
  }

  /** apiFetch: build the request, hand it to the transport, settle on the reply. */
  method ApiFetch<P, T>(store: Auth.SessionStore, env: Option<string>, path: string, opts: Options<P>,
                        transport: Request<P> -> Reply<T>)
    returns (req: Request<P>, r: Result<T, ApiError>)
    ensures Builds(req, store.GetToken(), Base(env), path, opts)
    ensures r == Outcome(transport(req))
  {
    req := BuildRequest(store, env, path, opts);
    var reply := transport(req);
    r := Outcome(reply);
  }
}
