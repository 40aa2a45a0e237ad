/** The serverless proxy: it checks the request's `path` parameter and the
    server's configuration, forwards the request to the upstream API with the
    secret key, and maps the upstream answer to its own reply. The `fetch` call
    and the URL parser are parameters; JSON parsing of the upstream text is a
    flag of the upstream answer. */
module Proxy {
  import opened Wrappers
  import opened Domain
  import opened FormUrl

  const MissingPathMessage := "Missing path parameter"
  const ConfigurationErrorMessage := "Server configuration error"
  const TooManyRequestsMessage := "Too many requests. Please wait a moment and try again."
  const UnexpectedFormatMessage := "Unexpected response format"
  const ServerErrorMessage := "Server error"
  const UnreachableMessage := "Unable to connect to the server. Please try again."
  const ErrorTextLimit: nat := 100

  /** A query value as the platform parses it: one string, or an array for a repeated key. */
  datatype QueryValue = One(s: string) | Many(values: seq<string>)

  /** The incoming request: its method, its query entries in their order and,
      when `req.body` is truthy, the JSON text `JSON.stringify` makes of it. */
  datatype ProxyRequest = ProxyRequest(httpMethod: Option<string>, query: seq<(string, QueryValue)>, body: Option<string>)

  /** The server-side variables `API_BASE_URL` and `API_KEY`. */
  datatype ProxyEnv = ProxyEnv(apiBaseUrl: Option<string>, apiKey: Option<string>)

  /** What is handed to `fetch`: the joined URL, the query parameters appended
      to it, the method, the headers and the optional body. */
  datatype UpstreamRequest = UpstreamRequest(
    url: string, params: seq<(string, string)>, httpMethod: string,
    headers: seq<(string, string)>, body: Option<string>)

  /** How `fetch` settles: rejected (network failure, or `text()` failing), or
      answered with a status and a body text, `parses` telling whether
      `JSON.parse` accepts that text. */
  datatype Upstream = Unreachable | Answered(status: int, text: string, parses: bool)

  /** The proxy's JSON reply body. */
  datatype ReplyBody = ErrorJson(error: string) | EmptyObject | Forwarded(json: string)

  /** A reply, or a synchronous exception that escapes the handler (the
      platform then answers on its own). */
  datatype HandlerResult = Responded(status: int, reply: ReplyBody) | Crashed

  /** The value of the first query entry named `key`. */
  function QueryLookup(query: seq<(string, QueryValue)>, key: string): (r: Option<QueryValue>)
    ensures r.Some? <==> exists i :: 0 <= i < |query| && query[i].0 == key
    ensures r.Some? ==> exists i :: 0 <= i < |query| && query[i] == (key, r.value)
                                   && forall j :: 0 <= j < i ==> query[j].0 != key
  {
    if query == [] then None
    else if query[0].0 == key then Some(query[0].1)
    else
      var r := QueryLookup(query[1..], key);
      assert forall i :: 1 <= i < |query| ==> query[i] == query[1..][i - 1];
      r
  }

  /** `!targetPath`: the parameter is absent or the empty string (an array is truthy). */
  predicate PathFalsy(path: Option<QueryValue>) {
    path.None? || path.value == One("")
  }

  /** `replace(/\/$/, '')`: drops one slash at the very end. */
  function TrimTrailingSlash(s: string): (r: string)
    ensures (|s| > 0 && s[|s| - 1] == '/') ==> r + "/" == s
    ensures !(|s| > 0 && s[|s| - 1] == '/') ==> r == s
  {
    if |s| > 0 && s[|s| - 1] == '/' then s[..|s| - 1] else s
  }

  /** A path that does not start with a slash gets one. */
  function EnsureLeadingSlash(p: string): (r: string)
    ensures |r| > 0 && r[0] == '/'
    ensures r == p || r == "/" + p
    ensures (|p| > 0 && p[0] == '/') <==> r == p
  {
    if |p| > 0 && p[0] == '/' then p else "/" + p
  }

  /** The URL the proxy targets. */
  function FullUrl(base: string, path: string): string {
    TrimTrailingSlash(base) + EnsureLeadingSlash(path)
  }

  /** With at most one slash at the end of the base and at most one at the
      start of the path, exactly one slash separates them. */
  lemma FullUrlSingleSlash(base: string, path: string)
    requires !(|base| >= 2 && base[|base| - 2..] == "//")
    requires !(|path| >= 2 && path[..2] == "//")
    ensures var b := TrimTrailingSlash(base);
      var u := FullUrl(base, path);
      |u| > |b| && u[|b|] == '/' && (|b| > 0 ==> u[|b| - 1] != '/') && (|u| > |b| + 1 ==> u[|b| + 1] != '/')
  {
    var b := TrimTrailingSlash(base);
    if |base| > 0 && base[|base| - 1] == '/' && |b| > 0 {
      assert base[|base| - 2..] == [b[|b| - 1], '/'];
    }
    if |path| >= 2 && path[0] == '/' {
      assert path[..2] == [path[0], path[1]];
    }
  }

  /** The query entries the proxy passes on, in their order: every entry but
      `path` whose value is a single string. */
  function ForwardedQuery(query: seq<(string, QueryValue)>): seq<(string, string)> {
    if query == [] then []
    else
      var rest := ForwardedQuery(query[..|query| - 1]);
      var (key, value) := query[|query| - 1];
      if key != "path" && value.One? then rest + [(key, value.s)] else rest
  }

  /** A pair is forwarded exactly when the query holds it as a single string
      under a key other than `path`. */
  lemma {:induction false} ForwardedQueryMembers(query: seq<(string, QueryValue)>, key: string, value: string)
    ensures (key, value) in ForwardedQuery(query) <==> key != "path" && (key, One(value)) in query
  {
    if query != [] {
      var init := query[..|query| - 1];
      var last := query[|query| - 1];
      ForwardedQueryMembers(init, key, value);
      assert query == init + [last];
      assert (key, One(value)) in query <==> (key, One(value)) in init || (key, One(value)) == last;
    }
  }

  /** Nothing is forwarded that the query does not hold, and never `path`. */
  lemma {:induction false} ForwardedQueryLength(query: seq<(string, QueryValue)>)
    ensures |ForwardedQuery(query)| <= |query|
    ensures forall i :: 0 <= i < |ForwardedQuery(query)| ==> ForwardedQuery(query)[i].0 != "path"
  {
    if query != [] {
      ForwardedQueryLength(query[..|query| - 1]);
    }
  }

  /** ASCII upper case, as `fetch` compares method names. */
  function AsciiUpper(s: string): (r: string)
    ensures |r| == |s|
    ensures forall i :: 0 <= i < |s| ==> r[i] == (if 'a' <= s[i] <= 'z' then (s[i] as int - 32) as char else s[i])
  {
    if s == [] then [] else AsciiUpper(s[..|s| - 1]) + [if 'a' <= s[|s| - 1] <= 'z' then (s[|s| - 1] as int - 32) as char else s[|s| - 1]]
  }

  /** The methods `fetch` refuses to send with a body, in any letter case. */
  predicate ForbidsBody(httpMethod: string) {
    AsciiUpper(httpMethod) == "GET" || AsciiUpper(httpMethod) == "HEAD"
  }

  /** A character of an HTTP token (section 5.6.2 of RFC 9110). */
  predicate IsTokenChar(c: char) {
    ('a' <= c <= 'z') || ('A' <= c <= 'Z') || ('0' <= c <= '9')
    || c in {'!', '#', '$', '%', '&', '\'', '*', '+', '-', '.', '^', '_', '`', '|', '~'}
  }

  /** `fetch` accepts as a method only a non-empty token. */
  predicate IsMethodToken(httpMethod: string) {
    |httpMethod| >= 1 && forall i :: 0 <= i < |httpMethod| ==> IsTokenChar(httpMethod[i])
  }

  /** The forbidden methods of the Fetch standard, in any letter case. */
  predicate ForbiddenMethod(httpMethod: string) {
    var m := AsciiUpper(httpMethod);
    m == "CONNECT" || m == "TRACE" || m == "TRACK"
  }

  /** `fetch` throws a `TypeError` before any network access for a method that
      is not a token, a forbidden method, or a body on `GET` or `HEAD`. */
  predicate FetchRefuses(sent: UpstreamRequest) {
    !IsMethodToken(sent.httpMethod) || ForbiddenMethod(sent.httpMethod)
    || (ForbidsBody(sent.httpMethod) && sent.body.Some?)
  }

  /** The method sent upstream: `req.method || 'GET'`. */
  function EffectiveMethod(req: ProxyRequest): string {
    if Truthy(req.httpMethod) then req.httpMethod.value else "GET"
  }

  /** The body is attached when the incoming method is neither exactly `GET`
      nor exactly `HEAD` (an absent method passes this test) and the body is truthy. */
  function OutgoingBody(req: ProxyRequest): (b: Option<string>)
    ensures b.Some? <==> (req.httpMethod != Some("GET") && req.httpMethod != Some("HEAD") && req.body.Some?)
    ensures b.Some? ==> b == req.body
  {
    if req.httpMethod != Some("GET") && req.httpMethod != Some("HEAD") && req.body.Some? then req.body else None
  }

  /** Bearer authorisation with the server's key and a JSON content type. */
  function UpstreamHeaders(apiKey: string): seq<(string, string)> {
    [("Authorization", "Bearer " + apiKey), ("Content-Type", "application/json")]
  }

  /** The proxy's reply to an upstream answer. */
  function ReplyFor(u: Upstream): (r: HandlerResult)
    ensures r.Responded?
    ensures u.Unreachable? ==> r == Responded(502, ErrorJson(UnreachableMessage))
    ensures u.Answered? ==> r.status == u.status
  {
    match u
    case Unreachable => Responded(502, ErrorJson(UnreachableMessage))
    case Answered(status, text, parses) =>
      if status == 429 then Responded(429, ErrorJson(TooManyRequestsMessage))
      else if text == "" then Responded(status, EmptyObject)
      else if !parses then
        var ok := 200 <= status <= 299;
        var prefix := text[..if |text| < ErrorTextLimit then |text| else ErrorTextLimit];
        Responded(status, ErrorJson(if ok then UnexpectedFormatMessage else if prefix != "" then prefix else ServerErrorMessage))
      else Responded(status, Forwarded(text))
  }

  /** The outcome table of an upstream answer. */
  lemma ReplyTable(status: int, text: string, parses: bool)
    ensures var r := ReplyFor(Answered(status, text, parses));
      (status == 429 ==> r.reply == ErrorJson(TooManyRequestsMessage))
      && (status != 429 && text == "" ==> r.reply == EmptyObject)
      && (status != 429 && text != "" && parses ==> r.reply == Forwarded(text))
      && (status != 429 && text != "" && !parses && 200 <= status <= 299 ==> r.reply == ErrorJson(UnexpectedFormatMessage))
      && (status != 429 && text != "" && !parses && !(200 <= status <= 299) ==>
            r.reply == ErrorJson(text[..if |text| < ErrorTextLimit then |text| else ErrorTextLimit]))
  {
  }

  /** A failed answer that is not JSON is reported with the start of its text:
      a non-empty prefix of at most a hundred characters. The `Server error`
      fallback is never reached, since that text is not empty. */
  lemma NonJsonErrorShowsPrefix(status: int, text: string)
    requires status != 429 && !(200 <= status <= 299) && text != ""
    ensures var r := ReplyFor(Answered(status, text, false));
      r.reply.ErrorJson? && 0 < |r.reply.error| <= ErrorTextLimit && text[..|r.reply.error|] == r.reply.error
  {
  }

  /** The reference behaviour of the handler: its reply and the request it hands to `fetch`, if any. */
  function Outcome(req: ProxyRequest, env: ProxyEnv, parsesAsUrl: string -> bool, fetch: UpstreamRequest -> Upstream): (HandlerResult, Option<UpstreamRequest>) {
    var path := QueryLookup(req.query, "path");
    if PathFalsy(path) then (Responded(400, ErrorJson(MissingPathMessage)), None)
    else if !Truthy(env.apiBaseUrl) || !Truthy(env.apiKey) then (Responded(500, ErrorJson(ConfigurationErrorMessage)), None)
    else if path.value.Many? then (Crashed, None)
    else
      var url := FullUrl(env.apiBaseUrl.value, path.value.s);
      if !parsesAsUrl(url) then (Crashed, None)
      else
        var sent := UpstreamRequest(url, ForwardedQuery(req.query), EffectiveMethod(req), UpstreamHeaders(env.apiKey.value), OutgoingBody(req));
        if FetchRefuses(sent) then (Responded(502, ErrorJson(UnreachableMessage)), None)
        else (ReplyFor(fetch(sent)), Some(sent))
  }

  /** `handler`: validates the request, copies the forwarded query parameters
      one by one onto the URL's search parameters, then calls `fetch`. */
  method Handler(req: ProxyRequest, env: ProxyEnv, parsesAsUrl: string -> bool, fetch: UpstreamRequest -> Upstream)
    returns (result: HandlerResult, sent: Option<UpstreamRequest>)
    ensures (result, sent) == Outcome(req, env, parsesAsUrl, fetch)
  {
    var targetPath := QueryLookup(req.query, "path");
    if PathFalsy(targetPath) {
      return Responded(400, ErrorJson(MissingPathMessage)), None;
    }
    if !Truthy(env.apiBaseUrl) || !Truthy(env.apiKey) {
      return Responded(500, ErrorJson(ConfigurationErrorMessage)), None;
    }
    if targetPath.value.Many? {
      return Crashed, None;
    }
    var baseUrl := TrimTrailingSlash(env.apiBaseUrl.value);
    var path := EnsureLeadingSlash(targetPath.value.s);
    var fullUrl := baseUrl + path;
    if !parsesAsUrl(fullUrl) {
      return Crashed, None;
    }
    var searchParams := new SearchParams();
    var i := 0;
    while i < |req.query|
      invariant 0 <= i <= |req.query|
      invariant searchParams.entries == ForwardedQuery(req.query[..i])
    {
      var (key, value) := req.query[i];
      assert req.query[..i + 1][..i] == req.query[..i];
      if key != "path" && value.One? {
        searchParams.Append(key, value.s);
      }
      i := i + 1;
    }
    assert req.query[..i] == req.query;
    var httpMethod := if Truthy(req.httpMethod) then req.httpMethod.value else "GET";
    var body := if req.httpMethod != Some("GET") && req.httpMethod != Some("HEAD") && req.body.Some? then req.body else None;
    var request := UpstreamRequest(fullUrl, searchParams.entries, httpMethod, UpstreamHeaders(env.apiKey.value), body);
    if FetchRefuses(request) {
      return Responded(502, ErrorJson(UnreachableMessage)), None;
    }
    var response := fetch(request);
    result := ReplyFor(response);
    sent := Some(request);
  }

  /** The 400 reply without any upstream call happens exactly when `path` is absent or empty. */
  lemma MissingPathRejected(req: ProxyRequest, env: ProxyEnv, parsesAsUrl: string -> bool, fetch: UpstreamRequest -> Upstream)
    ensures var (r, sent) := Outcome(req, env, parsesAsUrl, fetch);
      (r == Responded(400, ErrorJson(MissingPathMessage)) && sent.None?) <==> PathFalsy(QueryLookup(req.query, "path"))
  {
  }

  /** With a path but a missing base URL or key the proxy answers 500 and calls nothing. */
  lemma MissingConfigurationRejected(req: ProxyRequest, env: ProxyEnv, parsesAsUrl: string -> bool, fetch: UpstreamRequest -> Upstream)
    requires !PathFalsy(QueryLookup(req.query, "path"))
    ensures var (r, sent) := Outcome(req, env, parsesAsUrl, fetch);
      (r == Responded(500, ErrorJson(ConfigurationErrorMessage)) && sent.None?) <==> (!Truthy(env.apiBaseUrl) || !Truthy(env.apiKey))
  {
  }

  /** What is sent upstream: the joined URL, the forwarded query, the key as a
      bearer token, the defaulted method and a body only when allowed. */
  lemma UpstreamRequestShape(req: ProxyRequest, env: ProxyEnv, parsesAsUrl: string -> bool, fetch: UpstreamRequest -> Upstream)
    ensures var (r, sent) := Outcome(req, env, parsesAsUrl, fetch);
      sent.Some? ==>
        var path := QueryLookup(req.query, "path");
        Truthy(env.apiBaseUrl) && Truthy(env.apiKey) && path.Some? && path.value.One?
        && sent.value.url == FullUrl(env.apiBaseUrl.value, path.value.s)
        && sent.value.params == ForwardedQuery(req.query)
        && sent.value.headers[0] == ("Authorization", "Bearer " + env.apiKey.value)
        && sent.value.httpMethod == (if Truthy(req.httpMethod) then req.httpMethod.value else "GET")
        && IsMethodToken(sent.value.httpMethod) && !ForbiddenMethod(sent.value.httpMethod)
        && (sent.value.body.Some? ==> !ForbidsBody(sent.value.httpMethod) && sent.value.body == req.body)
        && r == ReplyFor(fetch(sent.value))
  {
  }

  /** Every reply after an upstream call carries the upstream status, except
      a transport failure which becomes 502. */
  lemma StatusForwarded(req: ProxyRequest, env: ProxyEnv, parsesAsUrl: string -> bool, fetch: UpstreamRequest -> Upstream)
    ensures var (r, sent) := Outcome(req, env, parsesAsUrl, fetch);
      sent.Some? ==> (r.Responded?
        && r.status == (match fetch(sent.value) case Unreachable => 502 case Answered(s, _, _) => s))
  {
  }

  /** A request without a method but with a body is sent as a `GET` with that
      body, which `fetch` refuses: the client gets the 502 reply and the
      upstream is never contacted. */
  lemma AbsentMethodWithBody(req: ProxyRequest, env: ProxyEnv, parsesAsUrl: string -> bool, fetch: UpstreamRequest -> Upstream)
    requires req.httpMethod.None? && req.body.Some?
    requires Truthy(env.apiBaseUrl) && Truthy(env.apiKey)
    requires QueryLookup(req.query, "path").Some? && QueryLookup(req.query, "path").value.One?
    requires QueryLookup(req.query, "path").value.s != ""
    requires parsesAsUrl(FullUrl(env.apiBaseUrl.value, QueryLookup(req.query, "path").value.s))
    ensures Outcome(req, env, parsesAsUrl, fetch) == (Responded(502, ErrorJson(UnreachableMessage)), None)
  {
    GetAccepted();
  }

  /** A method `fetch` rejects (not a token, or CONNECT, TRACE or TRACK in any
      case) is never sent: the proxy answers 502 as for an unreachable server. */
  lemma RefusedMethodRejected(req: ProxyRequest, env: ProxyEnv, parsesAsUrl: string -> bool, fetch: UpstreamRequest -> Upstream)
    requires Truthy(req.httpMethod)
    requires !IsMethodToken(req.httpMethod.value) || ForbiddenMethod(req.httpMethod.value)
    requires Truthy(env.apiBaseUrl) && Truthy(env.apiKey)
    requires QueryLookup(req.query, "path").Some? && QueryLookup(req.query, "path").value.One?
    requires QueryLookup(req.query, "path").value.s != ""
    requires parsesAsUrl(FullUrl(env.apiBaseUrl.value, QueryLookup(req.query, "path").value.s))
    ensures Outcome(req, env, parsesAsUrl, fetch) == (Responded(502, ErrorJson(UnreachableMessage)), None)
  {
  }

  /** The forbidden methods are matched in any letter case. */
  lemma ForbiddenMethodExamples()
    ensures ForbiddenMethod("trace") && ForbiddenMethod("Connect")
  {
    assert AsciiUpper("trace") == "TRACE";
    assert AsciiUpper("Connect") == "CONNECT";
  }

  /** A name with a space is not a method; `PATCH` is one and is allowed. */
  lemma MethodTokenExamples()
    ensures !IsMethodToken("GET ME")
    ensures IsMethodToken("PATCH") && !ForbiddenMethod("PATCH")
  {
    assert "GET ME"[3] == ' ';
    assert AsciiUpper("PATCH") == "PATCH";
  }

  /** `GET` is a method `fetch` accepts, but not with a body. */
  lemma GetAccepted()
    ensures IsMethodToken("GET") && !ForbiddenMethod("GET") && ForbidsBody("GET")
  {
    assert AsciiUpper("GET") == "GET";
  }

  /** A request whose method is given in upper case is never refused for its
      body: a body goes with any method other than `GET` and `HEAD`. */
  lemma UpperCaseMethodBody(req: ProxyRequest, env: ProxyEnv, parsesAsUrl: string -> bool, fetch: UpstreamRequest -> Upstream)
    requires req.httpMethod.Some? && AsciiUpper(req.httpMethod.value) == req.httpMethod.value
    ensures var (r, sent) := Outcome(req, env, parsesAsUrl, fetch);
      sent.Some? ==> (sent.value.body.Some? <==> (req.httpMethod != Some("GET") && req.httpMethod != Some("HEAD") && req.body.Some?))
  {
  }
}
