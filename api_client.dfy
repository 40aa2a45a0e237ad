/** The HTTP client's set-up and its two interceptors: the proxy-mode request
    rewrite and the mapping of failed responses to `ApiError`. */
module ApiClient {
  import opened Wrappers
  import opened Domain
  import opened Errors
  import opened ErrorMessages
  import opened ApiConfig

  const ProxyBaseUrl := "/api/proxy"
  const ContentTypeHeader := ("Content-Type", "application/json")

  /** What `axios.create` is given, and whether the request interceptor is installed. */
  datatype ClientSettings = ClientSettings(baseUrl: string, headers: seq<(string, string)>, rewritesForProxy: bool)

  /** The client's set-up: proxy mode needs no configuration and sends no
      credential; direct mode reads base URL and key through the cache (the
      first read may fail) and sends the key as a bearer token. */
  method CreateApiClient(env: Env, config: ConfigCache) returns (r: Result<ClientSettings, string>)
    modifies config
    ensures UseProxy(env) ==> (r == Ok(ClientSettings(ProxyBaseUrl, [ContentTypeHeader], true))
                               && config.cached == old(config.cached))
    ensures !UseProxy(env) ==>
      var c := if old(config.cached).Some? then Ok(old(config.cached).value) else GetApiConfig(env);
      && (r.Ok? <==> c.Ok?)
      && (c.Ok? ==> r.value == ClientSettings(c.value.baseUrl,
                                              [ContentTypeHeader, ("Authorization", "Bearer " + c.value.apiKey)],
                                              false))
      && (c.Err? ==> r.error == c.error)
      && config.cached == (if old(config.cached).Some? then old(config.cached)
                           else if c.Ok? then Some(c.value) else None)
  {
    if UseProxy(env) {
      return Ok(ClientSettings(ProxyBaseUrl, [ContentTypeHeader], true));
    }
    var baseUrl := config.BaseUrl(env);
    if baseUrl.Err? {
      return Err(baseUrl.error);
    }
    var apiKey := config.ApiKey(env);
    assert apiKey.Ok?;
    r := Ok(ClientSettings(baseUrl.value, [ContentTypeHeader, ("Authorization", "Bearer " + apiKey.value)], false));
  }

  /** The part of an axios request configuration the proxy rewrite touches. */
  class RequestConfig {
    var url: Option<string>
    var params: map<string, string>

    constructor (url: Option<string>, params: map<string, string>)
      ensures this.url == url && this.params == params
    {
      this.url := url;
      this.params := params;
    }
  }

  /** The proxy-mode request interceptor: the endpoint moves into the `path`
      parameter (overriding one already there) and the URL becomes empty. */
  method RewriteForProxy(config: RequestConfig)
    modifies config
    ensures config.url == Some("")
    ensures "path" in config.params && config.params["path"] == old(config.url).GetOr("")
    ensures forall k :: k != "path" ==> (k in config.params <==> k in old(config.params))
    ensures forall k :: k != "path" && k in config.params ==> config.params[k] == old(config.params)[k]
  {
    var originalPath := config.url.GetOr("");
    config.params := config.params["path" := originalPath];
    config.url := Some("");
  }

  /** A failed axios request: with a response (its status and `data.error`,
      `None` when that is absent or not truthy), or without one. */
  datatype AxiosFailure = WithResponse(status: int, dataError: Option<string>) | WithoutResponse

  /** The message priority: the status table, then the server's `error`, then the generic text. */
  function ResponseMessage(status: int, dataError: Option<string>): (m: string)
    ensures StatusMessage(status).Some? ==> m == StatusMessage(status).value
    ensures StatusMessage(status).None? && Truthy(dataError) ==> m == dataError.value
    ensures StatusMessage(status).None? && !Truthy(dataError) ==> m == Generic
    ensures m != ""
  {
    match StatusMessage(status)
    case Some(mapped) => mapped
    case None => if Truthy(dataError) then dataError.value else Generic
  }

  /** The response interceptor's rejection value. */
  function Rejection(f: AxiosFailure): (e: ApiError)
    ensures WellFormed(e)
    ensures f.WithResponse? ==> e == FromResponse(f.status, ResponseMessage(f.status, f.dataError))
    ensures f.WithoutResponse? ==> e == NetworkError(NetworkErrorMessage)
  {
    match f
    case WithResponse(status, dataError) => FromResponse(status, ResponseMessage(status, dataError))
    case WithoutResponse => NetworkError(NetworkErrorMessage)
  }

  /** What a caller can rely on about any rejection: the status is kept (0
      without a response), only a 429 is rate-limited, only a missing response
      is a network error, and the message is never empty. */
  lemma RejectionClassified(f: AxiosFailure)
    ensures Rejection(f).status == (if f.WithResponse? then f.status else 0)
    ensures Rejection(f).isRateLimited <==> f.WithResponse? && f.status == 429
    ensures Rejection(f).isNetworkError <==> f.WithoutResponse?
    ensures Rejection(f).message != ""
  {
  }

  /** A mapped status wins over whatever the server put in `data.error`. */
  lemma MappedStatusIgnoresServerText(status: int, a: Option<string>, b: Option<string>)
    requires StatusMessage(status).Some?
    ensures Rejection(WithResponse(status, a)) == Rejection(WithResponse(status, b))
  {
  }

  /** A loader that catches the rejection shows the interceptor's message. */
  lemma LoaderShowsRejectionMessage(f: AxiosFailure, fallback: string)
    ensures GetErrorMessage(Throw(Rejection(f)), fallback)
            == (if f.WithResponse? then ResponseMessage(f.status, f.dataError) else NetworkErrorMessage)
    ensures IsRateLimitError(Throw(Rejection(f))) <==> f.WithResponse? && f.status == 429
  {
  }
}
