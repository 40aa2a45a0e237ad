/** Client-side configuration: proxy or direct mode, validation of the direct
    mode's variables, and the lazily filled configuration cache. */
module ApiConfig {
  import opened Wrappers
  import opened Strings
  import opened Domain

  /** The build-time variables read from the environment; `None` is an unset variable. */
  datatype Env = Env(useProxyVar: Option<string>, baseUrlVar: Option<string>, apiKeyVar: Option<string>)

  /** Proxy mode is on exactly when `VITE_USE_PROXY` is the string "true". */
  predicate UseProxy(env: Env) {
    env.useProxyVar == Some("true")
  }

  datatype Config = Config(baseUrl: string, apiKey: string)

  const BaseUrlVariable := "VITE_API_BASE_URL"
  const ApiKeyVariable := "VITE_API_KEY"

  /** The direct mode's missing variables, in the order they are checked. */
  function MissingVariables(baseUrl: Option<string>, apiKey: Option<string>): (missing: seq<string>)
    ensures BaseUrlVariable in missing <==> !Truthy(baseUrl)
    ensures ApiKeyVariable in missing <==> !Truthy(apiKey)
    ensures forall i :: 0 <= i < |missing| ==> missing[i] == BaseUrlVariable || missing[i] == ApiKeyVariable
    ensures |missing| <= 2 && (|missing| == 2 ==> missing == [BaseUrlVariable, ApiKeyVariable])
  {
    (if !Truthy(baseUrl) then [BaseUrlVariable] else []) + (if !Truthy(apiKey) then [ApiKeyVariable] else [])
  }

  const MissingPrefix := "Missing required environment variable(s): "
  const CreateEnvHint := "Please create a .env file with these values. See README.md for details."

  function MissingMessage(missing: seq<string>): string {
    MissingPrefix + Join(missing, ", ") + ". " + CreateEnvHint
  }

  /** `getApiConfig`: empty values in proxy mode; in direct mode both variables
      unchanged, or the error naming those that are missing. */
  function GetApiConfig(env: Env): (r: Result<Config, string>)
    ensures UseProxy(env) ==> r == Ok(Config("", ""))
    ensures !UseProxy(env) ==> (r.Err? <==> !Truthy(env.baseUrlVar) || !Truthy(env.apiKeyVar))
    ensures !UseProxy(env) && r.Ok? ==> r.value == Config(env.baseUrlVar.value, env.apiKeyVar.value)
    ensures r.Err? ==> (MissingVariables(env.baseUrlVar, env.apiKeyVar) != []
                        && r.error == MissingMessage(MissingVariables(env.baseUrlVar, env.apiKeyVar)))
  {
    if UseProxy(env) then Ok(Config("", ""))
    else if !Truthy(env.baseUrlVar) || !Truthy(env.apiKeyVar) then
      Err(MissingMessage(MissingVariables(env.baseUrlVar, env.apiKeyVar)))
    else Ok(Config(env.baseUrlVar.value, env.apiKeyVar.value))
  }

  /** Both variables missing: the message lists them in order, comma-separated. */
  lemma BothMissingMessage(env: Env)
    requires !UseProxy(env) && !Truthy(env.baseUrlVar) && !Truthy(env.apiKeyVar)
    ensures GetApiConfig(env) == Err(MissingPrefix + "VITE_API_BASE_URL, VITE_API_KEY" + ". " + CreateEnvHint)
  {
    assert MissingVariables(env.baseUrlVar, env.apiKeyVar) == [BaseUrlVariable, ApiKeyVariable];
    assert Join([BaseUrlVariable, ApiKeyVariable], ", ") == "VITE_API_BASE_URL, VITE_API_KEY";
    assert GetApiConfig(env) == Err(MissingMessage([BaseUrlVariable, ApiKeyVariable]));
  }

  /** The module-level cache behind the `API_CONFIG` getters. */
  class ConfigCache {
    var cached: Option<Config>

    constructor ()
      ensures cached == None
    {
      cached := None;
    }

    /** Fills the cache on first access; a failed validation leaves it empty. */
    method Resolve(env: Env) returns (r: Result<Config, string>)
      modifies this
      ensures old(cached).Some? ==> cached == old(cached) && r == Ok(old(cached).value)
      ensures old(cached).None? ==> (r == GetApiConfig(env)
                                     && cached == (if r.Ok? then Some(r.value) else None))
    {
      if cached.None? {
        r := GetApiConfig(env);
        if r.Ok? {
          cached := Some(r.value);
        }
      } else {
        r := Ok(cached.value);
      }
    }

    /** `API_CONFIG.baseUrl`. */
    method BaseUrl(env: Env) returns (r: Result<string, string>)
      modifies this
      ensures old(cached).Some? ==> cached == old(cached) && r == Ok(old(cached).value.baseUrl)
      ensures old(cached).None? ==> match GetApiConfig(env)
                                   case Ok(c) => cached == Some(c) && r == Ok(c.baseUrl)
                                   case Err(m) => cached == None && r == Err(m)
    {
      var c := Resolve(env);
      r := if c.Ok? then Ok(c.value.baseUrl) else Err(c.error);
    }

    /** `API_CONFIG.apiKey`. */
    method ApiKey(env: Env) returns (r: Result<string, string>)
      modifies this
      ensures old(cached).Some? ==> cached == old(cached) && r == Ok(old(cached).value.apiKey)
      ensures old(cached).None? ==> match GetApiConfig(env)
                                   case Ok(c) => cached == Some(c) && r == Ok(c.apiKey)
                                   case Err(m) => cached == None && r == Err(m)
    {
      var c := Resolve(env);
      r := if c.Ok? then Ok(c.value.apiKey) else Err(c.error);
    }
  }

  /** Once filled, the cache answers from the stored value even if the
      variables would no longer validate. */
  method CachedAnswerScenario(good: Env, bad: Env) returns (first: Result<string, string>, second: Result<string, string>)
    requires !UseProxy(good) && Truthy(good.baseUrlVar) && Truthy(good.apiKeyVar)
    requires !UseProxy(bad) && bad.baseUrlVar.None?
    ensures first == Ok(good.baseUrlVar.value)
    ensures second == Ok(good.apiKeyVar.value)
    ensures GetApiConfig(bad).Err?
  {
    var cache := new ConfigCache();
    first := cache.BaseUrl(good);
    second := cache.ApiKey(bad);
  }
}
