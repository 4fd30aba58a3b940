/**
  The pure part of the command-line configuration: the API endpoint and the
  optional API key, their defaults, their setters and the authentication
  checks. Reading and writing the TOML file is outside this model.
 */
module Settings {
  import opened Errors

  datatype ApiConfig = ApiConfig(endpoint: string)

  datatype AuthConfig = AuthConfig(apiKey: Option<string>)

  datatype Config = Config(api: ApiConfig, auth: AuthConfig)

  const DefaultEndpoint: string := "https://api.zeredata.com"

  /** Whether an API key is stored. */
  function IsAuthenticated(c: Config): (r: bool)
    ensures !r <==> c.auth.apiKey == None
  {
    c.auth.apiKey.Some?
  }

  /** The configuration written on first use: the public endpoint and no
      key, hence not authenticated. */
  function Default(): (r: Config)
    ensures r.api.endpoint == DefaultEndpoint
    ensures r.auth.apiKey.None?
    ensures !IsAuthenticated(r)
  {
    Config.Config(ApiConfig(DefaultEndpoint), AuthConfig(None))
  }

  /** Replaces the endpoint; the credentials are untouched. */
  function SetEndpoint(c: Config, endpoint: string): (r: Config)
    ensures r.api.endpoint == endpoint
    ensures r.auth == c.auth
    ensures IsAuthenticated(r) <==> IsAuthenticated(c)
  {
    c.(api := c.api.(endpoint := endpoint))
  }

  /** Replaces (or, with `None`, removes) the key; the endpoint is untouched. */
  function SetApiKey(c: Config, key: Option<string>): (r: Config)
    ensures r.auth.apiKey == key
    ensures r.api == c.api
    ensures IsAuthenticated(r) <==> key.Some?
  {
    c.(auth := c.auth.(apiKey := key))
  }

  /** The stored key, or the not-authenticated error when there is none. */
  function RequireAuth(c: Config): (r: Result<string>)
    ensures r.Ok? <==> IsAuthenticated(c)
    ensures r.Ok? ==> c.auth.apiKey == Some(r.value)
    ensures r.Err? ==> r.error == NotAuthenticated
  {
    match c.auth.apiKey
    case Some(k) => Ok(k)
    case None => Err(NotAuthenticated)
  }

  /** Storing a key and then asking for it gives back that key; removing it
      makes every authenticated command fail with the not-authenticated
      error; the endpoint never affects either. */
  lemma KeyRoundTrip(c: Config, key: string, endpoint: string)
    ensures RequireAuth(SetApiKey(c, Some(key))) == Ok(key)
    ensures RequireAuth(SetApiKey(c, None)) == Err(NotAuthenticated)
    ensures RequireAuth(SetEndpoint(c, endpoint)) == RequireAuth(c)
  {
  }

  /** The two setters touch disjoint fields, so they commute, and each one
      applied twice keeps only the second value. */
  lemma SettersCommute(c: Config, key: Option<string>, endpoint: string, endpoint2: string, key2: Option<string>)
    ensures SetApiKey(SetEndpoint(c, endpoint), key) == SetEndpoint(SetApiKey(c, key), endpoint)
    ensures SetEndpoint(SetEndpoint(c, endpoint), endpoint2) == SetEndpoint(c, endpoint2)
    ensures SetApiKey(SetApiKey(c, key), key2) == SetApiKey(c, key2)
  {
  }
}
