/**
 * The configuration record and what is done to it after loading:
 * validation, filling in defaults, and choosing timeouts.
 * Durations are integer nanoseconds.
 */
module Config {
  import opened Wrappers
  import opened Http

  /** DEFAULT_TIMEOUT: ten seconds. */
  const DefaultTimeout: int := 10_000_000_000
  /** DEFAULT_TIMEOUT.String(). */
  const DefaultTimeoutText: string := "10s"

  datatype ServerConfig = ServerConfig(
    address: string,
    port: int,
    forwardEndpointEnabled: Option<bool>,  // a *bool: None is nil
    defaultTimeout: string)

  datatype CORSConfig = CORSConfig(origins: seq<string>, methods: string, headers: string, credentials: bool)

  datatype LoggingConfig = LoggingConfig(level: string, format: string)

  /** A configured endpoint; headers and query parameters are lists of maps, applied in order. */
  datatype Endpoint = Endpoint(
    path: string,
    remoteURL: string,
    headers: seq<map<string, string>>,
    queryParams: seq<map<string, string>>,
    timeout: string)

  datatype Config = Config(server: ServerConfig, cors: CORSConfig, logging: LoggingConfig, endpoints: seq<Endpoint>)

  datatype ConfigError =
    | CredentialsWithWildcard
    | WildcardNotAlone
    | InvalidServerTimeout(value: string)
    | InvalidEndpointTimeout(index: nat, value: string)
    | EmptyPath(index: nat)
    | EmptyRemoteURL(index: nat)

  /** CORSConfig.WildcardOriginAllowed. */
  function WildcardOriginAllowed(cors: CORSConfig): (b: bool)
    ensures b <==> exists i :: 0 <= i < |cors.origins| && cors.origins[i] == "*"
  {
    "*" in cors.origins
  }

  /** validateCORSConfig: the credentials conflict is reported before the lone-wildcard rule. */
  function ValidateCORSConfig(cors: CORSConfig): (err: Option<ConfigError>)
    ensures err.None? <==> !("*" in cors.origins && (cors.credentials || |cors.origins| > 1))
    ensures err == Some(CredentialsWithWildcard) <==> "*" in cors.origins && cors.credentials
    ensures err == Some(WildcardNotAlone) <==> "*" in cors.origins && !cors.credentials && |cors.origins| > 1
  {
    var hasWildcard := WildcardOriginAllowed(cors);
    if cors.credentials && hasWildcard then Some(CredentialsWithWildcard)
    else if hasWildcard && |cors.origins| > 1 then Some(WildcardNotAlone)
    else None
  }

  /** In an accepted CORS configuration the wildcard is the only origin and credentials are off. */
  lemma ValidWildcardStandsAlone(cors: CORSConfig)
    requires ValidateCORSConfig(cors).None? && "*" in cors.origins
    ensures cors.origins == ["*"] && !cors.credentials
  {
  }

  /** A timeout string is acceptable when it is empty or parses. */
  predicate TimeoutValid(lib: Library, s: string)
  {
    s == "" || ParseDuration(lib, s).Some?
  }

  /** The first endpoint, from index `from` on, whose timeout is not acceptable. */
  function EndpointTimeoutError(lib: Library, eps: seq<Endpoint>, from: nat): (err: Option<ConfigError>)
    requires from <= |eps|
    ensures err.None? <==> forall i :: from <= i < |eps| ==> TimeoutValid(lib, eps[i].timeout)
    ensures err.Some? ==> exists i :: from <= i < |eps| && err == Some(InvalidEndpointTimeout(i, eps[i].timeout))
                                      && !TimeoutValid(lib, eps[i].timeout)
                                      && forall j :: from <= j < i ==> TimeoutValid(lib, eps[j].timeout)
    decreases |eps| - from
  {
    if from == |eps| then None
    else if !TimeoutValid(lib, eps[from].timeout) then Some(InvalidEndpointTimeout(from, eps[from].timeout))
    else EndpointTimeoutError(lib, eps, from + 1)
  }

  /** What validateTimeoutConfig reports: the server default first, then the endpoints in order. */
  function TimeoutError(lib: Library, c: Config): (err: Option<ConfigError>)
  {
    if !TimeoutValid(lib, c.server.defaultTimeout) then Some(InvalidServerTimeout(c.server.defaultTimeout))
    else EndpointTimeoutError(lib, c.endpoints, 0)
  }

  /** validateTimeoutConfig. */
  method ValidateTimeoutConfig(lib: Library, c: Config) returns (err: Option<ConfigError>)
    ensures err == TimeoutError(lib, c)
    ensures err.None? <==> TimeoutValid(lib, c.server.defaultTimeout)
                           && forall i :: 0 <= i < |c.endpoints| ==> TimeoutValid(lib, c.endpoints[i].timeout)
  {
    if c.server.defaultTimeout != "" {
      if ParseDuration(lib, c.server.defaultTimeout).None? {
        return Some(InvalidServerTimeout(c.server.defaultTimeout));
      }
    }
    var i := 0;
    while i < |c.endpoints|
      invariant 0 <= i <= |c.endpoints|
      invariant EndpointTimeoutError(lib, c.endpoints, 0) == EndpointTimeoutError(lib, c.endpoints, i)
    {
      var timeout := c.endpoints[i].timeout;
      if timeout != "" {
        if ParseDuration(lib, timeout).None? {
          return Some(InvalidEndpointTimeout(i, timeout));
        }
      }
      i := i + 1;
    }
    return None;
  }

  /** The first endpoint, from index `from` on, with an empty path or remote URL. */
  function EndpointFieldError(eps: seq<Endpoint>, from: nat): (err: Option<ConfigError>)
    requires from <= |eps|
    ensures err.None? <==> forall i :: from <= i < |eps| ==> eps[i].path != "" && eps[i].remoteURL != ""
    ensures err.Some? ==> exists i :: from <= i < |eps|
                                      && (forall j :: from <= j < i ==> eps[j].path != "" && eps[j].remoteURL != "")
                                      && err == Some(if eps[i].path == "" then EmptyPath(i) else EmptyRemoteURL(i))
                                      && (eps[i].path == "" || eps[i].remoteURL == "")
    decreases |eps| - from
  {
    if from == |eps| then None
    else if eps[from].path == "" then Some(EmptyPath(from))
    else if eps[from].remoteURL == "" then Some(EmptyRemoteURL(from))
    else EndpointFieldError(eps, from + 1)
  }

  /** validateConfig: CORS, then timeouts, then the endpoints' fields, stopping at the first error. */
  method ValidateConfig(lib: Library, c: Config) returns (err: Option<ConfigError>)
    ensures ValidateCORSConfig(c.cors).Some? ==> err == ValidateCORSConfig(c.cors)
    ensures ValidateCORSConfig(c.cors).None? && TimeoutError(lib, c).Some? ==> err == TimeoutError(lib, c)
    ensures ValidateCORSConfig(c.cors).None? && TimeoutError(lib, c).None? ==> err == EndpointFieldError(c.endpoints, 0)
  {
    err := ValidateCORSConfig(c.cors);
    if err.Some? {
      return;
    }
    err := ValidateTimeoutConfig(lib, c);
    if err.Some? {
      return;
    }
    var i := 0;
    while i < |c.endpoints|
      invariant 0 <= i <= |c.endpoints|
      invariant EndpointFieldError(c.endpoints, 0) == EndpointFieldError(c.endpoints, i)
    {
      if c.endpoints[i].path == "" {
        return Some(EmptyPath(i));
      }
      if c.endpoints[i].remoteURL == "" {
        return Some(EmptyRemoteURL(i));
      }
      i := i + 1;
    }
    return None;
  }

  /** Config.GetDefaultTimeout: the parsed server timeout, or DEFAULT_TIMEOUT when it does not parse. */
  function GetDefaultTimeout(lib: Library, c: Config): (d: int)
    ensures ParseDuration(lib, c.server.defaultTimeout) == Some(d)
         || (ParseDuration(lib, c.server.defaultTimeout).None? && d == DefaultTimeout)
    ensures c.server.defaultTimeout == "" ==> d == DefaultTimeout
  {
    match ParseDuration(lib, c.server.defaultTimeout)
    case Some(t) => t
    case None => DefaultTimeout
  }

  /**
   * Config.GetEffectiveTimeout: the server default when the endpoint sets
   * none, the endpoint's own when it parses, and DEFAULT_TIMEOUT (not the
   * server default) when it is set but does not parse.
   */
  function GetEffectiveTimeout(lib: Library, c: Config, e: Endpoint): (d: int)
    ensures e.timeout == "" ==> d == GetDefaultTimeout(lib, c)
    ensures ParseDuration(lib, e.timeout).Some? ==> d == ParseDuration(lib, e.timeout).value
    ensures e.timeout != "" && ParseDuration(lib, e.timeout).None? ==> d == DefaultTimeout
  {
    if e.timeout == "" then GetDefaultTimeout(lib, c)
    else match ParseDuration(lib, e.timeout)
      case None => DefaultTimeout
      case Some(t) => t
  }

  /** Once validation accepted the endpoint's timeout, the 10-second fallback is never used for it. */
  lemma ValidatedEffectiveTimeout(lib: Library, c: Config, e: Endpoint)
    requires TimeoutValid(lib, e.timeout)
    ensures GetEffectiveTimeout(lib, c, e)
         == if e.timeout == "" then GetDefaultTimeout(lib, c) else ParseDuration(lib, e.timeout).value
  {
  }

  /** setDefaults, as a function of the configuration. */
  function Defaulted(c: Config): (r: Config)
    ensures r.cors == c.cors && r.endpoints == c.endpoints
    ensures r.server.address != "" && r.server.port != 0 && r.server.defaultTimeout != ""
    ensures r.server.forwardEndpointEnabled.Some? && r.logging.level != "" && r.logging.format != ""
    ensures r.server.address == if c.server.address == "" then "localhost" else c.server.address
    ensures r.server.port == if c.server.port == 0 then 8080 else c.server.port
    ensures r.server.defaultTimeout == if c.server.defaultTimeout == "" then DefaultTimeoutText else c.server.defaultTimeout
    ensures r.server.forwardEndpointEnabled
         == if c.server.forwardEndpointEnabled.None? then Some(true) else c.server.forwardEndpointEnabled
    ensures r.logging.level == if c.logging.level == "" then "info" else c.logging.level
    ensures r.logging.format == if c.logging.format == "" then "text" else c.logging.format
  {
    var s := c.server;
    var l := c.logging;
    c.(server := ServerConfig(
         if s.address == "" then "localhost" else s.address,
         if s.port == 0 then 8080 else s.port,
         if s.forwardEndpointEnabled.None? then Some(true) else s.forwardEndpointEnabled,
         if s.defaultTimeout == "" then DefaultTimeoutText else s.defaultTimeout),
       logging := LoggingConfig(
         if l.level == "" then "info" else l.level,
         if l.format == "" then "text" else l.format))
  }

  /** Filling in defaults a second time changes nothing. */
  lemma DefaultsIdempotent(c: Config)
    ensures Defaulted(Defaulted(c)) == Defaulted(c)
  {
  }

  /** A *Config: the record setDefaults updates in place. */
  class ConfigCell {
    var server: ServerConfig
    var cors: CORSConfig
    var logging: LoggingConfig
    var endpoints: seq<Endpoint>

    constructor (c: Config)
      ensures Value() == c
    {
      server, cors, logging, endpoints := c.server, c.cors, c.logging, c.endpoints;
    }

    function Value(): Config
      reads this
    {
      Config(server, cors, logging, endpoints)
    }
  }

  /** setDefaults: assigns each zero-valued field its default. */
  method SetDefaults(c: ConfigCell)
    modifies c
    ensures c.Value() == Defaulted(old(c.Value()))
  {
    if c.server.address == "" {
      c.server := c.server.(address := "localhost");
    }
    if c.server.port == 0 {
      c.server := c.server.(port := 8080);
    }
    if c.server.defaultTimeout == "" {
      c.server := c.server.(defaultTimeout := DefaultTimeoutText);
    }
    if c.server.forwardEndpointEnabled.None? {
      c.server := c.server.(forwardEndpointEnabled := Some(true));
    }
    if c.logging.level == "" {
      c.logging := c.logging.(level := "info");
    }
    if c.logging.format == "" {
      c.logging := c.logging.(format := "text");
    }
  }
}
