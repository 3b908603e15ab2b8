/**
 * The CORS middleware: decides the Access-Control-Allow-Origin value, sets
 * the configured CORS response headers, answers preflight (OPTIONS)
 * requests itself and passes every other request on.
 */
module Cors {
  import opened Text
  import opened Http
  import opened Config

  const AllowOrigin := "Access-Control-Allow-Origin"
  const AllowMethods := "Access-Control-Allow-Methods"
  const AllowHeaders := "Access-Control-Allow-Headers"
  const AllowCredentials := "Access-Control-Allow-Credentials"
  const MaxAge := "Access-Control-Max-Age"
  /** One day, in seconds. */
  const PreflightMaxAge := "86400"

  /**
   * One configured origin pattern against a request origin: "*" matches
   * everything, "*.domain" matches any origin ending in ".domain", and any
   * other pattern matches itself only.
   */
  predicate PatternMatches(pattern: string, origin: string)
    ensures pattern == "*" || pattern == origin ==> PatternMatches(pattern, origin)
    ensures PatternMatches(pattern, origin) && !HasPrefix(pattern, "*") ==> origin == pattern
  {
    pattern == "*" || pattern == origin
    || (HasPrefix(pattern, "*.") && HasSuffix(origin, "." + pattern[2..]))
  }

  /** An origin is allowed when it is non-empty and some pattern matches it. */
  predicate OriginAllowed(origin: string, patterns: seq<string>)
    ensures OriginAllowed(origin, patterns) ==> origin != ""
    ensures origin != "" && ("*" in patterns || origin in patterns) ==> OriginAllowed(origin, patterns)
  {
    origin != "" && exists i :: 0 <= i < |patterns| && PatternMatches(patterns[i], origin)
  }

  /** isOriginAllowed: the patterns are tried in order and the first match answers. */
  method IsOriginAllowed(origin: string, patterns: seq<string>) returns (allowed: bool)
    ensures allowed <==> OriginAllowed(origin, patterns)
  {
    if origin == "" {
      return false;
    }
    var i := 0;
    while i < |patterns|
      invariant 0 <= i <= |patterns|
      invariant forall j :: 0 <= j < i ==> !PatternMatches(patterns[j], origin)
    {
      var pattern := patterns[i];
      if pattern == "*" || pattern == origin {
        return true;
      }
      if HasPrefix(pattern, "*.") {
        var domain := pattern[2..];
        if HasSuffix(origin, "." + domain) {
          return true;
        }
      }
      i := i + 1;
    }
    return false;
  }

  /**
   * The Access-Control-Allow-Origin value, "" meaning the header is not set:
   * "*" when the origins contain the wildcard and credentials are off, else
   * the request origin when a pattern allows it.
   */
  function AllowedOrigin(cors: CORSConfig, origin: string): (v: string)
    ensures "*" in cors.origins && !cors.credentials ==> v == "*"
    ensures !("*" in cors.origins && !cors.credentials) ==>
              (OriginAllowed(origin, cors.origins) ==> v == origin)
              && (!OriginAllowed(origin, cors.origins) ==> v == "")
    ensures v != "" ==> v == "*" || v == origin
  {
    if WildcardOriginAllowed(cors) && !cors.credentials then "*"
    else if OriginAllowed(origin, cors.origins) then origin
    else ""
  }

  /** The headers the middleware writes before it either answers a preflight or calls the next handler. */
  function CorsHeaders(cors: CORSConfig, origin: string, h: Multimap): (r: Multimap)
    ensures var v := AllowedOrigin(cors, origin);
            Values(r, AllowOrigin) == (if v != "" then [v] else Values(h, AllowOrigin))
    ensures Values(r, AllowMethods) == (if cors.methods != "" then [cors.methods] else Values(h, AllowMethods))
    ensures Values(r, AllowHeaders) == (if cors.headers != "" then [cors.headers] else Values(h, AllowHeaders))
    ensures Values(r, AllowCredentials) == (if cors.credentials then ["true"] else Values(h, AllowCredentials))
    ensures forall k :: k !in {AllowOrigin, AllowMethods, AllowHeaders, AllowCredentials} ==>
              (k in r <==> k in h) && Values(r, k) == Values(h, k)
  {
    var v := AllowedOrigin(cors, origin);
    var h1 := if v != "" then Set(h, AllowOrigin, v) else h;
    var h2 := if cors.methods != "" then Set(h1, AllowMethods, cors.methods) else h1;
    var h3 := if cors.headers != "" then Set(h2, AllowHeaders, cors.headers) else h2;
    if cors.credentials then Set(h3, AllowCredentials, "true") else h3
  }

  /** The response after a preflight: the CORS headers, the max age and status 200. */
  function PreflightResponse(cors: CORSConfig, origin: string, resp: Response): (r: Response)
    ensures Values(r.header, MaxAge) == [PreflightMaxAge]
    ensures forall k :: k != MaxAge ==> Values(r.header, k) == Values(CorsHeaders(cors, origin, resp.header), k)
    ensures r.status == (if resp.status == 0 then 200 else resp.status)
    ensures r.body == resp.body
  {
    WithStatus(resp.(header := Set(CorsHeaders(cors, origin, resp.header), MaxAge, PreflightMaxAge)), 200)
  }

  /**
   * The middleware's handler: writes the CORS headers, then answers an
   * OPTIONS request with status 200 itself (`callNext` false) or asks for
   * the next handler to run (`callNext` true).
   */
  method ServeCors(cors: CORSConfig, w: ResponseWriter, req: Request) returns (callNext: bool)
    modifies w
    ensures callNext <==> req.verb != "OPTIONS"
    ensures callNext ==>
      w.Snapshot() == old(w.Snapshot()).(header := CorsHeaders(cors, Get(req.header, "Origin"), old(w.header)))
    ensures !callNext ==>
      w.Snapshot() == PreflightResponse(cors, Get(req.header, "Origin"), old(w.Snapshot()))
  {
    var origin := Get(req.header, "Origin");
    var allowedOrigin := "";
    var allowed := IsOriginAllowed(origin, cors.origins);
    if WildcardOriginAllowed(cors) && !cors.credentials {
      allowedOrigin := "*";
    } else if allowed {
      allowedOrigin := origin;
    }
    if allowedOrigin != "" {
      w.SetHeader(AllowOrigin, allowedOrigin);
    }
    if cors.methods != "" {
      w.SetHeader(AllowMethods, cors.methods);
    }
    if cors.headers != "" {
      w.SetHeader(AllowHeaders, cors.headers);
    }
    if cors.credentials {
      w.SetHeader(AllowCredentials, "true");
    }
    if req.verb == "OPTIONS" {
      w.SetHeader(MaxAge, PreflightMaxAge);
      w.WriteHeader(200);
      return false;
    }
    return true;
  }

  /** A request without an Origin header is never given its own origin back. */
  lemma EmptyOriginNotAllowed(cors: CORSConfig)
    ensures AllowedOrigin(cors, "") == (if "*" in cors.origins && !cors.credentials then "*" else "")
  {
  }

  /**
   * "*.domain" matches exactly the origins that end in ".domain" (and the
   * pattern's own text): a sub-domain, never the bare domain.
   */
  lemma SubdomainPattern(domain: string, origin: string)
    ensures PatternMatches("*." + domain, origin) <==> origin == "*." + domain || HasSuffix(origin, "." + domain)
  {
    var p := "*." + domain;
    assert p[..2] == "*.";
    assert p[2..] == domain;
  }

  /** "*.domain" admits any origin that ends in "." followed by the domain ("https://api.example.com"). */
  lemma SubdomainMatched(prefix: string, domain: string)
    ensures PatternMatches("*." + domain, prefix + "." + domain)
  {
    SubdomainPattern(domain, prefix + "." + domain);
    assert prefix + "." + domain == prefix + ("." + domain);
  }

  /** A text whose character where `suffix` would start differs from the suffix's first does not end with it. */
  lemma MismatchNotSuffix(s: string, suffix: string)
    requires suffix != [] && |suffix| <= |s| && s[|s| - |suffix|] != suffix[0]
    ensures !HasSuffix(s, suffix)
  {
    assert s[|s| - |suffix|..][0] == s[|s| - |suffix|];
  }

  /**
   * "*.domain" does not admit the bare domain: an origin made of a scheme
   * part not ending in '.' and then the domain ("https://example.com").
   */
  lemma ApexNotMatched(prefix: string, domain: string)
    requires prefix != [] && prefix[|prefix| - 1] != '.'
    ensures !PatternMatches("*." + domain, prefix + domain)
  {
    var origin := prefix + domain;
    var suffix := "." + domain;
    SubdomainPattern(domain, origin);
    assert origin[|prefix| - 1] == prefix[|prefix| - 1];
    MismatchNotSuffix(origin, suffix);
    assert |prefix| == 2 ==> origin[1] != ("*." + domain)[1];
  }

  /**
   * In a configuration that passed validation, "*" is sent exactly when the
   * wildcard is the only origin, and with credentials on the header is
   * either absent or the request's own origin.
   */
  lemma ValidatedAllowOrigin(cors: CORSConfig, origin: string)
    requires ValidateCORSConfig(cors).None?
    ensures AllowedOrigin(cors, origin) == "*" <==> cors.origins == ["*"]
    ensures cors.credentials ==> AllowedOrigin(cors, origin) in {"", origin}
  {
    if "*" in cors.origins {
      ValidWildcardStandsAlone(cors);
    } else if origin == "*" {
      forall i | 0 <= i < |cors.origins| ensures !PatternMatches(cors.origins[i], origin) {
        OnlyWildcardMatchesStar(cors.origins[i]);
      }
    }
  }

  /** The origin "*" is matched by the pattern "*" alone. */
  lemma OnlyWildcardMatchesStar(pattern: string)
    ensures PatternMatches(pattern, "*") ==> pattern == "*"
  {
    if HasPrefix(pattern, "*.") {
      var d := "." + pattern[2..];
      assert d[0] == '.';
    }
  }

  /**
   * Without validation, a configuration holding "*" with credentials on
   * echoes any non-empty origin back, because "*" matches every origin.
   */
  lemma UnvalidatedWildcardEchoesOrigin(cors: CORSConfig, origin: string)
    requires "*" in cors.origins && cors.credentials && origin != ""
    ensures AllowedOrigin(cors, origin) == origin
  {
    var i :| 0 <= i < |cors.origins| && cors.origins[i] == "*";
    assert PatternMatches(cors.origins[i], origin);
  }
}
