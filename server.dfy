/**
 * The route table: the optional forward route and one route per configured
 * endpoint, each behind the same CORS middleware, looked up after the
 * trailing-slash rewrite.
 */
module Server {
  import opened Wrappers
  import opened Text
  import opened Http
  import opened Config
  import opened Templates
  import opened TrailingSlash
  import opened Cors
  import opened Proxy
  import opened Forward

  /** The path the forward handler is registered at and that endpoints may not use. */
  const ForwardPath := "/forward"

  datatype Target = ForwardTarget | EndpointTarget(index: nat)

  /** A registered pattern, the CORS policy wrapping its handler, and the handler. */
  datatype Route = Route(pattern: string, cors: CORSConfig, target: Target)

  /** ForwardEndpointEnabled is non-nil and true. */
  predicate ForwardEnabled(c: Config)
  {
    c.server.forwardEndpointEnabled == Some(true)
  }

  /** An endpoint path that the server refuses to register: the forward path, with or without a trailing '/'. */
  predicate Reserved(path: string)
  {
    path in {ForwardPath, ForwardPath + "/"}
  }

  /** Reserved is the test the server applies: the path without one trailing '/' is the forward path. */
  lemma ReservedIsTrimmedForward(path: string)
    ensures Reserved(path) <==> TrimSuffix(path, "/") == ForwardPath
  {
    var t := TrimSuffix(path, "/");
    if HasSuffix(path, "/") {
      assert path == t + "/";
    } else {
      assert t == path;
      assert HasSuffix(ForwardPath + "/", "/");
    }
  }

  /** The pattern an endpoint is registered under: its path, with a '/' appended when missing. */
  function EndpointPattern(path: string): (p: string)
    ensures HasSuffix(p, "/")
    ensures HasSuffix(path, "/") ==> p == path
    ensures !HasSuffix(path, "/") ==> p == path + "/"
  {
    if HasSuffix(path, "/") then path else path + "/"
  }

  /** The routes of the endpoints `eps[..n]`, in order; reserved paths are skipped. */
  function EndpointRoutes(cors: CORSConfig, eps: seq<Endpoint>, n: nat): (r: seq<Route>)
    requires n <= |eps|
  {
    if n == 0 then []
    else
      var prev := EndpointRoutes(cors, eps, n - 1);
      if Reserved(eps[n - 1].path) then prev
      else prev + [Route(EndpointPattern(eps[n - 1].path), cors, EndpointTarget(n - 1))]
  }

  /** How many of `eps[..n]` are skipped as reserved. */
  function Skipped(eps: seq<Endpoint>, n: nat): (r: nat)
    requires n <= |eps|
    ensures r <= n
  {
    if n == 0 then 0
    else Skipped(eps, n - 1) + (if Reserved(eps[n - 1].path) then 1 else 0)
  }

  /** The indices of `eps[..n]` that get a route and a proxy handler. */
  function Registered(eps: seq<Endpoint>, n: nat): (r: set<nat>)
    requires n <= |eps|
    ensures forall k :: k in r ==> k < n
  {
    if n == 0 then {}
    else Registered(eps, n - 1) + (if Reserved(eps[n - 1].path) then {} else {n - 1})
  }

  /** An index is registered exactly when it is in range and its path is not reserved. */
  lemma {:induction false} RegisteredIndices(eps: seq<Endpoint>, n: nat, i: nat)
    requires n <= |eps|
    ensures i in Registered(eps, n) <==> i < n && !Reserved(eps[i].path)
  {
    if n > 0 {
      RegisteredIndices(eps, n - 1, i);
    }
  }

  /** The forward route, under `pattern`, when forwarding is enabled. */
  function ForwardRoutes(c: Config, pattern: string): seq<Route>
  {
    if ForwardEnabled(c) then [Route(pattern, c.cors, ForwardTarget)] else []
  }

  /** A table with the forward route under `forwardPattern`, then the endpoint routes. */
  function Table(c: Config, forwardPattern: string): (r: seq<Route>)
    ensures |r| + Skipped(c.endpoints, |c.endpoints|) == |c.endpoints| + (if ForwardEnabled(c) then 1 else 0)
    ensures ForwardEnabled(c) ==> |r| > 0 && r[0] == Route(forwardPattern, c.cors, ForwardTarget)
  {
    RegisteredPlusSkipped(c.cors, c.endpoints, |c.endpoints|);
    ForwardRoutes(c, forwardPattern) + EndpointRoutes(c.cors, c.endpoints, |c.endpoints|)
  }

  /** The table registerRoutes builds: the forward route is registered at "/forward". */
  function Routes(c: Config): (r: seq<Route>)
    ensures ForwardEnabled(c) ==> |r| > 0 && r[0].pattern == ForwardPath && r[0].target == ForwardTarget
  {
    Table(c, ForwardPath)
  }

  /** Every endpoint is either registered or skipped: registered + skipped = configured. */
  lemma {:induction false} RegisteredPlusSkipped(cors: CORSConfig, eps: seq<Endpoint>, n: nat)
    requires n <= |eps|
    ensures |EndpointRoutes(cors, eps, n)| + Skipped(eps, n) == n
  {
    if n > 0 {
      RegisteredPlusSkipped(cors, eps, n - 1);
    }
  }

  /**
   * Route k of the endpoint routes serves an endpoint that is not reserved,
   * under that endpoint's pattern and the shared CORS policy.
   */
  lemma {:induction false} EndpointRoutesSound(cors: CORSConfig, eps: seq<Endpoint>, n: nat, k: nat)
    requires n <= |eps| && k < |EndpointRoutes(cors, eps, n)|
    ensures EndpointRoutes(cors, eps, n)[k].target.EndpointTarget?
    ensures EndpointRoutes(cors, eps, n)[k].target.index < n
    ensures EndpointRoutes(cors, eps, n)[k].cors == cors
    ensures !Reserved(eps[EndpointRoutes(cors, eps, n)[k].target.index].path)
    ensures EndpointRoutes(cors, eps, n)[k].pattern == EndpointPattern(eps[EndpointRoutes(cors, eps, n)[k].target.index].path)
  {
    var prev := EndpointRoutes(cors, eps, n - 1);
    if k < |prev| {
      EndpointRoutesSound(cors, eps, n - 1, k);
      assert EndpointRoutes(cors, eps, n)[k] == prev[k];
    }
  }

  /** Every endpoint that is not reserved has a route: route k. */
  lemma {:induction false} EndpointRoutesComplete(cors: CORSConfig, eps: seq<Endpoint>, n: nat, i: nat) returns (k: nat)
    requires n <= |eps| && i < n && !Reserved(eps[i].path)
    ensures k < |EndpointRoutes(cors, eps, n)| && EndpointRoutes(cors, eps, n)[k].target == EndpointTarget(i)
  {
    var prev := EndpointRoutes(cors, eps, n - 1);
    EndpointRoutesGrow(cors, eps, n);
    if i == n - 1 {
      k := |prev|;
    } else {
      k := EndpointRoutesComplete(cors, eps, n - 1, i);
    }
  }

  /** One more endpoint keeps the earlier routes and adds its own unless it is reserved. */
  lemma EndpointRoutesGrow(cors: CORSConfig, eps: seq<Endpoint>, n: nat)
    requires 0 < n <= |eps|
    ensures var prev := EndpointRoutes(cors, eps, n - 1);
            var next := EndpointRoutes(cors, eps, n);
            prev <= next
            && |next| == |prev| + (if Reserved(eps[n - 1].path) then 0 else 1)
            && (!Reserved(eps[n - 1].path) ==> next[|prev|].target == EndpointTarget(n - 1))
  {
  }

  /** An endpoint that is not reserved is never registered under "/forward" or "/forward/". */
  lemma PatternNotForward(path: string)
    requires !Reserved(path)
    ensures EndpointPattern(path) != ForwardPath && EndpointPattern(path) != ForwardPath + "/"
  {
    var p := EndpointPattern(path);
    assert p[|p| - 1] == '/';
    assert (ForwardPath + "/")[..|ForwardPath|] == ForwardPath;
    if HasSuffix(path, "/") {
      var t := TrimSuffix(path, "/");
      assert (t + "/")[..|t|] == t;
    } else {
      assert (path + "/")[..|path|] == path;
      assert !HasSuffix(ForwardPath, "/");
    }
  }

  /**
   * The table's routes: the forward route exists exactly when forwarding is
   * enabled, first and under the forward pattern; every other route serves
   * an endpoint that is not reserved, under that endpoint's pattern, which
   * is neither "/forward" nor "/forward/"; every route carries the
   * configured CORS policy.
   */
  lemma RouteTable(c: Config, forwardPattern: string, k: nat)
    requires k < |Table(c, forwardPattern)|
    ensures var route := Table(c, forwardPattern)[k];
            (route.target == ForwardTarget <==> ForwardEnabled(c) && k == 0)
            && (route.target == ForwardTarget ==> route.pattern == forwardPattern)
            && route.cors == c.cors
    ensures var route := Table(c, forwardPattern)[k];
            route.target.EndpointTarget? ==>
              route.target.index < |c.endpoints|
              && !Reserved(c.endpoints[route.target.index].path)
              && route.pattern == EndpointPattern(c.endpoints[route.target.index].path)
              && route.pattern != ForwardPath && route.pattern != ForwardPath + "/"
  {
    var fw := ForwardRoutes(c, forwardPattern);
    if k >= |fw| {
      var eps := EndpointRoutes(c.cors, c.endpoints, |c.endpoints|);
      assert Table(c, forwardPattern)[k] == eps[k - |fw|];
      EndpointRoutesSound(c.cors, c.endpoints, |c.endpoints|, k - |fw|);
      PatternNotForward(c.endpoints[eps[k - |fw|].target.index].path);
    }
  }

  /** A path such as "/forward-api" that only starts like the forward path is not reserved. */
  lemma NearMissNotReserved(suffix: string)
    requires suffix != [] && suffix[0] != '/'
    ensures !Reserved(ForwardPath + suffix)
  {
    var p := ForwardPath + suffix;
    assert |p| > |ForwardPath|;
    assert p[|ForwardPath|] == suffix[0];
    assert (ForwardPath + "/")[|ForwardPath|] == '/';
  }

  /** ServeMux matching: a pattern ending in '/' matches the paths it prefixes, any other only itself. */
  predicate RouteMatches(pattern: string, path: string)
  {
    if HasSuffix(pattern, "/") then HasPrefix(path, pattern) else path == pattern
  }

  /**
   * The route of `routes[..n]` with the longest matching pattern (the
   * earliest of equally long ones), or None when no pattern matches.
   */
  function Lookup(routes: seq<Route>, path: string, n: nat): (r: Option<nat>)
    requires n <= |routes|
    ensures r.Some? ==> r.value < n && RouteMatches(routes[r.value].pattern, path)
    ensures r.Some? ==> forall j :: 0 <= j < n && RouteMatches(routes[j].pattern, path) ==>
                          |routes[j].pattern| <= |routes[r.value].pattern|
    ensures r.None? <==> forall j :: 0 <= j < n ==> !RouteMatches(routes[j].pattern, path)
  {
    if n == 0 then None
    else
      var best := Lookup(routes, path, n - 1);
      if RouteMatches(routes[n - 1].pattern, path)
         && (best.None? || |routes[n - 1].pattern| > |routes[best.value].pattern|)
      then Some(n - 1)
      else best
  }

  /** The route a request path is dispatched to. */
  function Dispatch(routes: seq<Route>, path: string): (r: Option<nat>)
    ensures r.Some? ==> r.value < |routes| && RouteMatches(routes[r.value].pattern, path)
    ensures r.Some? ==> forall j :: 0 <= j < |routes| && RouteMatches(routes[j].pattern, path) ==>
                          |routes[j].pattern| <= |routes[r.value].pattern|
    ensures r.None? <==> forall j :: 0 <= j < |routes| ==> !RouteMatches(routes[j].pattern, path)
  {
    Lookup(routes, path, |routes|)
  }

  /** The rewrite always turns "/forward" into "/forward/". */
  lemma ForwardPathRewritten()
    ensures Normalize(ForwardPath) == ForwardPath + "/"
  {
    NoDotRewritten(ForwardPath);
  }

  /** No request path comes out of the rewrite as "/forward". */
  lemma NormalizedNotForward(path: string)
    ensures Normalize(path) != ForwardPath
  {
    var r := Normalize(path);
    ForwardPathRewritten();
    assert r == path ==> !NeedsSlash(path);
    assert r != path ==> r[|r| - 1] == '/';
    assert ForwardPath[|ForwardPath| - 1] == 'd';
  }

  /**
   * With the trailing-slash rewrite in front, no request path ever reaches
   * the route registered at "/forward": that pattern matches only the exact
   * path "/forward", and the rewrite turns it into "/forward/".
   */
  lemma ForwardUnreachable(c: Config, path: string)
    ensures var d := Dispatch(Routes(c), Normalize(path));
            d.Some? ==> Routes(c)[d.value].target != ForwardTarget
  {
    var d := Dispatch(Routes(c), Normalize(path));
    NormalizedNotForward(path);
    assert !HasSuffix(ForwardPath, "/");
    if d.Some? {
      RouteTable(c, ForwardPath, d.value);
    }
  }

  /** The corrected table: the forward route registered under "/forward/", the pattern the rewritten path can match. */
  function RoutesFixed(c: Config): (r: seq<Route>)
    ensures !ForwardEnabled(c) ==> r == Routes(c)
    ensures ForwardEnabled(c) ==> r == [Route(ForwardPath + "/", c.cors, ForwardTarget)] + Routes(c)[1..]
  {
    Table(c, ForwardPath + "/")
  }

  /** With the corrected table, "/forward" (after the rewrite) reaches the forward handler when it is enabled. */
  lemma ForwardReachableFixed(c: Config)
    requires ForwardEnabled(c)
    ensures var d := Dispatch(RoutesFixed(c), Normalize(ForwardPath));
            d.Some? && RoutesFixed(c)[d.value].target == ForwardTarget
  {
    ForwardPathRewritten();
    ForwardPatternWins(c, Normalize(ForwardPath));
  }

  /** The path "/forward/" is dispatched to the forward route registered under it. */
  lemma ForwardPatternWins(c: Config, path: string)
    requires ForwardEnabled(c) && path == ForwardPath + "/"
    ensures var d := Dispatch(Table(c, path), path);
            d.Some? && Table(c, path)[d.value].target == ForwardTarget
  {
    var routes := Table(c, path);
    RouteTable(c, path, 0);
    assert HasSuffix(path, "/");
    assert RouteMatches(routes[0].pattern, path);
    var d := Dispatch(routes, path);
    var p := routes[d.value].pattern;
    RouteTable(c, path, d.value);
    assert |p| >= |path|;
    assert HasSuffix(p, "/") ==> p == path;
  }

  /**
   * A request at an endpoint path such as "/api" (no trailing '/', no '.'
   * in its last segment), or below it, matches the endpoint's pattern once
   * the trailing-slash rewrite has run, whether the endpoint was
   * configured as "/api" or "/api/".
   */
  lemma EndpointReachable(path: string, rest: string)
    requires !HasSuffix(path, "/") && '.' !in LastSegment(path)
    requires rest == [] || rest[0] == '/'
    ensures RouteMatches(EndpointPattern(path), Normalize(path + rest))
    ensures RouteMatches(EndpointPattern(path + "/"), Normalize(path + rest))
  {
    var pattern := path + "/";
    assert pattern[|pattern| - 1] == '/';
    assert EndpointPattern(path) == pattern;
    RewrittenBelow(path, rest);
  }

  /** The rewritten path starts with the endpoint path and a '/'. */
  lemma RewrittenBelow(path: string, rest: string)
    requires !HasSuffix(path, "/") && '.' !in LastSegment(path)
    requires rest == [] || rest[0] == '/'
    ensures HasPrefix(Normalize(path + rest), path + "/")
  {
    if rest == [] {
      assert path + rest == path;
      assert path != "/";
      SlashAppended(path);
    } else {
      ExtensionBelow(path, rest, Normalize(path + rest));
    }
  }

  /** A path below `path`, with or without a '/' appended, starts with `path` and a '/'. */
  lemma ExtensionBelow(path: string, rest: string, n: string)
    requires rest != [] && rest[0] == '/'
    requires n == path + rest || n == path + rest + "/"
    ensures HasPrefix(n, path + "/")
  {
    assert n[..|path| + 1] == path + "/";
  }

  /**
   * Through the server, a request below an endpoint that gets the
   * trailing-slash rewrite reaches the upstream with a trailing '/': with
   * endpoint "/api", "/api/users" is sent to the remote path, without its
   * trailing '/', followed by "/users/".
   */
  lemma RewrittenPathUpstream(remotePath: string, endpointPath: string, sub: string)
    requires |sub| >= 2 && sub[0] == '/' && sub[|sub| - 1] != '/' && '.' !in LastSegment(endpointPath + sub)
    ensures TargetPath(remotePath, Normalize(endpointPath + sub), endpointPath) == TrimSuffix(remotePath, "/") + (sub + "/")
  {
    SubPathRewritten(endpointPath, sub);
    assert endpointPath + sub + "/" == endpointPath + (sub + "/");
    UpstreamBelow(remotePath, endpointPath, sub + "/", Normalize(endpointPath + sub));
  }

  /** A sub-path that gets the rewrite ends up as the endpoint path, the sub-path and a '/'. */
  lemma SubPathRewritten(endpointPath: string, sub: string)
    requires |sub| >= 2 && sub[0] == '/' && sub[|sub| - 1] != '/' && '.' !in LastSegment(endpointPath + sub)
    ensures Normalize(endpointPath + sub) == endpointPath + sub + "/"
  {
    var q := endpointPath + sub;
    assert q[|q| - 1] == sub[|sub| - 1];
    assert q != "/";
    SlashAppended(q);
  }

  /** A request path below the endpoint reaches the remote path followed by what is below. */
  lemma UpstreamBelow(remotePath: string, endpointPath: string, rest: string, requestPath: string)
    requires rest != [] && rest[0] == '/' && requestPath == endpointPath + rest
    ensures TargetPath(remotePath, requestPath, endpointPath) == TrimSuffix(remotePath, "/") + rest
  {
    StripBelowEndpoint(endpointPath, rest);
  }

  /** The server: its configuration, its route table and one proxy handler per registered endpoint. */
  class Handler {
    const config: Config
    var routes: seq<Route>
    var proxies: map<nat, ProxyHandler>

    /** The endpoint state the proxy handlers own. */
    ghost function Cells(): set<EndpointCell>
      reads this
    {
      set i | i in proxies :: proxies[i].endpoint
    }

    /**
     * The table and the handlers hold what registerRoutes puts there for the
     * first n endpoints: the route list, one handler per registered
     * endpoint, each sharing the configuration and owning its endpoint
     * state alone.
     */
    ghost predicate Consistent(n: nat)
      reads this
    {
      n <= |config.endpoints|
      && routes == ForwardRoutes(config, ForwardPath + "/") + EndpointRoutes(config.cors, config.endpoints, n)
      && proxies.Keys == Registered(config.endpoints, n)
      && (forall i :: i in proxies ==> proxies[i].cfg == config)
      && (forall i, j :: i in proxies && j in proxies && i != j ==> proxies[i].endpoint != proxies[j].endpoint)
    }

    /** The state after registerRoutes: every endpoint has been dealt with. */
    ghost predicate Valid()
      reads this
    {
      Consistent(|config.endpoints|)
    }

    /** Each handler's endpoint state is still the endpoint as configured: no request has been served yet. */
    ghost predicate AsConfigured()
      reads this, Cells()
    {
      forall i :: i in proxies ==> i < |config.endpoints| && proxies[i].endpoint.Value() == config.endpoints[i]
    }

    /** NewDynamicRoutingHandler: the table is the corrected one, RoutesFixed. */
    constructor (cfg: Config)
      ensures config == cfg && Valid() && AsConfigured() && fresh(Cells())
      ensures routes == RoutesFixed(cfg)
    {
      config := cfg;
      routes := [];
      proxies := map[];
      new;
      var _, _ := RegisterRoutes();
    }

    /**
     * registerRoutes: a fresh table holding the forward route when enabled
     * (under "/forward/", the pattern that the rewritten path "/forward"
     * matches; RoutesFixed), then every endpoint whose path is not reserved
     * under its pattern,
     * each with a proxy handler of its own; returns the counts it logs.
     */
    method RegisterRoutes() returns (registered: nat, skipped: nat)
      modifies this
      ensures Valid() && AsConfigured() && fresh(Cells())
      ensures registered == |EndpointRoutes(config.cors, config.endpoints, |config.endpoints|)|
      ensures skipped == Skipped(config.endpoints, |config.endpoints|)
      ensures registered + skipped == |config.endpoints|
    {
      ResetRoutes();
      registered, skipped := 0, 0;
      var i := 0;
      while i < |config.endpoints|
        invariant Consistent(i) && AsConfigured() && fresh(Cells())
        invariant registered == |EndpointRoutes(config.cors, config.endpoints, i)|
        invariant skipped == Skipped(config.endpoints, i)
      {
        var added := RegisterEndpoint(i);
        if added {
          registered := registered + 1;
        } else {
          skipped := skipped + 1;
        }
        i := i + 1;
      }
      RegisteredPlusSkipped(config.cors, config.endpoints, |config.endpoints|);
    }

    /** The start of registerRoutes: a new table holding only the forward route, when it is enabled. */
    method ResetRoutes()
      modifies this
      ensures Consistent(0) && AsConfigured() && fresh(Cells())
    {
      routes := [];
      proxies := map[];
      if config.server.forwardEndpointEnabled.Some? && config.server.forwardEndpointEnabled.value {
        routes := routes + [Route(ForwardPath + "/", config.cors, ForwardTarget)];
      }
    }

    /**
     * One pass of registerRoutes' loop: endpoint i is skipped when its path
     * is reserved, and otherwise registered under its pattern with a proxy
     * handler of its own.
     */
    method RegisterEndpoint(i: nat) returns (added: bool)
      requires i < |config.endpoints| && Consistent(i) && AsConfigured()
      modifies this
      ensures added <==> !Reserved(config.endpoints[i].path)
      ensures Consistent(i + 1) && AsConfigured()
      ensures forall c :: c in Cells() ==> c in old(Cells()) || fresh(c)
    {
      var endpoint := config.endpoints[i];
      var path := endpoint.path;
      ReservedIsTrimmedForward(path);
      if TrimSuffix(path, "/") == ForwardPath {
        return false;
      }
      if !HasSuffix(path, "/") {
        path := path + "/";
      }
      var handler := new ProxyHandler(endpoint, config);
      var route := Route(path, config.cors, EndpointTarget(i));
      ghost var forward := ForwardRoutes(config, ForwardPath + "/");
      ghost var before := EndpointRoutes(config.cors, config.endpoints, i);
      assert EndpointRoutes(config.cors, config.endpoints, i + 1) == before + [route];
      assert (forward + before) + [route] == forward + (before + [route]);
      routes := routes + [route];
      proxies := proxies[i := handler];
      added := true;
    }

    /** Whether request `r` reaches the proxy handler of endpoint `i`. */
    predicate ServedBy(r: Request, i: nat)
      reads this
    {
      var d := Dispatch(routes, NormalizeRequest(r).url.path);
      r.verb != "OPTIONS" && d.Some? && routes[d.value].target == EndpointTarget(i)
    }

    /**
     * ServeHTTP: rewrites the path, dispatches it, and answers 404 when no
     * route matches; otherwise the matched route's handler runs.
     */
    method ServeHTTP(w: ResponseWriter, r: Request, env: Environment, lib: Library, upstream: Upstream)
      returns (sent: Option<OutboundRequest>)
      requires Valid()
      modifies w, Cells()
      ensures var d := Dispatch(routes, NormalizeRequest(r).url.path);
              d.None? ==> sent == None && w.Snapshot() == WithError(old(w.Snapshot()), "404 page not found", 404)
      ensures var req := NormalizeRequest(r);
              var d := Dispatch(routes, req.url.path);
              d.Some? && r.verb == "OPTIONS" ==>
                sent == None && w.Snapshot() == PreflightResponse(config.cors, Get(req.header, "Origin"), old(w.Snapshot()))
      ensures var req := NormalizeRequest(r);
              var d := Dispatch(routes, req.url.path);
              var corsed := old(w.Snapshot()).(header := CorsHeaders(config.cors, Get(req.header, "Origin"), old(w.header)));
              d.Some? && r.verb != "OPTIONS" && routes[d.value].target == ForwardTarget ==>
                sent == Outbound(ForwardPlan(lib, config, req))
                && w.Snapshot() == Answer(corsed, ForwardPlan(lib, config, req), upstream)
      ensures var req := NormalizeRequest(r);
              var d := Dispatch(routes, req.url.path);
              var corsed := old(w.Snapshot()).(header := CorsHeaders(config.cors, Get(req.header, "Origin"), old(w.header)));
              d.Some? && r.verb != "OPTIONS" && routes[d.value].target.EndpointTarget? ==>
                var i := routes[d.value].target.index;
                i in proxies
                && proxies[i].endpoint.Value() == ResolveEndpoint(env, old(proxies[i].endpoint.Value()))
                && sent == Outbound(ProxyPlan(lib, config, proxies[i].endpoint.Value(), req))
                && w.Snapshot() == Answer(corsed, ProxyPlan(lib, config, proxies[i].endpoint.Value(), req), upstream)
      ensures forall i :: i in proxies && !ServedBy(r, i) ==>
                proxies[i].endpoint.Value() == old(proxies[i].endpoint.Value())
    {
      var req := NormalizeRequest(r);
      var d := Dispatch(routes, req.url.path);
      if d.None? {
        w.Error("404 page not found", 404);
        return None;
      }
      sent := ServeRoute(d.value, w, req, env, lib, upstream);
    }

    /**
     * The handler registered for route k: the CORS middleware, which answers
     * a preflight itself, then the forward handler or the endpoint's proxy
     * handler.
     */
    method ServeRoute(k: nat, w: ResponseWriter, req: Request, env: Environment, lib: Library, upstream: Upstream)
      returns (sent: Option<OutboundRequest>)
      requires Valid() && k < |routes|
      modifies w, Cells()
      ensures req.verb == "OPTIONS" ==>
                sent == None && w.Snapshot() == PreflightResponse(config.cors, Get(req.header, "Origin"), old(w.Snapshot()))
      ensures var corsed := old(w.Snapshot()).(header := CorsHeaders(config.cors, Get(req.header, "Origin"), old(w.header)));
              req.verb != "OPTIONS" && routes[k].target == ForwardTarget ==>
                sent == Outbound(ForwardPlan(lib, config, req))
                && w.Snapshot() == Answer(corsed, ForwardPlan(lib, config, req), upstream)
      ensures var corsed := old(w.Snapshot()).(header := CorsHeaders(config.cors, Get(req.header, "Origin"), old(w.header)));
              req.verb != "OPTIONS" && routes[k].target.EndpointTarget? ==>
                var i := routes[k].target.index;
                i in proxies
                && proxies[i].endpoint.Value() == ResolveEndpoint(env, old(proxies[i].endpoint.Value()))
                && sent == Outbound(ProxyPlan(lib, config, proxies[i].endpoint.Value(), req))
                && w.Snapshot() == Answer(corsed, ProxyPlan(lib, config, proxies[i].endpoint.Value(), req), upstream)
      ensures forall i :: i in proxies && !(req.verb != "OPTIONS" && routes[k].target == EndpointTarget(i)) ==>
                proxies[i].endpoint.Value() == old(proxies[i].endpoint.Value())
    {
      RouteTable(config, ForwardPath + "/", k);
      var callNext := ServeCors(routes[k].cors, w, req);
      if !callNext {
        return None;
      }
      sent := ServeTarget(k, w, req, env, lib, upstream);
    }

    /** The forward handler or the endpoint's proxy handler behind route k, once CORS let the request through. */
    method ServeTarget(k: nat, w: ResponseWriter, req: Request, env: Environment, lib: Library, upstream: Upstream)
      returns (sent: Option<OutboundRequest>)
      requires Valid() && k < |routes|
      modifies w, Cells()
      ensures routes[k].target == ForwardTarget ==>
                sent == Outbound(ForwardPlan(lib, config, req))
                && w.Snapshot() == Answer(old(w.Snapshot()), ForwardPlan(lib, config, req), upstream)
      ensures routes[k].target.EndpointTarget? ==>
                var i := routes[k].target.index;
                i in proxies
                && proxies[i].endpoint.Value() == ResolveEndpoint(env, old(proxies[i].endpoint.Value()))
                && sent == Outbound(ProxyPlan(lib, config, proxies[i].endpoint.Value(), req))
                && w.Snapshot() == Answer(old(w.Snapshot()), ProxyPlan(lib, config, proxies[i].endpoint.Value(), req), upstream)
      ensures forall i :: i in proxies && routes[k].target != EndpointTarget(i) ==>
                proxies[i].endpoint.Value() == old(proxies[i].endpoint.Value())
    {
      RouteTable(config, ForwardPath + "/", k);
      match routes[k].target
      case ForwardTarget =>
        sent := ServeForward(config, lib, w, req, upstream);
      case EndpointTarget(i) =>
        RegisteredIndices(config.endpoints, |config.endpoints|, i);
        sent := proxies[i].Serve(w, req, env, lib, upstream);
    }
  }
}
