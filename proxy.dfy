/**
 * The endpoint proxy handler and the shared routine that performs an
 * upstream request and relays its answer to the client.
 */
module Proxy {
  import opened Wrappers
  import opened Text
  import opened Http
  import opened Config
  import opened Templates

  /** A request the handler answers itself with an error status and message. */
  datatype Rejection = Rejection(status: nat, message: string)

  /** The request sent upstream under a plan, if the plan is not a rejection. */
  function Outbound(plan: Result<OutboundRequest, Rejection>): Option<OutboundRequest>
  {
    if plan.Success? then Some(plan.value) else None
  }

  /** What the client receives under a plan: the rejection as an error, or the relayed upstream outcome. */
  function Answer(resp: Response, plan: Result<OutboundRequest, Rejection>, upstream: Upstream): Response
  {
    match plan
    case Failure(rejection) => WithError(resp, rejection.message, rejection.status)
    case Success(_) => Relay(resp, upstream)
  }

  /** What the client receives once the upstream round trip has ended. */
  function Relay(resp: Response, upstream: Upstream): (r: Response)
    ensures upstream.TransportFailure? ==> r == WithError(resp, "Request failed", 502)
    ensures upstream.Reply? ==>
              r.body == resp.body + upstream.body
              && (forall k :: Values(r.header, k) == Values(resp.header, k) + Values(upstream.header, k))
              && r.status == (if resp.status != 0 then resp.status
                              else if upstream.status != 0 then upstream.status
                              else if upstream.body != "" then 200 else 0)
  {
    match upstream
    case TransportFailure => WithError(resp, "Request failed", 502)
    case Reply(status, header, body) =>
      var h := WithStatus(resp.(header := AddAll(resp.header, header, {})), status);
      if body == "" then h else WithBody(h, body)
  }

  /**
   * On a fresh response writer the client gets the upstream reply as it
   * came: its status, every header value in order, and its body.
   */
  lemma RelayFreshReply(status: nat, header: Multimap, body: string)
    requires status != 0
    ensures var r := Relay(Response(0, map[], ""), Reply(status, header, body));
            r.status == status && r.body == body
            && forall k :: Values(r.header, k) == Values(header, k)
  {
  }

  /** A transport failure (including the client timeout) becomes a plain-text 502 "Request failed". */
  lemma RelayFreshFailure()
    ensures var r := Relay(Response(0, map[], ""), TransportFailure);
            r.status == 502 && r.body == "Request failed\n"
            && Get(r.header, "Content-Type") == "text/plain; charset=utf-8"
            && Get(r.header, "X-Content-Type-Options") == "nosniff"
  {
  }

  /** executeProxyRequest, once the round trip's outcome is known. */
  method ExecuteProxyRequest(w: ResponseWriter, upstream: Upstream)
    modifies w
    ensures w.Snapshot() == Relay(old(w.Snapshot()), upstream)
  {
    match upstream
    case TransportFailure =>
      w.Error("Request failed", 502);
    case Reply(status, header, body) =>
      w.AddHeaders(header);
      w.WriteHeader(status);
      if body != "" {
        w.Write(body);
      }
  }

  /**
   * The part of the request path after the endpoint path, always starting
   * with '/'.
   */
  function StripEndpointPath(requestPath: string, endpointPath: string): (p: string)
    ensures p != [] && p[0] == '/'
    ensures var rest := TrimPrefix(requestPath, endpointPath);
            p == (if rest != [] && rest[0] == '/' then rest else "/" + rest)
  {
    var rest := TrimPrefix(requestPath, endpointPath);
    if rest == "" || rest[0] != '/' then "/" + rest else rest
  }

  /** The upstream path: the remote URL's path without its trailing '/', then the stripped request path. */
  function TargetPath(remotePath: string, requestPath: string, endpointPath: string): (p: string)
    ensures HasPrefix(p, TrimSuffix(remotePath, "/"))
    ensures HasSuffix(p, StripEndpointPath(requestPath, endpointPath))
    ensures |p| == |TrimSuffix(remotePath, "/")| + |StripEndpointPath(requestPath, endpointPath)|
  {
    var base := TrimSuffix(remotePath, "/");
    var tail := StripEndpointPath(requestPath, endpointPath);
    assert (base + tail)[|base + tail| - |tail|..] == tail;
    base + tail
  }

  /** A request below the endpoint path keeps what follows that path, with a leading '/'. */
  lemma StripBelowEndpoint(endpointPath: string, rest: string)
    ensures StripEndpointPath(endpointPath + rest, endpointPath)
         == (if rest != [] && rest[0] == '/' then rest else "/" + rest)
  {
    assert HasPrefix(endpointPath + rest, endpointPath);
  }

  /**
   * With remote URL path "/v1/" (or "/v1") and endpoint path "/api", the
   * request path "/api/users" is sent to "/v1/users", and "/api" itself to "/v1/".
   */
  lemma TargetPathExample(remotePath: string)
    requires remotePath == "/v1" || remotePath == "/v1/"
    ensures TargetPath(remotePath, "/api" + "/users", "/api") == "/v1" + "/users"
    ensures TargetPath(remotePath, "/api", "/api") == "/v1" + "/"
  {
    StripBelowEndpoint("/api", "/users");
    StripBelowEndpoint("/api", "");
    assert "/api" + "" == "/api";
  }

  /**
   * The request the handler would send for an endpoint whose templates are
   * already resolved, or the error it answers with. Its checks, in order:
   * the remote URL must parse (else 500 "Invalid remote URL"), and the new
   * request must be buildable (else 500 "Failed to create request").
   */
  function ProxyPlan(lib: Library, cfg: Config, e: Endpoint, r: Request): (res: Result<OutboundRequest, Rejection>)
    ensures lib.parseURL(e.remoteURL).None? ==> res == Failure(Rejection(500, "Invalid remote URL"))
    ensures lib.parseURL(e.remoteURL).Some? ==>
      var base := lib.parseURL(e.remoteURL).value;
      var url := base.(path := TargetPath(base.path, r.url.path, e.path), rawQuery := r.url.rawQuery);
      (res.Failure? <==> !lib.requestBuildable(r.verb, url))
      && (res.Failure? ==> res.error == Rejection(500, "Failed to create request"))
      && (res.Success? ==> res.value.url.(rawQuery := url.rawQuery) == url && res.value.host == base.host)
    ensures res.Success? ==> res.value.verb == r.verb && res.value.timeout == GetEffectiveTimeout(lib, cfg, e)
  {
    match lib.parseURL(e.remoteURL)
    case None => Failure(Rejection(500, "Invalid remote URL"))
    case Some(base) =>
      var url := base.(path := TargetPath(base.path, r.url.path, e.path), rawQuery := r.url.rawQuery);
      if !lib.requestBuildable(r.verb, url) then Failure(Rejection(500, "Failed to create request"))
      else
        var header := SetEach(AddAll(map[], r.header, {}), e.headers);
        var query := SetEach(lib.parseQuery(url.rawQuery), e.queryParams);
        Success(OutboundRequest(r.verb, url.(rawQuery := lib.encodeQuery(query)), header, base.host,
                                GetEffectiveTimeout(lib, cfg, e)))
  }

  /**
   * The upstream query: the client's query parsed, each configured map
   * applied with Set in order, then encoded again.
   */
  lemma ProxyQuery(lib: Library, cfg: Config, e: Endpoint, r: Request, key: string)
    requires ProxyPlan(lib, cfg, e, r).Success?
    ensures var q := SetEach(lib.parseQuery(r.url.rawQuery), e.queryParams);
            ProxyPlan(lib, cfg, e, r).value.url.rawQuery == lib.encodeQuery(q)
            && ((forall j :: 0 <= j < |e.queryParams| ==> key !in e.queryParams[j])
                ==> Values(q, key) == Values(lib.parseQuery(r.url.rawQuery), key))
            && (forall j :: 0 <= j < |e.queryParams| && key in e.queryParams[j]
                           && (forall j' :: j < j' < |e.queryParams| ==> key !in e.queryParams[j'])
                           ==> Values(q, key) == [e.queryParams[j][key]])
  {
    var start := lib.parseQuery(r.url.rawQuery);
    if forall j :: 0 <= j < |e.queryParams| ==> key !in e.queryParams[j] {
      SetEachKeepsUnconfigured(start, e.queryParams, key);
    }
    forall j | 0 <= j < |e.queryParams| && key in e.queryParams[j]
               && (forall j' :: j < j' < |e.queryParams| ==> key !in e.queryParams[j'])
      ensures Values(SetEach(start, e.queryParams), key) == [e.queryParams[j][key]]
    {
      SetEachLastWins(start, e.queryParams, j, key);
    }
  }

  /**
   * The upstream headers: a key set by some configured map carries exactly
   * the value of the last map that sets it; any other key carries the
   * client's values unchanged.
   */
  lemma ProxyHeaders(lib: Library, cfg: Config, e: Endpoint, r: Request, key: string)
    requires ProxyPlan(lib, cfg, e, r).Success?
    ensures ProxyPlan(lib, cfg, e, r).value.header == SetEach(AddAll(map[], r.header, {}), e.headers)
    ensures var h := ProxyPlan(lib, cfg, e, r).value.header;
            (forall j :: 0 <= j < |e.headers| ==> key !in e.headers[j]) ==> Values(h, key) == Values(r.header, key)
    ensures var h := ProxyPlan(lib, cfg, e, r).value.header;
            forall j :: 0 <= j < |e.headers| && key in e.headers[j]
                        && (forall j' :: j < j' < |e.headers| ==> key !in e.headers[j'])
                        ==> Values(h, key) == [e.headers[j][key]]
  {
    var start := AddAll(map[], r.header, {});
    if forall j :: 0 <= j < |e.headers| ==> key !in e.headers[j] {
      SetEachKeepsUnconfigured(start, e.headers, key);
    }
    forall j | 0 <= j < |e.headers| && key in e.headers[j]
               && (forall j' :: j < j' < |e.headers| ==> key !in e.headers[j'])
      ensures Values(SetEach(start, e.headers), key) == [e.headers[j][key]]
    {
      SetEachLastWins(start, e.headers, j, key);
    }
  }

  /**
   * The handler built for one endpoint. It keeps its own copy of the
   * endpoint and resolves its templates in place on every request, so the
   * values a first request substituted are the ones later requests see.
   */
  class ProxyHandler {
    const endpoint: EndpointCell
    const cfg: Config

    constructor (e: Endpoint, cfg: Config)
      ensures endpoint.Value() == e && this.cfg == cfg
      ensures fresh(endpoint)
    {
      endpoint := new EndpointCell(e);
      this.cfg := cfg;
    }

    /**
     * Serves one request. `env` is the process environment at that moment
     * and `upstream` the outcome of the round trip; `sent` is the request
     * sent upstream, if any.
     */
    method Serve(w: ResponseWriter, r: Request, env: Environment, lib: Library, upstream: Upstream)
      returns (sent: Option<OutboundRequest>)
      modifies w, endpoint
      ensures endpoint.Value() == ResolveEndpoint(env, old(endpoint.Value()))
      ensures sent == Outbound(ProxyPlan(lib, cfg, endpoint.Value(), r))
      ensures w.Snapshot() == Answer(old(w.Snapshot()), ProxyPlan(lib, cfg, endpoint.Value(), r), upstream)
    {
      ProcessEndpointTemplates(endpoint, env);
      var parsed := lib.parseURL(endpoint.remoteURL);
      if parsed.None? {
        w.Error("Invalid remote URL", 500);
        return None;
      }
      var target := parsed.value;
      var path := TrimPrefix(r.url.path, endpoint.path);
      if path == "" || path[0] != '/' {
        path := "/" + path;
      }
      target := target.(path := TrimSuffix(target.path, "/") + path);
      target := target.(rawQuery := r.url.rawQuery);
      if !lib.requestBuildable(r.verb, target) {
        w.Error("Failed to create request", 500);
        return None;
      }
      var header := AddAllValues(map[], r.header, {});
      header := SetAllMaps(header, endpoint.headers);
      var query := lib.parseQuery(target.rawQuery);
      query := SetAllMaps(query, endpoint.queryParams);
      target := target.(rawQuery := lib.encodeQuery(query));
      var timeout := GetEffectiveTimeout(lib, cfg, endpoint.Value());
      sent := Some(OutboundRequest(r.verb, target, header, parsed.value.host, timeout));
      ExecuteProxyRequest(w, upstream);
    }
  }
}
