/**
 * The ad-hoc forward handler: proxies to the URL named by the request's
 * `url` query parameter, restricted to http and https.
 */
module Forward {
  import opened Wrappers
  import opened Http
  import opened Config
  import opened Proxy

  /** The scheme a forward target ends up with: "https" when the URL names none. */
  function EffectiveScheme(scheme: string): (r: string)
    ensures r != ""
    ensures scheme != "" ==> r == scheme
  {
    if scheme == "" then "https" else scheme
  }

  /**
   * The request the forward handler would send, or the error it answers
   * with. Its checks, in order: a non-empty `url` parameter (400), a URL
   * that parses (400), an http or https scheme (400), a buildable request
   * (500).
   */
  function ForwardPlan(lib: Library, cfg: Config, r: Request): (res: Result<OutboundRequest, Rejection>)
    ensures var target := Get(lib.parseQuery(r.url.rawQuery), "url");
            target == "" ==> res == Failure(Rejection(400, "Missing 'url' query parameter"))
    ensures var target := Get(lib.parseQuery(r.url.rawQuery), "url");
            target != "" && lib.parseURL(target).None? ==> res == Failure(Rejection(400, "Invalid URL in 'url' parameter"))
    ensures var target := Get(lib.parseQuery(r.url.rawQuery), "url");
            target != "" && lib.parseURL(target).Some?
            && EffectiveScheme(lib.parseURL(target).value.scheme) !in {"http", "https"}
            ==> res == Failure(Rejection(400, "Only HTTP and HTTPS URLs are allowed"))
    ensures res.Success? ==>
              var target := Get(lib.parseQuery(r.url.rawQuery), "url");
              var parsed := lib.parseURL(target);
              target != "" && parsed.Some?
              && res.value.url == parsed.value.(scheme := EffectiveScheme(parsed.value.scheme))
              && res.value.url.scheme in {"http", "https"}
              && lib.requestBuildable(r.verb, res.value.url)
              && res.value.verb == r.verb
              && res.value.host == parsed.value.host
              && res.value.timeout == GetDefaultTimeout(lib, cfg)
    ensures var target := Get(lib.parseQuery(r.url.rawQuery), "url");
            var parsed := lib.parseURL(target);
            res.Success? <==>
              target != "" && parsed.Some?
              && EffectiveScheme(parsed.value.scheme) in {"http", "https"}
              && lib.requestBuildable(r.verb, parsed.value.(scheme := EffectiveScheme(parsed.value.scheme)))
    ensures var target := Get(lib.parseQuery(r.url.rawQuery), "url");
            var parsed := lib.parseURL(target);
            target != "" && parsed.Some? && EffectiveScheme(parsed.value.scheme) in {"http", "https"}
            && !lib.requestBuildable(r.verb, parsed.value.(scheme := EffectiveScheme(parsed.value.scheme)))
            ==> res == Failure(Rejection(500, "Failed to create request"))
    ensures res.Failure? ==> res.error.status in {400, 500}
  {
    var target := Get(lib.parseQuery(r.url.rawQuery), "url");
    if target == "" then Failure(Rejection(400, "Missing 'url' query parameter"))
    else match lib.parseURL(target)
      case None => Failure(Rejection(400, "Invalid URL in 'url' parameter"))
      case Some(parsed) =>
        var url := parsed.(scheme := EffectiveScheme(parsed.scheme));
        if url.scheme != "http" && url.scheme != "https" then
          Failure(Rejection(400, "Only HTTP and HTTPS URLs are allowed"))
        else if !lib.requestBuildable(r.verb, url) then
          Failure(Rejection(500, "Failed to create request"))
        else
          Success(OutboundRequest(r.verb, url, AddAll(map[], r.header, {"Host"}), url.host,
                                  GetDefaultTimeout(lib, cfg)))
  }

  /**
   * The forwarded headers are the client's, value for value, except that a
   * "Host" entry is never copied.
   */
  lemma ForwardHeaders(lib: Library, cfg: Config, r: Request, key: string)
    requires ForwardPlan(lib, cfg, r).Success?
    ensures Values(ForwardPlan(lib, cfg, r).value.header, key) == (if key == "Host" then [] else Values(r.header, key))
    ensures "Host" !in ForwardPlan(lib, cfg, r).value.header
  {
  }

  /** Only "http" and "https" targets, explicit or defaulted, are ever contacted. */
  lemma ForwardSchemes(lib: Library, cfg: Config, r: Request)
    requires ForwardPlan(lib, cfg, r).Success?
    ensures var target := Get(lib.parseQuery(r.url.rawQuery), "url");
            lib.parseURL(target).value.scheme in {"", "http", "https"}
  {
  }

  /**
   * The forward handler's request handling (ForwardHandler), with the
   * round trip's outcome as `upstream`; `sent` is the request sent, if any.
   */
  method ServeForward(cfg: Config, lib: Library, w: ResponseWriter, r: Request, upstream: Upstream)
    returns (sent: Option<OutboundRequest>)
    modifies w
    ensures sent == Outbound(ForwardPlan(lib, cfg, r))
    ensures w.Snapshot() == Answer(old(w.Snapshot()), ForwardPlan(lib, cfg, r), upstream)
  {
    var target := Get(lib.parseQuery(r.url.rawQuery), "url");
    if target == "" {
      w.Error("Missing 'url' query parameter", 400);
      return None;
    }
    var parsed := lib.parseURL(target);
    if parsed.None? {
      w.Error("Invalid URL in 'url' parameter", 400);
      return None;
    }
    var url := parsed.value;
    if url.scheme == "" {
      url := url.(scheme := "https");
    }
    if url.scheme != "http" && url.scheme != "https" {
      w.Error("Only HTTP and HTTPS URLs are allowed", 400);
      return None;
    }
    if !lib.requestBuildable(r.verb, url) {
      w.Error("Failed to create request", 500);
      return None;
    }
    var header := AddAllValues(map[], r.header, {"Host"});
    sent := Some(OutboundRequest(r.verb, url, header, url.host, GetDefaultTimeout(lib, cfg)));
    ExecuteProxyRequest(w, upstream);
  }
}
