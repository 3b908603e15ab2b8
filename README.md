# corsair, modelled in Dafny

corsair is a small reverse proxy that adds CORS headers to upstream APIs.
A YAML configuration lists endpoints. Each endpoint has:

- a local path;
- a remote URL;
- lists of header and query-parameter maps;
- an optional timeout.

Values may name environment variables as `{{ NAME }}` placeholders. The
server registers one route per endpoint. It can also register an ad-hoc
forward route, `/forward?url=...`. Every route sits behind the same CORS
middleware. Before routing, a trailing-slash rewrite is applied to the
request path.

This project models that core:

- **Configuration** (`config.dfy`): validation, defaults and timeout
  selection.
- **Templates** (`templates.dfy`): placeholder substitution as a
  left-to-right scan, and the in-place resolution of an endpoint.
- **Trailing slash** (`trailing_slash.dfy`): the path rewrite.
- **CORS** (`cors.dfy`): origin matching, the Access-Control-Allow-Origin
  choice, the headers written, and preflight answers.
- **Proxy handler** (`proxy.dfy`): the upstream URL, headers, query and
  timeout, and the relay of the upstream answer.
- **Forward handler** (`forward.dfy`): the same, for the forward route.
- **Server** (`server.dfy`): the route table, the `Handler` class that
  registers routes and owns one proxy handler per endpoint, and the
  dispatch of a request.

Two supporting modules are not part of the source:

- `text.dfy` models the few `strings` functions used.
- `http.dfy` models header and query multimaps, requests, and a
  `ResponseWriter` class.

The `*Endpoint` and `*Config` values that the source updates in place are
classes: `Templates.EndpointCell` and `Config.ConfigCell`. Each has a
`Value()` snapshot.

Durations are integer nanoseconds. Some library behaviour is passed in as
a `Library` value of functions:

- `time.ParseDuration` on non-empty text;
- `url.Parse`;
- the parsing and encoding of raw queries;
- whether `http.NewRequest` accepts a method and URL.

The environment is a map. An absent name and the empty name read as `""`,
as `os.Getenv` does.

The model follows the code in two places that are easy to misread:

- An endpoint timeout that is set but does not parse falls back to
  `DEFAULT_TIMEOUT` (10 seconds), not to the server default
  (config/config.go:157-162). The doc comment of `GetEffectiveTimeout`
  (config/config.go:150) reads as if every endpoint without a usable
  timeout used the global default.
- A proxy handler resolves templates in its own copy of the endpoint on
  every request (handlers/proxy.go:54). Values substituted by a first
  request therefore stay in later requests
  (`Templates.ResolvedEndpointIsKept`).

One part deliberately departs from the code. Through the server, the
forward route registered at `/forward` is never reached (see Findings).
`Server.Routes` keeps the table as written. The `Handler` class registers
the forward route under the corrected pattern `/forward/` instead.

## Model

| member | source | states |
|---|---|---|
| Text.TrimSpaceOfPadded | config/templates.go:13 | TrimSpace removes exactly the leading and trailing white space around a core that starts and ends with a non-space |
| Config.WildcardOriginAllowed | config/config.go:101-103 | true exactly when some configured origin is `*` |
| Config.ValidateCORSConfig | config/config.go:105-119 | rejects `*` with credentials first, then `*` mixed with other origins, and accepts everything else |
| Config.ValidWildcardStandsAlone | config/config.go:105-119 | in an accepted CORS configuration that holds `*`, the origins are exactly `["*"]` and credentials are off |
| Config.EndpointTimeoutError | config/config.go:129-136 | none exactly when every endpoint timeout from `from` on is empty or parses; otherwise the first bad index and its text |
| Config.ValidateTimeoutConfig | config/config.go:121-139 | the loop reports the server default first, then the first bad endpoint timeout; no error exactly when all timeouts are empty or parse |
| Config.EndpointFieldError | config/config.go:89-97 | none exactly when every endpoint has a path and a remote URL; otherwise the first offender, with the path checked before the URL |
| Config.ValidateConfig | config/config.go:78-99 | the CORS error if any, else the timeout error if any, else the first endpoint field error |
| Config.GetDefaultTimeout | config/config.go:141-148 | the parsed server timeout, or 10 s when it does not parse (including when it is empty) |
| Config.GetEffectiveTimeout | config/config.go:150-165 | the server default for an empty endpoint timeout, the parsed one when it parses, 10 s otherwise |
| Config.ValidatedEffectiveTimeout | config/config.go:150-165 | for a timeout that validation accepts, the 10 s fallback is never taken |
| Config.Defaulted | config/config.go:167-188 | every zero-valued field gets its default (localhost, 8080, "10s", forwarding on, info, text); CORS and endpoints are untouched |
| Config.DefaultsIdempotent | config/config.go:167-188 | applying the defaults twice equals applying them once |
| Config.SetDefaults | config/config.go:167-188 | the in-place update leaves the record equal to Defaulted of its old value |
| Http.AddEachValue | handlers/proxy.go:34-36 | the key's values gain the given values, in order; no other key changes |
| Http.AddAllValues | handlers/proxy.go:82-86 | copying every value of every key not skipped gives AddAll: each key's values are the old ones followed by the source's |
| Http.AddAll | handlers/proxy.go:82-86 | the keys are the destination's plus the non-empty source keys outside `skip`; each key's values are the destination's followed by the source's |
| Http.SetPairs | handlers/proxy.go:90-92 | every key of the map ends with exactly its one configured value; other keys keep theirs |
| Http.SetAllPairs | handlers/proxy.go:90-92 | the loop of Set calls over one map equals SetPairs |
| Http.SetAllMaps | handlers/proxy.go:89-93 | the nested loop equals SetEach, the maps applied in list order |
| Http.SetEachLastWins | handlers/proxy.go:89-93 | a key set by some configured map ends with the single value of the last map that sets it |
| Http.SetEachKeepsUnconfigured | handlers/proxy.go:97-101 | a key that no configured map sets keeps its presence and its values |
| Http.ResponseWriter.Error | handlers/proxy.go:25 | http.Error: plain-text headers, then the status if none was written yet, then the message and a newline |
| Http.ParseDuration | config/config.go:124 | the empty string never parses |
| Templates.MatchLength | config/templates.go:9 | a match found at the front of the text is at least 5 characters and fits in the text |
| Templates.MatchLengthExact | config/templates.go:9 | a prefix of length m is a placeholder exactly when the scan finds a match of length m at the front, so at most one prefix matches |
| Templates.Resolve | config/templates.go:11-19 | the left-to-right scan of ProcessTemplates; text holding no `{` comes back unchanged (its other properties are the lemmas below) |
| Templates.NoPlaceholderUnchanged | config/templates.go:11-19 | text that contains no placeholder anywhere is returned unchanged |
| Templates.PlaceholderThenRest | config/templates.go:11-19 | a placeholder at the front is replaced on its own and the scan resumes right after it |
| Templates.PlainTextThenRest | config/templates.go:11-19 | text without `{` is copied through and the scan continues after it |
| Templates.PlaceholderSubstitution | config/templates.go:12-17 | `{{ NAME }}` with any spacing becomes the value of the trimmed name when that value is non-empty, and stays as matched otherwise |
| Templates.UnsetVariablesLeaveInput | config/templates.go:14-17 | when no referenced variable has a non-empty value, the output equals the input |
| Templates.EmptyEnvironmentIdentity | config/templates.go:11-19 | with an empty environment every text is returned unchanged |
| Templates.BearerToken | config/templates.go:11-19 | `Bearer {{ NAME }}` becomes `Bearer ` followed by NAME's value, or stays as written when the value is empty |
| Templates.SecondPassResolvesValues | config/templates.go:11-19 | substitution is not idempotent: for any names A and B and non-empty value x, with A set to `{{B}}` and B to x, one pass turns `{{A}}` into `{{B}}` and a second pass into x |
| Templates.NamedPlaceholder | config/templates.go:11-19 | `{{NAME}}` alone becomes NAME's value when that is non-empty and stays as written otherwise |
| Templates.BlankPlaceholderKept | config/templates.go:13-17 | a placeholder of white space alone names the empty variable and stays as written, whatever the environment holds |
| Templates.ResolveMap | config/templates.go:25-27 | resolving the values of a map keeps its keys |
| Templates.ResolveMaps | config/templates.go:24-34 | resolving a list of maps keeps its length |
| Templates.EmptyEnvironmentKeepsEndpoint | config/templates.go:21-34 | with an empty environment an endpoint is left as it is |
| Templates.ResolvedEndpointIsKept | handlers/proxy.go:54 | an endpoint whose URL was resolved under NAME=a stays a when NAME later holds b, whereas the configured endpoint would now resolve to b |
| Templates.ResolveEndpoint | config/templates.go:21-34 | the endpoint ProcessEndpointTemplates leaves: path and timeout unchanged, the same number of header and query maps, each with the same keys |
| Templates.ProcessEndpointTemplates | config/templates.go:21-34 | the URL and every header and query value are replaced by their resolution; path, timeout, list lengths and keys are unchanged |
| Templates.ResolveEach | config/templates.go:24-28 | the outer loop over a list of maps yields each map resolved, in order |
| Templates.ResolveValues | config/templates.go:25-27 | the inner loop yields the map with every value resolved |
| TrailingSlash.LastSegment | middleware/trailing_slash.go:21 | the text after the last `/`, which is a suffix of the path preceded by a `/` when shorter than the path |
| TrailingSlash.LastSegmentHasNoSlash | middleware/trailing_slash.go:21 | the last segment contains no `/` |
| TrailingSlash.Normalize | middleware/trailing_slash.go:21-27 | the path is either unchanged or gets exactly one `/` appended; it is appended exactly when the path is empty or does not end in `/`, and its last segment holds no `.` |
| TrailingSlash.NormalizeRequest | middleware/trailing_slash.go:23-27 | only the URL path of the request changes |
| TrailingSlash.NormalizedShape | middleware/trailing_slash.go:21-27 | the router always sees a path that ends in `/` or whose last segment holds a `.` |
| TrailingSlash.UnchangedPaths | middleware/trailing_slash.go:21 | the root, a path ending in `/`, and a file-like last segment pass through unchanged |
| TrailingSlash.SlashAppended | middleware/trailing_slash.go:21-27 | every other path, the empty one included, gets one `/` appended |
| TrailingSlash.NoDotRewritten | middleware/trailing_slash.go:21-27 | a non-empty path without any `.` that does not end in `/` gets one `/` appended |
| TrailingSlash.DotInEarlierSegment | middleware/trailing_slash.go:21 | a `.` in an earlier segment does not stop the rewrite |
| TrailingSlash.NormalizeIdempotent | middleware/trailing_slash.go:21-27 | rewriting twice equals rewriting once |
| Cors.PatternMatches | middleware/cors.go:77-91 | `*` and the origin itself match; a pattern not starting with `*` matches only itself |
| Cors.OriginAllowed | middleware/cors.go:72-95 | an allowed origin is non-empty; a non-empty origin is allowed when `*` or the origin itself is among the patterns |
| Cors.IsOriginAllowed | middleware/cors.go:72-94 | true exactly when the origin is non-empty and some pattern matches it (`*`, the origin itself, or `*.domain` on a `.domain` suffix) |
| Cors.AllowedOrigin | middleware/cors.go:26-36 | `*` when the wildcard is configured and credentials are off; otherwise the origin when it is allowed, else no header |
| Cors.CorsHeaders | middleware/cors.go:38-52 | the four CORS headers take their single configured value when set; every other header is unchanged |
| Cors.PreflightResponse | middleware/cors.go:55-63 | a preflight gets the CORS headers, a one-day max age and status 200 (unless a status was already written), body unchanged; every header other than the max age holds exactly what the CORS headers put there |
| Cors.ServeCors | middleware/cors.go:14-67 | OPTIONS is answered with the preflight response and stops; any other request gets the CORS headers and goes on |
| Cors.EmptyOriginNotAllowed | middleware/cors.go:72-75 | a request without an Origin gets `*` or nothing, never its own origin |
| Cors.SubdomainPattern | middleware/cors.go:84-91 | `*.domain` matches exactly the origins ending in `.domain`, plus its own text |
| Cors.SubdomainMatched | middleware/cors.go:84-91 | `*.domain` admits any origin that ends in `.` followed by the domain |
| Cors.ApexNotMatched | middleware/cors.go:84-91 | `*.domain` does not admit the bare domain after a scheme part |
| Cors.ValidatedAllowOrigin | middleware/cors.go:26-31 | for any request origin, in a validated configuration `*` is sent exactly when it is the only origin, and with credentials only the request's own origin or nothing is sent |
| Cors.OnlyWildcardMatchesStar | middleware/cors.go:77-91 | the origin `*` is matched by the pattern `*` alone |
| Cors.UnvalidatedWildcardEchoesOrigin | middleware/cors.go:28-31 | without validation, `*` with credentials echoes any non-empty origin |
| Proxy.Relay | handlers/proxy.go:22-44 | a transport failure becomes 502 "Request failed"; a reply adds its headers after the existing ones, sets its status unless one was written, and appends its body |
| Proxy.RelayFreshReply | handlers/proxy.go:33-44 | on a fresh writer the client gets the reply's status, every header value in order, and its body |
| Proxy.RelayFreshFailure | handlers/proxy.go:23-26 | on a fresh writer a failure gives status 502, the plain-text headers and the body "Request failed\n" |
| Proxy.ExecuteProxyRequest | handlers/proxy.go:15-45 | the writer ends equal to Relay of its old state and the upstream outcome |
| Proxy.StripEndpointPath | handlers/proxy.go:64-67 | the request path without the endpoint prefix, always starting with `/` |
| Proxy.TargetPath | handlers/proxy.go:69 | exactly the remote path minus its trailing `/` followed by the stripped request path (prefix, suffix and length) |
| Proxy.StripBelowEndpoint | handlers/proxy.go:64-67 | a request below the endpoint keeps what follows the endpoint path, given a leading `/` |
| Proxy.TargetPathExample | handlers/proxy.go:63-69 | with remote `/v1/` or `/v1` and endpoint `/api`, `/api/users` goes to `/v1/users` and `/api` to `/v1/` |
| Proxy.ProxyPlan | handlers/proxy.go:53-105 | 500 "Invalid remote URL" when the URL does not parse; 500 "Failed to create request" exactly when the request cannot be built; otherwise the client's method, the target path and host, and the effective timeout |
| Proxy.ProxyQuery | handlers/proxy.go:95-102 | the client's query with each configured map applied by Set in order, then encoded; unconfigured keys keep their values |
| Proxy.ProxyHeaders | handlers/proxy.go:81-93 | a configured header carries the last configured value only; every other header carries the client's values |
| Proxy.ProxyHandler.Serve | handlers/proxy.go:48-107 | resolves the endpoint's templates in place, then sends ProxyPlan's request and answers as Answer says |
| Forward.ForwardPlan | handlers/forward.go:15-64 | 400 for a missing `url`, 400 for an unparsable one, 400 for a scheme other than http or https (empty means https), 500 for an unbuildable request; success exactly when none of these applies, and then the target URL, its host and the server default timeout |
| Forward.ForwardHeaders | handlers/forward.go:51-59 | the forwarded headers are the client's, value for value, without any Host entry |
| Forward.EffectiveScheme | handlers/forward.go:32-35 | the scheme is never empty after the default, and a scheme that is named is kept |
| Forward.ForwardSchemes | handlers/forward.go:32-42 | a forwarded target named the scheme http, https or none |
| Forward.ServeForward | handlers/forward.go:13-69 | sends ForwardPlan's request and answers with its rejection or the relayed outcome |
| Server.ReservedIsTrimmedForward | server/server.go:53 | a path is reserved exactly when, without one trailing `/`, it is `/forward` |
| Server.EndpointPattern | server/server.go:66-68 | the endpoint path, with a `/` appended when missing, so it always ends in `/` |
| Server.Registered | server/server.go:49-81 | only indices of endpoints already visited are registered |
| Server.RegisteredIndices | server/server.go:49-81 | an endpoint is registered exactly when its path is not reserved |
| Server.RegisteredPlusSkipped | server/server.go:47-86 | registered plus skipped equals the number of configured endpoints |
| Server.EndpointRoutesSound | server/server.go:49-81 | every endpoint route serves an endpoint that is not reserved, under that endpoint's pattern and the shared CORS policy |
| Server.EndpointRoutesComplete | server/server.go:49-81 | every endpoint that is not reserved has a route |
| Server.EndpointRoutesGrow | server/server.go:49-81 | visiting one more endpoint keeps the earlier routes and appends its route unless it is reserved |
| Server.PatternNotForward | server/server.go:53-68 | an endpoint that is not reserved is never registered under `/forward` or `/forward/` |
| Server.EndpointRoutes | server/server.go:49-81 | the routes of the endpoints whose paths are not reserved, in order (its properties are Server.EndpointRoutesSound, Server.EndpointRoutesComplete and Server.EndpointRoutesGrow) |
| Server.Skipped | server/server.go:52-57 | the number of endpoints skipped as reserved, at most the number considered |
| Server.Table | server/server.go:32-87 | the table size is the forward route (when enabled) plus the endpoints that were not skipped; when forwarding is enabled the forward route comes first under the given pattern |
| Server.Routes | server/server.go:38-44 | the table as written: when forwarding is enabled its first route is the forward handler under `/forward` |
| Server.RouteTable | server/server.go:32-87 | the forward route exists exactly when enabled and comes first; every other route serves a registered endpoint under its pattern; all routes carry the configured CORS policy |
| Server.NearMissNotReserved | server/server.go:53 | a path such as `/forward-api` that only starts like the forward path is not reserved |
| Server.Lookup | server/server.go:94-96 | the matching route with the longest pattern, or none exactly when no pattern matches; `/`-terminated patterns match by prefix, others exactly |
| Server.Dispatch | server/server.go:94-96 | the route a request path reaches in the whole table: a matching route with the longest pattern, or none exactly when no pattern matches |
| Server.ForwardPathRewritten | server/server.go:93-96 | the rewrite turns `/forward` into `/forward/` |
| Server.NormalizedNotForward | server/server.go:93-96 | no request path comes out of the rewrite as `/forward` |
| Server.ForwardUnreachable | server/server.go:40 | with the table as written, no request is ever dispatched to the forward route |
| Server.RoutesFixed | server/server.go:38-44 | the corrected table differs from the one as written only in the forward route's pattern, `/forward/` instead of `/forward` |
| Server.ForwardReachableFixed | server/server.go:39-44 | with the forward route under `/forward/`, a request for `/forward` reaches the forward handler when forwarding is enabled |
| Server.ForwardPatternWins | server/server.go:39-44 | the path `/forward/` is dispatched to the forward route registered under it, whatever endpoints are configured |
| Server.EndpointReachable | server/server.go:59-68 | a request at or below an endpoint path matches the endpoint's pattern after the rewrite, whether the endpoint was configured with or without a trailing `/` |
| Server.RewrittenBelow | server/server.go:59-68 | the rewritten path of a request at or below an endpoint starts with the endpoint path and a `/` |
| Server.ExtensionBelow | server/server.go:59-68 | a path below the endpoint, with or without a `/` appended, starts with the endpoint path and a `/` |
| Server.RewrittenPathUpstream | handlers/proxy.go:63-69 | a sub-path that gets the rewrite is sent upstream with a trailing `/`: remote path, sub-path, `/` |
| Server.SubPathRewritten | middleware/trailing_slash.go:21-27 | a sub-path whose last segment has no `.` is rewritten to the endpoint path, the sub-path and a `/` |
| Server.UpstreamBelow | handlers/proxy.go:64-69 | a request below the endpoint goes to the remote path followed by what is below |
| Server.Handler.constructor | server/server.go:21-28 | the handler holds the configuration and the corrected route table, with one fresh proxy handler per registered endpoint (forward under the corrected pattern `/forward/`; see Findings) |
| Server.Handler.ResetRoutes | server/server.go:33-44 | a new table holding only the forward route, when it is enabled, and no proxy handlers (forward under the corrected pattern `/forward/`; see Findings) |
| Server.Handler.RegisterRoutes | server/server.go:32-87 | the complete table and handlers for every endpoint; the registered and skipped counts, which add up to the number of endpoints (forward under the corrected pattern `/forward/`; see Findings) |
| Server.Handler.RegisterEndpoint | server/server.go:50-80 | endpoint i is added exactly when its path is not reserved, under its pattern and with a new proxy handler of its own |
| Server.Handler.ServeHTTP | server/server.go:90-96 | 404 when no route matches; a preflight answered by CORS; otherwise the forward handler or the endpoint's own handler behind the CORS headers; no other handler's endpoint state changes (forward under the corrected pattern `/forward/`; see Findings) |
| Server.Handler.ServeRoute | server/server.go:73-74 | the CORS middleware, then the route's handler when the request is not a preflight |
| Server.Handler.ServeTarget | server/server.go:39-40 | the forward handler or the endpoint's proxy handler; only that handler's endpoint state changes |

## Left out

- Loading the YAML file (`LoadConfig`), logging, command-line handling and
  starting the listener. These are I/O.
- Go's `ServeMux` features beyond prefix and exact matching:
  - path cleaning;
  - host patterns;
  - the redirect of `/x` to `/x/`;
  - the panic on a duplicate pattern. Two endpoints with the same pattern
    stay in the table; Lookup picks the earlier.
- Header key canonicalisation. Keys are compared as written.
- The order of `url.Values.Encode` output and of Go's map iteration.
  Configured maps have distinct keys, so the order does not change the
  result.
- Streaming of request and response bodies, and the error of a failed
  body copy. Only the upstream body's text is relayed.
- The HTTP round trip, the client timeout and concurrency. The
  round-trip outcome is a parameter, and requests are served one at a
  time.
- Aliasing between the maps of the configuration and those of a handler's
  endpoint copy. The maps are values in the model.
- Time: `time.ParseDuration` is only fixed on the empty string.
- Proxy.ProxyHandler.Serve: `url.Parse` and the `URL.String` round trip
  inside `http.NewRequest` are library functions. The model keeps the
  parsed URL and states only that the request is buildable.
- The wording of configuration errors. An error is a `ConfigError`
  value naming the rule, the endpoint index and the offending text.
- Server.Handler: registers the forward route under `/forward/` rather
  than the source's `/forward` (server/server.go:40), the corrected
  pattern from Findings. The table as written is `Server.Routes`.
- Server.Lookup: the longest-pattern rule matches ServeMux's precedence
  for the path patterns used here. Method and wildcard patterns are not
  modelled.

## Findings

| source | as written | input that shows it | evidently intended | confidence | as-written member | corrected member |
|---|---|---|---|---|---|---|
| server/server.go:40 | the forward route is registered at the exact pattern `/forward`, while every request first passes the trailing-slash rewrite (middleware/trailing_slash.go:21), which turns `/forward` into `/forward/` | `GET /forward?url=https://example.com` with forwarding enabled: the rewritten path `/forward/` does not match `/forward`, so the answer is 404 unless an endpoint `/` is configured | the request reaches the forward handler | not executed | Server.ForwardUnreachable | Server.ForwardReachableFixed |
