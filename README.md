# corsx relay: a Dafny model of the proxy pipeline

corsx is a Cloudflare Worker that relays HTTP requests for browsers. A caller
names a target in the `url` query parameter of `/proxy`. The worker checks the
target: the parameter must be present, it must parse as a URL, the scheme must
be http or https, and the host must not be internal (the SSRF guard). It then
forwards the request upstream with a filtered set of headers and relays the
response, adding permissive CORS headers. This project models that pipeline
and the small router in front of it, all from `worker.ts`, and proves what
they promise.

The modules follow the parts of `worker.ts`:

- `Text` (text.dfy): ASCII lower-casing, and splitting a host name at its dots.
- `HostGuard` (host_guard.dfy): `isInternalHost` and its five private-network
  patterns. Each anchored pattern `^F0\.F1\.F2\.F3$` is a `Pattern` of four
  fields. The guard tests a pattern by splitting the name at its dots. The
  patterns' meaning is stated separately: the name is four field texts joined
  by dots. `TestMatches` proves the two agree. No regular-expression engine is
  modelled.
- `Headers` (headers.dfy): header maps, as a `Headers` object holds them, and
  `filterHeaders`. This is a method whose loop copies the allowed entries into
  a fresh map, proved equal to the specification function `Filtered`.
- `Http` (http.dfy): requests, responses, the CORS header set and `jsonError`.
- `Proxy` (proxy.dfy): `handleProxy`. `Proxied` is the whole pipeline as one
  function. `HandleProxy` does it step by step, as the source does, and is
  proved equal to `Proxied`. `OverlayHeaders` lays the CORS set and the two
  relay headers over the upstream headers, setting them one at a time.
- `Router` (router.dfy): the worker's `fetch` entry point.

The URL parser and the network are not modelled. Their results are inputs:
a `ParseResult` (`Invalid`, or the parsed `protocol` and `hostname`) and a
`FetchOutcome` (the upstream status, status text, headers and body, or the
thrown value). Each call returns an `Exchange`: the response, plus the
outbound request if one was made. This makes "nothing is fetched unless every
check passes" a statement about the result (`Proxy.FetchOnlyWhenAdmitted`).

Header maps are keyed by lower-case names, as `Headers.entries()` yields
them. `FilterHeaders` and `HandleProxy` therefore require lower-case inbound
names (`Headers.WellFormed`). `Headers.Set` lower-cases the name it is given,
as `Headers.set` does, so the source's mixed-case names (`User-Agent`,
`X-Proxied-By`, the CORS names) are used as written.

Three behaviours of the code are easy to misread. The model follows the code
as written:

- `/health` and `/` return no CORS headers. Only the preflight, the JSON
  errors and relayed responses carry them.
- `/health`, `/` and `/proxy` answer any method except OPTIONS, not just GET.
- The inbound body is forwarded for every method except GET and HEAD, not
  only for non-idempotent methods.

Two properties of the guard as written are proved rather than assumed:

- For an IPv6 literal, the WHATWG URL standard's `hostname` includes the
  brackets. The guard lists only the bare `::1`, so `[::1]` passes it
  (`HostGuard.PublicNameExamples`).
- The guard lists only `127.0.0.1` from the loopback network, so
  `127.0.0.2` passes (`HostGuard.PublicQuadExamples`).

The model does not claim that the pipeline blocks `http://[::1]/`.

## Model

| member | source | states |
|---|---|---|
| `HostGuard.IsInternalHostMeaning` | worker.ts:126-144 | The guard accepts a name exactly when its lower-case form is `localhost`, `127.0.0.1` or `::1`, or fully matches one of the five anchored patterns. "Fully matches" means the name is four field texts joined by dots. |
| `HostGuard.TestMatches` | worker.ts:126-132 | Splitting at dots and checking each field accepts exactly the names the anchored pattern `^F0\.F1\.F2\.F3$` describes. This holds for every pattern whose literal fields contain no dot. |
| `HostGuard.CaseInsensitive` | worker.ts:134-135 | The guard gives the same answer for a name and for its lower-case form. |
| `HostGuard.LiteralNamesInternal` | worker.ts:137-140 | Every name whose lower-case form is one of the three literal names is internal. |
| `HostGuard.Range16To31Meaning` | worker.ts:129 | The second field of the 172 pattern accepts exactly the two-digit texts with values 16 to 31. A third digit, a sign or a leading zero is rejected. |
| `HostGuard.NonNumericNamesPass` | worker.ts:134-144 | Apart from the three literal names, any name (after lower-casing) containing a character other than a digit or a dot is not internal. |
| `HostGuard.LiteralExamples` | worker.ts:137-140 | `localhost`, `LocalHost`, `127.0.0.1` and `::1` are internal. |
| `HostGuard.TenNetExamples` | worker.ts:127 | `10.1.2.3` and `10.999.999.999` are internal. The free fields have no numeric range check. |
| `HostGuard.PrivateQuadExamples` | worker.ts:128-131 | `192.168.0.5`, `172.20.0.1`, `169.254.1.1` and `0.0.0.0` are internal. |
| `HostGuard.PublicQuadExamples` | worker.ts:126-144 | `172.15.0.1`, `172.32.0.1`, `8.8.8.8` and `127.0.0.2` are not internal. |
| `HostGuard.PublicNameExamples` | worker.ts:126-144 | `example.com` and the bracketed `[::1]` are not internal. |
| `Headers.FilterHeaders` | worker.ts:102-124 | Returns `Filtered(headers)`. It keeps only the allowed names, always has a user agent, and keeps every allowed inbound value unchanged. It sets `corsx/1.0` when the inbound map has no user agent. |
| `Headers.FilteredMeaning` | worker.ts:104-119 | Every filtered name is one of accept, accept-language, content-type, user-agent, and `user-agent` is always present. Allowed inbound values are kept unchanged. The user agent is the inbound one if there is one, else `corsx/1.0`. |
| `Headers.FilteredIdempotent` | worker.ts:102-124 | Filtering an already filtered map changes nothing. |
| `Http.SetAllCors` | worker.ts:8-13 | Setting the four CORS entries in order onto any map gives that map with exactly the four lower-cased CORS names overwritten. |
| `Http.ErrorRecord` | worker.ts:149-152 | The header record of `jsonError` gives the JSON content type plus the four CORS headers. |
| `Http.JsonError` | worker.ts:146-154 | An error response has the given status, carries the message as its JSON error body, and has content type `application/json` and every CORS header. |
| `Proxy.ApplyCors` | worker.ts:85-87 | The `forEach` of `set` calls results in the given headers with the CORS map laid over them. |
| `Proxy.OverlayHeaders` | worker.ts:84-89 | The relayed headers are the upstream headers with exactly the six overlay names set: four CORS, `x-proxied-by: corsx`, and `x-original-url` equal to the raw target. Every other upstream header is unchanged. |
| `Proxy.OverlaidMeaning` | worker.ts:84-89 | The overlay's names are the upstream names plus the six overlay names. Non-overlay values are unchanged, and the six values are fixed. |
| `Proxy.HandleProxy` | worker.ts:43-100 | Running the pipeline step by step gives exactly `Proxied`: the same outbound request (or none) and the same response. |
| `Proxy.ScreenAdmits` | worker.ts:46-67 | The chain of early returns passes exactly when all four checks pass. |
| `Proxy.RejectionOrder` | worker.ts:46-67 | The first failing check decides the response, and nothing is fetched. A missing or empty parameter gives 400 with the missing-parameter message. A parse failure gives 400 "Invalid URL". A scheme other than `http:`/`https:` gives 400. An internal host gives 403. |
| `Proxy.FetchOnlyWhenAdmitted` | worker.ts:46-81 | An outbound request is made exactly when every check passes. A rejection's response depends on neither the inbound request nor the network. |
| `Proxy.OutboundRequestShape` | worker.ts:70-79 | The outbound request goes to the raw target with the inbound method and the filtered headers, and follows redirects. It carries the inbound body exactly when the method is neither GET nor HEAD. |
| `Proxy.UpstreamRelayed` | worker.ts:84-95 | A fetched response is relayed with its status, status text and body. Its headers are the upstream headers with exactly the six overlay names set, and every other header unchanged. |
| `Proxy.FetchFailureMapped` | worker.ts:96-99 | A thrown fetch gives a 502 JSON error whose message starts with `Failed to fetch URL: `. The rest of the message is the error's message, or `Unknown error` for a thrown non-Error. |
| `Proxy.ErrorsAreJson` | worker.ts:43-100 | Every proxy response that is not a relayed upstream response is a JSON error with the CORS set and status 400, 403 or 502. |
| `Proxy.ListedHostsRefused` | worker.ts:64-67 | With an http(s) target, the hosts `localhost`, `127.0.0.1`, `::1`, `10.1.2.3`, `192.168.0.5`, `172.20.0.1`, `169.254.1.1` and `0.0.0.0` get 403 and no fetch. |
| `Proxy.PublicHostsFetched` | worker.ts:64-81 | With an http(s) target, the hosts `8.8.8.8` and `example.com` pass every check and are fetched. |
| `Router.Fetch` | worker.ts:16-40 | Routing step by step gives exactly `Routed`: preflight first, then dispatch on the exact path. |
| `Router.PreflightAnyPath` | worker.ts:23-26 | OPTIONS on any path gives 204, no body, the CORS headers, and no fetch. |
| `Router.HealthAnswered` | worker.ts:29-30 | `/health` answers 200 `OK` to any method except OPTIONS. |
| `Router.UnknownPathNotFound` | worker.ts:37-38 | Any other path gives a 404 JSON error "Not found" and no fetch. |
| `Router.OnlyProxyFetches` | worker.ts:21-39 | A request is relayed exactly when it is not OPTIONS, its path is `/proxy` and its target passes every check. The relayed method is never OPTIONS. |

## Left out

- The network fetch, redirect following, `async`/`await` and body
  streaming: the fetch's result is an input (`FetchOutcome`), and bodies are
  byte sequences passed through whole. Redirect targets are never re-checked
  by the guard; the model records only that redirects are followed.
- The WHATWG URL parser and `searchParams.get`: the parse result, the path and
  the `url` parameter are inputs. A name that resolves by DNS to a private
  address is not checked, since the guard sees only the text.
- The regular-expression engine: the five patterns are stated as field
  predicates, with their anchored meaning proved equal.
- Lower-casing covers ASCII letters only. For the guard this gives the same
  answer as full Unicode lower-casing, since no accepted name holds `k`, the
  only ASCII letter a non-ASCII character lower-cases to. Header names are
  ASCII.
- `Headers.set` value handling: it trims whitespace from values and throws on
  NUL, CR or LF. The model sets values as given. So a target whose decoded text
  holds a line break is modelled as relayed with that `X-Original-URL`.
  In the source, that `set` throws inside the `try` and gives a 502.
- `new Request` errors (a forbidden method such as TRACE) and the `Response`
  constructor's status checks are not modelled. Upstream statuses are taken as
  valid.
- Repeated `Set-Cookie` upstream headers: a header map holds one value per
  name.
- `JSON.stringify` escaping in `jsonError`: the error body is the message
  itself.
- The landing page content, `console.log`, the `Env` rate-limit placeholder and
  the `ExecutionContext`.
