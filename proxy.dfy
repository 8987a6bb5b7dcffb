/** The proxy pipeline `handleProxy` (worker.ts:43-100): the ordered
    validation of the target, the outbound request, and the mapping of the
    upstream outcome to the relayed response.

    Parsing the target (the WHATWG URL parser) and the network fetch are not
    modelled; their results are inputs. `Proxied` states the whole pipeline
    as a function; `HandleProxy` performs it step by step as the source does
    and is proved to agree with it. The result records the outbound request,
    if one was made, beside the response. */
module Proxy {
  import opened Wrappers
  import opened Text
  import opened Headers
  import opened Http
  import opened HostGuard

  /** What parsing the target URL gave: a failure, or the parsed URL's
      `protocol` (with its colon) and `hostname`. */
  datatype ParseResult = Invalid | Parsed(protocol: string, hostname: string)

  /** What a failed fetch threw: an `Error` with its message, or some other
      value. */
  datatype Thrown = ErrorObject(message: string) | OtherValue

  /** What the fetch of the outbound request came to, redirects followed. */
  datatype FetchOutcome =
    | Fetched(status: nat, statusText: string, headers: HeaderMap, body: Option<Bytes>)
    | Threw(thrown: Thrown)

  /** The request the relay sends upstream. */
  datatype Outbound = Outbound(
    url: string, verb: string, headers: HeaderMap, body: Option<Bytes>, followRedirects: bool)

  /** The outbound request sent, if any, and the response returned. */
  datatype Exchange = Exchange(sent: Option<Outbound>, response: Response)

  const MissingUrl: string := "Missing 'url' query parameter"
  const InvalidUrl: string := "Invalid URL"
  const UnsupportedScheme: string := "Only HTTP and HTTPS URLs are supported"
  const InternalHost: string := "Internal hosts are not allowed"
  const FetchFailed: string := "Failed to fetch URL: "
  const UnknownError: string := "Unknown error"
  const RelayName: string := "corsx"

  /** worker.ts:44-67: the checks, in order; the first that fails gives the
      response. A null or empty `url` parameter counts as missing. */
  function Screen(targetURL: Option<string>, parsed: ParseResult): Result<string, Response> {
    if targetURL.None? || targetURL.value == "" then Failure(JsonError(MissingUrl, 400))
    else if parsed.Invalid? then Failure(JsonError(InvalidUrl, 400))
    else if parsed.protocol != "http:" && parsed.protocol != "https:" then
      Failure(JsonError(UnsupportedScheme, 400))
    else if IsInternalHost(parsed.hostname) then Failure(JsonError(InternalHost, 403))
    else Success(targetURL.value)
  }

  /** The target passes every check. */
  predicate Admitted(targetURL: Option<string>, parsed: ParseResult) {
    && targetURL.Some? && targetURL.value != ""
    && parsed.Parsed?
    && (parsed.protocol == "http:" || parsed.protocol == "https:")
    && !IsInternalHost(parsed.hostname)
  }

  /** worker.ts:74-77: the inbound body goes upstream unless the method is
      GET or HEAD. */
  function ForwardedBody(request: Request): Option<Bytes> {
    if request.verb != "GET" && request.verb != "HEAD" then request.body else None
  }

  /** worker.ts:97-98 */
  function FailureMessage(thrown: Thrown): string {
    FetchFailed + match thrown
      case ErrorObject(message) => message
      case OtherValue => UnknownError
  }

  /** The upstream headers with the CORS set, the relay's marker and the
      requested target laid over them. */
  function Overlaid(upstream: HeaderMap, targetURL: string): HeaderMap {
    upstream + CorsMap + map["x-proxied-by" := RelayName, "x-original-url" := targetURL]
  }

  /** The names that the overlay sets. */
  const OverlayNames: set<string> := CorsMap.Keys + {"x-proxied-by", "x-original-url"}

  /** The whole of `handleProxy`, as one function of its inputs. */
  function Proxied(request: Request, targetURL: Option<string>, parsed: ParseResult,
                   outcome: FetchOutcome): Exchange
  {
    match Screen(targetURL, parsed)
    case Failure(rejection) => Exchange(None, rejection)
    case Success(target) =>
      var outbound := Outbound(target, request.verb, Filtered(request.headers),
                               ForwardedBody(request), true);
      Exchange(Some(outbound),
        match outcome
        case Threw(thrown) => JsonError(FailureMessage(thrown), 502)
        case Fetched(status, statusText, headers, body) =>
          Response(status, statusText, Overlaid(headers, target), Relayed(body)))
  }

  lemma ProxiedByName()
    ensures Lower("X-Proxied-By") == "x-proxied-by"
  {
    LowerPointwise("X-Proxied-By", "x-proxied-by");
  }

  lemma OriginalUrlName()
    ensures Lower("X-Original-URL") == "x-original-url"
  {
    LowerPointwise("X-Original-URL", "x-original-url");
  }

  /** worker.ts:85-87: set each CORS header in turn, in the record's
      order. */
  method ApplyCors(headers: HeaderMap) returns (result: HeaderMap)
    ensures result == headers + CorsMap
  {
    result := headers;
    for i := 0 to |CorsHeaders|
      invariant SetAll(result, CorsHeaders[i..]) == SetAll(headers, CorsHeaders)
    {
      assert CorsHeaders[i..][1..] == CorsHeaders[i + 1..];
      result := Set(result, CorsHeaders[i].0, CorsHeaders[i].1);
    }
    SetAllCors(headers);
  }

  /** worker.ts:84-89: copy the upstream headers, set the CORS headers, then
      the relay's marker and the requested target. */
  method OverlayHeaders(upstream: HeaderMap, targetURL: string) returns (headers: HeaderMap)
    ensures headers == Overlaid(upstream, targetURL)
    ensures headers.Keys == upstream.Keys + OverlayNames
    ensures forall name :: name in upstream && name !in OverlayNames ==> headers[name] == upstream[name]
    ensures forall name :: name in CorsMap ==> headers[name] == CorsMap[name]
    ensures headers["x-proxied-by"] == RelayName && headers["x-original-url"] == targetURL
  {
    headers := ApplyCors(upstream);
    ghost var withCors := headers;
    ProxiedByName();
    headers := Set(headers, "X-Proxied-By", RelayName);
    OriginalUrlName();
    headers := Set(headers, "X-Original-URL", targetURL);
    assert headers == withCors["x-proxied-by" := RelayName]["x-original-url" := targetURL];
    OverlaidMeaning(upstream, targetURL);
  }

  /** The overlay sets exactly the six overlay names and leaves every other
      upstream header as it was. */
  lemma OverlaidMeaning(upstream: HeaderMap, targetURL: string)
    ensures Overlaid(upstream, targetURL).Keys == upstream.Keys + OverlayNames
    ensures forall name :: name in upstream && name !in OverlayNames ==>
      Overlaid(upstream, targetURL)[name] == upstream[name]
    ensures forall name :: name in CorsMap ==> Overlaid(upstream, targetURL)[name] == CorsMap[name]
    ensures Overlaid(upstream, targetURL)["x-proxied-by"] == RelayName
    ensures Overlaid(upstream, targetURL)["x-original-url"] == targetURL
  {
  }

  /** worker.ts:43-100, step by step. */
  method HandleProxy(request: Request, targetURL: Option<string>, parsed: ParseResult,
                     outcome: FetchOutcome)
    returns (sent: Option<Outbound>, response: Response)
    requires WellFormed(request.headers)
    ensures Exchange(sent, response) == Proxied(request, targetURL, parsed, outcome)
  {
    sent := None;
    if targetURL.None? || targetURL.value == "" {
      return sent, JsonError(MissingUrl, 400);
    }
    if parsed.Invalid? {
      return sent, JsonError(InvalidUrl, 400);
    }
    if parsed.protocol != "http:" && parsed.protocol != "https:" {
      return sent, JsonError(UnsupportedScheme, 400);
    }
    if IsInternalHost(parsed.hostname) {
      return sent, JsonError(InternalHost, 403);
    }
    var target := targetURL.value;
    var filtered := FilterHeaders(request.headers);
    var body := if request.verb != "GET" && request.verb != "HEAD" then request.body else None;
    sent := Some(Outbound(target, request.verb, filtered, body, true));
    match outcome {
      case Threw(thrown) =>
        var message := if thrown.ErrorObject? then thrown.message else UnknownError;
        response := JsonError(FetchFailed + message, 502);
      case Fetched(status, statusText, upstream, upstreamBody) =>
        var headers := OverlayHeaders(upstream, target);
        response := Response(status, statusText, headers, Relayed(upstreamBody));
    }
  }

  // ---------------------------------------------------------------------
  // Properties of the pipeline

  /** The chain of checks passes exactly when every check does. */
  lemma ScreenAdmits(targetURL: Option<string>, parsed: ParseResult)
    ensures Screen(targetURL, parsed).Success? <==> Admitted(targetURL, parsed)
    ensures Screen(targetURL, parsed).Success? ==> Screen(targetURL, parsed).value == targetURL.value
  {
  }

  /** The first failing check decides the response, and nothing is fetched. */
  lemma RejectionOrder(request: Request, targetURL: Option<string>, parsed: ParseResult,
                       outcome: FetchOutcome)
    ensures var r := Proxied(request, targetURL, parsed, outcome);
      && (targetURL.None? || targetURL.value == "" ==>
            r == Exchange(None, JsonError(MissingUrl, 400)))
      && (targetURL.Some? && targetURL.value != "" && parsed.Invalid? ==>
            r == Exchange(None, JsonError(InvalidUrl, 400)))
      && (targetURL.Some? && targetURL.value != "" && parsed.Parsed? &&
          parsed.protocol != "http:" && parsed.protocol != "https:" ==>
            r == Exchange(None, JsonError(UnsupportedScheme, 400)))
      && (targetURL.Some? && targetURL.value != "" && parsed.Parsed? &&
          (parsed.protocol == "http:" || parsed.protocol == "https:") &&
          IsInternalHost(parsed.hostname) ==>
            r == Exchange(None, JsonError(InternalHost, 403)))
  {
  }

  /** No outbound request is made unless every check passes, and a rejected
      request's response depends neither on the inbound request nor on any
      network outcome. */
  lemma FetchOnlyWhenAdmitted(request: Request, targetURL: Option<string>, parsed: ParseResult,
                              outcome: FetchOutcome)
    ensures Proxied(request, targetURL, parsed, outcome).sent.Some? <==> Admitted(targetURL, parsed)
    ensures !Admitted(targetURL, parsed) ==>
      forall other: Request, otherOutcome: FetchOutcome ::
        Proxied(other, targetURL, parsed, otherOutcome) == Proxied(request, targetURL, parsed, outcome)
  {
    ScreenAdmits(targetURL, parsed);
  }

  /** The outbound request goes to the raw target with the inbound method,
      the filtered headers, redirects followed, and the inbound body exactly
      when the method is neither GET nor HEAD. */
  lemma OutboundRequestShape(request: Request, targetURL: Option<string>, parsed: ParseResult,
                             outcome: FetchOutcome)
    requires Admitted(targetURL, parsed)
    ensures var sent := Proxied(request, targetURL, parsed, outcome).sent;
      && sent.Some?
      && sent.value.url == targetURL.value
      && sent.value.verb == request.verb
      && sent.value.headers == Filtered(request.headers)
      && sent.value.followRedirects
      && (request.verb == "GET" || request.verb == "HEAD" ==> sent.value.body == None)
      && (request.verb != "GET" && request.verb != "HEAD" ==> sent.value.body == request.body)
  {
    ScreenAdmits(targetURL, parsed);
  }

  /** A fetched upstream response is relayed with its status, status text
      and body; its headers are the upstream headers with exactly the six
      overlay names set, every other upstream header unchanged. */
  lemma UpstreamRelayed(request: Request, targetURL: Option<string>, parsed: ParseResult,
                        outcome: FetchOutcome)
    requires Admitted(targetURL, parsed) && outcome.Fetched?
    ensures var r := Proxied(request, targetURL, parsed, outcome).response;
      && r.status == outcome.status && r.statusText == outcome.statusText
      && r.body == Relayed(outcome.body)
      && r.headers.Keys == outcome.headers.Keys + OverlayNames
      && (forall name :: name in outcome.headers && name !in OverlayNames ==>
            r.headers[name] == outcome.headers[name])
      && (forall name :: name in CorsMap ==> r.headers[name] == CorsMap[name])
      && r.headers["x-proxied-by"] == RelayName
      && r.headers["x-original-url"] == targetURL.value
  {
    ScreenAdmits(targetURL, parsed);
  }

  /** A fetch that throws becomes a 502 JSON error whose message starts with
      the fixed prefix and carries the error's message, or "Unknown error"
      when what was thrown is not an Error. */
  lemma FetchFailureMapped(request: Request, targetURL: Option<string>, parsed: ParseResult,
                           outcome: FetchOutcome)
    requires Admitted(targetURL, parsed) && outcome.Threw?
    ensures var r := Proxied(request, targetURL, parsed, outcome).response;
      && r.status == 502 && r.headers == ErrorHeaders && r.body.ErrorJson?
      && FetchFailed <= r.body.message
      && r.body.message[|FetchFailed|..] ==
           if outcome.thrown.ErrorObject? then outcome.thrown.message else UnknownError
  {
    ScreenAdmits(targetURL, parsed);
  }

  /** Every response that is not a relayed upstream response is a JSON error
      carrying the CORS set. */
  lemma ErrorsAreJson(request: Request, targetURL: Option<string>, parsed: ParseResult,
                      outcome: FetchOutcome)
    ensures var r := Proxied(request, targetURL, parsed, outcome).response;
      !r.body.Relayed? ==>
        (r.body.ErrorJson? && r.headers == ErrorHeaders && r.status in {400, 403, 502})
  {
  }

  /** Loopback and private-range host names are refused with 403 before
      any fetch. */
  lemma ListedHostsRefused(request: Request, target: string, protocol: string, hostname: string,
                           outcome: FetchOutcome)
    requires target != "" && (protocol == "http:" || protocol == "https:")
    requires hostname == "localhost" || hostname == "127.0.0.1" || hostname == "::1" ||
             hostname == "10.1.2.3" || hostname == "192.168.0.5" || hostname == "172.20.0.1" ||
             hostname == "169.254.1.1" || hostname == "0.0.0.0"
    ensures Proxied(request, Some(target), Parsed(protocol, hostname), outcome) ==
      Exchange(None, JsonError(InternalHost, 403))
  {
    if hostname == "localhost" || hostname == "127.0.0.1" || hostname == "::1" {
      LiteralExamples(hostname);
    } else if hostname == "10.1.2.3" {
      TenNetExamples(hostname);
    } else {
      PrivateQuadExamples(hostname);
    }
  }

  /** A public address and a DNS name pass every check and are fetched. */
  lemma PublicHostsFetched(request: Request, target: string, protocol: string, hostname: string,
                           outcome: FetchOutcome)
    requires target != "" && (protocol == "http:" || protocol == "https:")
    requires hostname == "8.8.8.8" || hostname == "example.com"
    ensures Proxied(request, Some(target), Parsed(protocol, hostname), outcome).sent.Some?
  {
    if hostname == "8.8.8.8" {
      PublicQuadExamples(hostname);
    } else {
      PublicNameExamples(hostname);
    }
  }
}
