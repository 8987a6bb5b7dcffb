/** The worker's entry point `fetch` (worker.ts:15-41): the CORS preflight
    first, then dispatch on the exact path of the request URL. The path and
    the `url` query parameter are inputs, as the runtime's URL parser gives
    them. */
module Router {
  import opened Wrappers
  import opened Headers
  import opened Http
  import opened Proxy

  /** The `Content-Type` a string body gets when none is given (the Fetch
      standard's "extract a body" for a string). */
  const PlainText: string := "text/plain;charset=UTF-8"

  const Preflight: Response := Response(204, "", CorsMap, NoBody)
  const Health: Response := Response(200, "", map["content-type" := PlainText], Plain("OK"))
  const Landing: Response := Response(200, "", map["content-type" := "text/html"], LandingPage)

  /** The whole of `fetch`, as one function of its inputs. */
  function Routed(request: Request, pathname: string, targetURL: Option<string>,
                  parsed: ParseResult, outcome: FetchOutcome): Exchange
  {
    if request.verb == "OPTIONS" then Exchange(None, Preflight)
    else if pathname == "/health" then Exchange(None, Health)
    else if pathname == "/proxy" then Proxied(request, targetURL, parsed, outcome)
    else if pathname == "/" then Exchange(None, Landing)
    else Exchange(None, JsonError("Not found", 404))
  }

  /** worker.ts:20-40, step by step. */
  method Fetch(request: Request, pathname: string, targetURL: Option<string>,
               parsed: ParseResult, outcome: FetchOutcome)
    returns (sent: Option<Outbound>, response: Response)
    requires WellFormed(request.headers)
    ensures Exchange(sent, response) == Routed(request, pathname, targetURL, parsed, outcome)
  {
    sent := None;
    if request.verb == "OPTIONS" {
      SetAllCors(map[]);
      assert map[] + CorsMap == CorsMap;
      return sent, Response(204, "", SetAll(map[], CorsHeaders), NoBody);
    }
    match pathname {
      case "/health" =>
        response := Health;
      case "/proxy" =>
        sent, response := HandleProxy(request, targetURL, parsed, outcome);
      case "/" =>
        response := Landing;
      case _ =>
        response := JsonError("Not found", 404);
    }
  }

  /** A preflight is answered with 204, no body and the CORS set, whatever
      the path, and never reaches the proxy. */
  lemma PreflightAnyPath(request: Request, pathname: string, targetURL: Option<string>,
                         parsed: ParseResult, outcome: FetchOutcome)
    requires request.verb == "OPTIONS"
    ensures var e := Routed(request, pathname, targetURL, parsed, outcome);
      e.sent.None? && e.response.status == 204 && e.response.body == NoBody &&
      e.response.headers == CorsMap
  {
  }

  /** The health probe answers 200 `OK` to any method but OPTIONS. */
  lemma HealthAnswered(request: Request, targetURL: Option<string>, parsed: ParseResult,
                       outcome: FetchOutcome)
    requires request.verb != "OPTIONS"
    ensures var e := Routed(request, "/health", targetURL, parsed, outcome);
      e.sent.None? && e.response.status == 200 && e.response.body == Plain("OK")
  {
  }

  /** Any path but the three known ones is a 404 JSON error. */
  lemma UnknownPathNotFound(request: Request, pathname: string, targetURL: Option<string>,
                            parsed: ParseResult, outcome: FetchOutcome)
    requires request.verb != "OPTIONS"
    requires pathname != "/health" && pathname != "/proxy" && pathname != "/"
    ensures var e := Routed(request, pathname, targetURL, parsed, outcome);
      e.sent.None? && e.response.status == 404 && e.response.body == ErrorJson("Not found") &&
      e.response.headers == ErrorHeaders
  {
  }

  /** Only a non-preflight request to `/proxy` whose target passes every
      check is ever relayed upstream, and the relayed request is never an
      OPTIONS request. */
  lemma OnlyProxyFetches(request: Request, pathname: string, targetURL: Option<string>,
                         parsed: ParseResult, outcome: FetchOutcome)
    ensures var e := Routed(request, pathname, targetURL, parsed, outcome);
      e.sent.Some? <==>
        request.verb != "OPTIONS" && pathname == "/proxy" && Admitted(targetURL, parsed)
    ensures var e := Routed(request, pathname, targetURL, parsed, outcome);
      e.sent.Some? ==> e.sent.value.verb != "OPTIONS"
  {
    FetchOnlyWhenAdmitted(request, targetURL, parsed, outcome);
    if request.verb != "OPTIONS" && pathname == "/proxy" && Admitted(targetURL, parsed) {
      OutboundRequestShape(request, targetURL, parsed, outcome);
    }
  }
}
