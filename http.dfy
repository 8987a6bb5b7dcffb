/** Requests, responses and the fixed header sets of the relay
    (worker.ts:8-13, 146-154). */
module Http {
  import opened Text
  import opened Wrappers
  import opened Headers

  type Bytes = seq<bv8>

  /** An inbound request: its method (the verb), its headers and its body, if any. */
  datatype Request = Request(verb: string, headers: HeaderMap, body: Option<Bytes>)

  datatype Body =
    | NoBody
    | Plain(text: string)
    | LandingPage                   // the static HTML document
    | ErrorJson(message: string)    // `{"error": message}`
    | Relayed(stream: Option<Bytes>) // an upstream body, passed through

  datatype Response = Response(status: nat, statusText: string, headers: HeaderMap, body: Body)

  /** worker.ts:8-13, in the record's order. */
  const CorsHeaders: seq<(string, string)> := [
    ("Access-Control-Allow-Origin", "*"),
    ("Access-Control-Allow-Methods", "GET, POST, OPTIONS"),
    ("Access-Control-Allow-Headers", "Content-Type, Accept, Authorization"),
    ("Access-Control-Max-Age", "86400")
  ]

  /** The same set as a header map. */
  const CorsMap: HeaderMap := map[
    "access-control-allow-origin" := "*",
    "access-control-allow-methods" := "GET, POST, OPTIONS",
    "access-control-allow-headers" := "Content-Type, Accept, Authorization",
    "access-control-max-age" := "86400"
  ]

  lemma OriginName()
    ensures Lower("Access-Control-Allow-Origin") == "access-control-allow-origin"
  {
    LowerPointwise("Access-Control-Allow-Origin", "access-control-allow-origin");
  }

  lemma MethodsName()
    ensures Lower("Access-Control-Allow-Methods") == "access-control-allow-methods"
  {
    LowerPointwise("Access-Control-Allow-Methods", "access-control-allow-methods");
  }

  lemma AllowHeadersName()
    ensures Lower("Access-Control-Allow-Headers") == "access-control-allow-headers"
  {
    LowerPointwise("Access-Control-Allow-Headers", "access-control-allow-headers");
  }

  lemma MaxAgeName()
    ensures Lower("Access-Control-Max-Age") == "access-control-max-age"
  {
    LowerPointwise("Access-Control-Max-Age", "access-control-max-age");
  }

  lemma ContentTypeName()
    ensures Lower("Content-Type") == "content-type"
  {
    LowerPointwise("Content-Type", "content-type");
  }

  /** Setting the CORS record onto a map overwrites exactly the four CORS
      names. */
  lemma SetAllCors(h: HeaderMap)
    ensures SetAll(h, CorsHeaders) == h + CorsMap
  {
    OriginName();
    MethodsName();
    AllowHeadersName();
    MaxAgeName();
    var e := CorsHeaders;
    assert e[1..][1..][1..][1..] == [];
  }

  /** The headers of every JSON error: the JSON content type and the CORS
      set. */
  const ErrorHeaders: HeaderMap := CorsMap["content-type" := "application/json"]

  /** The header record of worker.ts:149-152 gives the error headers. */
  lemma ErrorRecord()
    ensures SetAll(map[], [("Content-Type", "application/json")] + CorsHeaders) == ErrorHeaders
  {
    ContentTypeName();
    var e := [("Content-Type", "application/json")] + CorsHeaders;
    assert e[1..] == CorsHeaders;
    SetAllCors(map["content-type" := "application/json"]);
  }

  /** worker.ts:146-154: `jsonError(message, status)`. */
  function JsonError(message: string, status: nat): (r: Response)
    ensures r.status == status && r.body == ErrorJson(message)
    ensures "content-type" in r.headers && r.headers["content-type"] == "application/json"
    ensures forall name :: name in CorsMap ==> name in r.headers && r.headers[name] == CorsMap[name]
  {
    Response(status, "", ErrorHeaders, ErrorJson(message))
  }
}
