/** Header maps as the Fetch standard's `Headers` objects hold them, and the
    relay's outbound header filter `filterHeaders` (worker.ts:102-124). */
module Headers {
  import opened Text

  /** The contents of a `Headers` object: each header name, lower-cased, to
      its value. */
  type HeaderMap = map<string, string>

  /** Names are stored lower-case, as `Headers.entries()` yields them. */
  predicate WellFormed(h: HeaderMap) {
    forall name :: name in h ==> IsLower(name)
  }

  /** `Headers.set`: the name is matched without regard to case; an entry of
      that name is replaced, otherwise one is added. */
  function Set(h: HeaderMap, name: string, value: string): (r: HeaderMap)
    ensures Lower(name) in r && r[Lower(name)] == value
    ensures r.Keys == h.Keys + {Lower(name)}
    ensures forall n :: n in h && n != Lower(name) ==> r[n] == h[n]
  {
    h[Lower(name) := value]
  }

  /** `Headers.has`, matched without regard to case. */
  predicate Has(h: HeaderMap, name: string) {
    Lower(name) in h
  }

  /** Setting the given entries one by one, in order. From an empty map
      and with distinct names this is also what `new Headers(record)` builds
      from a record. */
  function SetAll(h: HeaderMap, entries: seq<(string, string)>): HeaderMap
    decreases |entries|
  {
    if entries == [] then h
    else SetAll(Set(h, entries[0].0, entries[0].1), entries[1..])
  }

  /** worker.ts:104-109 */
  const AllowedHeaders: seq<string> := ["accept", "accept-language", "content-type", "user-agent"]

  const DefaultUserAgent: string := "corsx/1.0"

  /** What `filterHeaders` returns: the inbound entries whose names are
      allowed, and the default user agent when no user agent is among them. */
  function Filtered(inbound: HeaderMap): HeaderMap {
    var kept := Kept(inbound, inbound.Keys);
    if "user-agent" in kept then kept else kept["user-agent" := DefaultUserAgent]
  }

  /** The allowed entries of `inbound` among the names `seen`. */
  function Kept(inbound: HeaderMap, seen: set<string>): HeaderMap
    requires seen <= inbound.Keys
  {
    map name | name in seen && name in AllowedHeaders :: inbound[name]
  }

  lemma KeptStep(inbound: HeaderMap, seen: set<string>, name: string)
    requires seen <= inbound.Keys && name in inbound
    ensures Kept(inbound, seen + {name}) ==
      if name in AllowedHeaders then Kept(inbound, seen)[name := inbound[name]]
      else Kept(inbound, seen)
  {
  }

  lemma UserAgentName()
    ensures Lower("User-Agent") == "user-agent"
  {
    LowerPointwise("User-Agent", "user-agent");
  }

  /** worker.ts:102-124: copy the allowed inbound headers one by one into a
      fresh map, then add the default user agent if none was copied. The
      inbound entries are visited in no particular order: their names are
      distinct, so the order does not matter. */
  method FilterHeaders(headers: HeaderMap) returns (filtered: HeaderMap)
    requires WellFormed(headers)
    ensures filtered == Filtered(headers)
    ensures forall name :: name in filtered ==> name in AllowedHeaders
    ensures "user-agent" in filtered
    ensures forall name :: name in headers && name in AllowedHeaders ==>
      name in filtered && filtered[name] == headers[name]
    ensures "user-agent" !in headers ==> filtered["user-agent"] == DefaultUserAgent
  {
    filtered := map[];
    var pending := headers.Keys;
    while pending != {}
      invariant pending <= headers.Keys
      invariant filtered == Kept(headers, headers.Keys - pending)
      decreases pending
    {
      var key :| key in pending;
      LowerIsLower(key);
      assert Lower(key) == key;
      KeptStep(headers, headers.Keys - pending, key);
      if Lower(key) in AllowedHeaders {
        filtered := Set(filtered, key, headers[key]);
      }
      pending := pending - {key};
      assert headers.Keys - pending == (headers.Keys - (pending + {key})) + {key};
    }
    assert headers.Keys - pending == headers.Keys;
    UserAgentName();
    if !Has(filtered, "User-Agent") {
      filtered := Set(filtered, "User-Agent", DefaultUserAgent);
    }
    FilteredMeaning(headers);
  }

  /** The filtered map holds allowed names only, always a user agent, every
      allowed inbound entry unchanged, and the default user agent exactly
      when the inbound map has none. */
  lemma FilteredMeaning(inbound: HeaderMap)
    ensures forall name :: name in Filtered(inbound) ==> name in AllowedHeaders
    ensures "user-agent" in Filtered(inbound)
    ensures forall name :: name in inbound && name in AllowedHeaders ==>
      name in Filtered(inbound) && Filtered(inbound)[name] == inbound[name]
    ensures Filtered(inbound)["user-agent"] ==
      if "user-agent" in inbound then inbound["user-agent"] else DefaultUserAgent
  {
  }

  /** Filtering is idempotent: filtering an already filtered map changes
      nothing, so a request relayed twice carries the same headers. */
  lemma FilteredIdempotent(inbound: HeaderMap)
    ensures Filtered(Filtered(inbound)) == Filtered(inbound)
  {
  }

  /** The filtered map is well-formed again. */
  lemma FilteredWellFormed(inbound: HeaderMap)
    ensures WellFormed(Filtered(inbound))
  {
  }
}
