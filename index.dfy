/**
 * The dispatcher: path routing, turning an escaped error into a 500, and
 * the CORS headers added to every response.
 */
module Index {
  import opened Wrappers
  import opened Json
  import opened Http
  import opened Validation
  import opened Simulations

  const SimulationsPath := "/api/simulations"

  /** The origins that are given `Access-Control-Allow-Origin`. */
  const AllowedOrigins: seq<string> := ["https://duel.tools", "https://staging.duel.tools"]

  const AllowMethodsName := "Access-Control-Allow-Methods"
  const AllowHeadersName := "Access-Control-Allow-Headers"
  const AllowOriginName := "Access-Control-Allow-Origin"
  const AllowedMethods := "GET, POST, OPTIONS"
  const AllowedHeaders := "Content-Type"

  /** The names of the three headers the CORS step can set. */
  const CorsNames: set<string> := {AllowMethodsName, AllowHeadersName, AllowOriginName}

  /** `getCorsHeaders`: the two fixed headers, and the origin echoed back when it is allow-listed. */
  function CorsHeaders(origin: Option<string>): (h: map<string, string>)
    ensures h.Keys <= CorsNames
    ensures AllowMethodsName in h && h[AllowMethodsName] == AllowedMethods
    ensures AllowHeadersName in h && h[AllowHeadersName] == AllowedHeaders
    ensures AllowOriginName in h <==>
      origin == Some("https://duel.tools") || origin == Some("https://staging.duel.tools")
    ensures AllowOriginName in h ==> h[AllowOriginName] == origin.value
  {
    var headers := map[AllowMethodsName := AllowedMethods, AllowHeadersName := AllowedHeaders];
    if origin.Some? && origin.value != "" && origin.value in AllowedOrigins then
      headers[AllowOriginName := origin.value]
    else
      headers
  }

  /** The response before the CORS step: routing by path, and the catch that turns a throw into a 500. */
  function Route(rt: Runtime, store: Store, req: Request): (r: Reply)
    ensures r.status in {200, 201, 400, 404, 405, 500}
    ensures r.headers.Keys <= {"Content-Type"}
  {
    if req.path == SimulationsPath then
      match RouteSimulation(rt, store, req)
      case Returned(reply) => reply
      case Threw(e) => JsonMessage(500, ThrownMessage(e, "Internal Server Error"))
    else
      TextReply(404, "Not Found")
  }

  /** A response's header list, which the CORS step updates in place. */
  class Headers {
    var entries: map<string, string>

    constructor (init: map<string, string>)
      ensures entries == init
    {
      entries := init;
    }

    /** `headers.set(name, value)`: adds or replaces one header and leaves the others. */
    method Set(name: string, value: string)
      modifies this
      ensures entries == old(entries)[name := value]
    {
      entries := entries[name := value];
    }
  }

  /** `Object.entries(cors).forEach(([k, v]) => headers.set(k, v))`: every CORS header is set in turn. */
  method ApplyCors(headers: Headers, cors: map<string, string>)
    modifies headers
    ensures headers.entries == old(headers.entries) + cors
  {
    ghost var before := headers.entries;
    var pending := cors.Keys;
    while pending != {}
      invariant pending <= cors.Keys
      invariant headers.entries == before + map name | name in cors.Keys - pending :: cors[name]
      decreases pending
    {
      var name :| name in pending;
      headers.Set(name, cors[name]);
      pending := pending - {name};
    }
  }

  /** Merging the CORS headers sets the CORS names and leaves every other header as it was. */
  lemma {:induction false} MergeSetsOnlyCors(h: map<string, string>, origin: Option<string>)
    ensures var merged := h + CorsHeaders(origin);
      && merged[AllowMethodsName] == AllowedMethods
      && merged[AllowHeadersName] == AllowedHeaders
      && (AllowOriginName in merged <==>
            origin == Some("https://duel.tools") || origin == Some("https://staging.duel.tools")
            || AllowOriginName in h)
      && (AllowOriginName in CorsHeaders(origin) ==> merged[AllowOriginName] == origin.value)
      && (forall name :: name !in CorsNames ==> (name in merged <==> name in h))
      && (forall name :: name !in CorsNames && name in merged ==> merged[name] == h[name])
  {
  }

  /** `fetch`: route the request, then set the CORS headers on the response. */
  method Fetch(rt: Runtime, store: Store, req: Request) returns (response: Reply)
    ensures response.status == Route(rt, store, req).status
    ensures response.body == Route(rt, store, req).body
    ensures response.headers == Route(rt, store, req).headers + CorsHeaders(req.origin)
    ensures response.headers[AllowMethodsName] == AllowedMethods
    ensures response.headers[AllowHeadersName] == AllowedHeaders
    ensures AllowOriginName in response.headers <==>
      req.origin == Some("https://duel.tools") || req.origin == Some("https://staging.duel.tools")
    ensures AllowOriginName in response.headers ==> response.headers[AllowOriginName] == req.origin.value
  {
    var routed := Route(rt, store, req);
    var headers := new Headers(routed.headers);
    ApplyCors(headers, CorsHeaders(req.origin));
    response := Reply(routed.status, routed.body, headers.entries);
    MergeSetsOnlyCors(routed.headers, req.origin);
  }

  /** The Origin check ignores an empty header: only the two allow-listed strings pass. */
  lemma EmptyOriginGetsNoAllowOrigin()
    ensures AllowOriginName !in CorsHeaders(Some(""))
    ensures AllowOriginName !in CorsHeaders(None)
  {
  }

  /** Any path other than the simulations path is a plain-text 404, whatever the method. */
  lemma OtherPathNotFound(rt: Runtime, store: Store, req: Request)
    requires req.path != SimulationsPath
    ensures Route(rt, store, req) == TextReply(404, "Not Found")
  {
  }

  /** A throw out of the handler becomes a 500 carrying the error's message, or a generic one for a non-Error. */
  lemma EscapedErrorIsServerError(rt: Runtime, store: Store, req: Request, e: Thrown)
    requires req.path == SimulationsPath && req.verb == "POST" && req.body == Malformed(e)
    ensures Route(rt, store, req) ==
      JsonMessage(500, if e.ErrorObject? then e.message else "Internal Server Error")
  {
  }

  /** The complete status table of the dispatcher. */
  lemma StatusTable(rt: Runtime, store: Store, req: Request)
    ensures var s := Route(rt, store, req).status;
      var onPath := req.path == SimulationsPath;
      var post := onPath && req.verb == "POST";
      var get := onPath && req.verb == "GET";
      var lookup := if get && req.idParam.Some? then Some(store.selectById(req.idParam.value)) else None;
      && (s == 200 <==> lookup.Some? && lookup.value.Found?)
      && (s == 201 <==>
            post && req.body.Parsed? && Acceptable(req.body.value)
            && store.insert(SubmittedRow(rt, req.body.value)) == Inserted)
      && (s == 400 <==>
            post && req.body.Parsed?
            && (!Acceptable(req.body.value) || store.insert(SubmittedRow(rt, req.body.value)).InsertThrew?))
      && (s == 404 <==> !onPath || (get && req.idParam.None?) || (lookup.Some? && lookup.value.NotFound?))
      && (s == 405 <==> onPath && req.verb != "GET" && req.verb != "POST")
      && (s == 500 <==> (post && req.body.Malformed?) || (lookup.Some? && lookup.value.SelectThrew?))
  {
  }
}
