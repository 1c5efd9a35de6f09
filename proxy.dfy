/**
 * proxy.go: the caching proxy a peer serves on its proxy path. A request
 * must carry the path, a non-empty `q` query value and a `q` that parses
 * as a URL; each failure answers 502 Bad Gateway. A valid request is sent
 * on to the origin through an httpcache.Transport.
 */
module BoundaryProxy {
  import opened Net

  const StatusBadGateway: int := 502

  /** The checks of ServeHTTP, in the order they run. */
  datatype Check = PathMismatch | MissingQuery | InvalidOrigin

  /** The outcome of the checks: the first one that failed, or the parsed origin. */
  datatype Verdict = Reject(failed: Check) | Accept(origin: Url)

  /** The `q` value of a request URL (`req.URL.Query().Get("q")`). */
  function QueryOf(u: Url, lib: UrlLib): string
  {
    lib.queryGet(u.rawQuery, "q")
  }

  /** The validation chain of ServeHTTP (proxy.go:61-76). */
  function Validate(path: string, u: Url, lib: UrlLib): (v: Verdict)
    ensures v == Reject(PathMismatch) <==> u.path != path
    ensures v == Reject(MissingQuery) <==> u.path == path && QueryOf(u, lib) == ""
    ensures v == Reject(InvalidOrigin) <==> u.path == path && QueryOf(u, lib) != "" && lib.parse(QueryOf(u, lib)).None?
    ensures v.Accept? <==> u.path == path && QueryOf(u, lib) != "" && lib.parse(QueryOf(u, lib)).Some?
    ensures v.Accept? ==> lib.parse(QueryOf(u, lib)) == Some(v.origin)
  {
    if u.path != path then Reject(PathMismatch)
    else
      var q := QueryOf(u, lib);
      if q == "" then Reject(MissingQuery)
      else match lib.parse(q)
        case None => Reject(InvalidOrigin)
        case Some(origin) => Accept(origin)
  }

  /** What ServeHTTP does with a request: write a status, or pass a request to the transport. */
  datatype Served = Status(code: int) | Proxied(via: Transport, out: Request)

  /** proxy: the served path and the ReverseProxy's transport. */
  class Proxy {
    var path: string
    const transport: Transport

    /** newProxy(path, cache, transport): an httpcache.Transport that marks cached responses. */
    constructor (path: string, cache: ByteCache, next: Transport)
      ensures this.path == path
      ensures transport == CachingTransport(cache, true, next)
    {
      this.path := path;
      transport := CachingTransport(cache, true, next);
    }

    /**
     * ServeHTTP: 502 when a check fails, and nothing is sent; otherwise the
     * reverse proxy's copy of the request, rewritten by the director to the
     * origin, goes to the caching transport. The incoming request is not
     * modified.
     */
    method ServeHTTP(req: Request, lib: UrlLib) returns (s: Served)
      ensures Validate(path, req.url, lib).Reject? ==> s == Status(StatusBadGateway)
      ensures Validate(path, req.url, lib).Accept? ==>
        var origin := Validate(path, req.url, lib).origin;
        && s.Proxied?
        && s.via == transport
        && fresh(s.out) && fresh(s.out.header)
        && s.out.url == origin
        && s.out.host == origin.host
        && s.out.verb == req.verb
        && s.out.header.entries == req.header.entries
    {
      var v := Validate(path, req.url, lib);
      if v.Reject? {
        return Status(StatusBadGateway);
      }
      var out := Clone(req);
      Director(out, v.origin);
      s := Proxied(transport, out);
    }
  }

  /**
   * director: point the request at the origin that ServeHTTP stored in its
   * context (passed here directly) and take the origin's host.
   */
  method Director(req: Request, origin: Url)
    modifies req
    ensures req.url == origin && req.host == origin.host
    ensures req.verb == old(req.verb) && req.header == old(req.header)
  {
    req.url := origin;
    req.host := origin.host;
  }
}
