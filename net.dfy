/**
 * The pieces of net/http and net/url that the routing code touches.
 * URL parsing, rendering and query escaping are not modelled: they are the
 * fields of a `UrlLib` record, so every statement below holds for whatever
 * implementation of them is chosen, unless a lemma names a law it needs.
 */
module Net {

  datatype Option<T> = None | Some(value: T)

  /** A url.URL, field by field. */
  datatype Url = Url(
    scheme: string,
    opaquePart: string,  // Opaque
    user: string,
    host: string,
    path: string,
    rawPath: string,
    forceQuery: bool,
    rawQuery: string,
    fragment: string)

  /**
   * url.Parse, URL.String, url.QueryEscape and the lookup
   * `URL.Query().Get(key)` on a raw query.
   */
  datatype UrlLib = UrlLib(
    parse: string -> Option<Url>,
    render: Url -> string,
    queryEscape: string -> string,
    queryGet: (string, string) -> string)

  /**
   * The law that ties QueryEscape to query parsing: a query of the form
   * `q=` followed by an escaped text yields that text back for key `q`.
   */
  ghost predicate QueryRoundTrips(lib: UrlLib)
  {
    forall s :: lib.queryGet("q=" + lib.queryEscape(s), "q") == s
  }

  /** An httpcache.Cache value, by identity. */
  datatype ByteCache = NewMemoryCache | CustomCache(id: nat)

  /** An httputil.BufferPool value, by identity; `NoBufferPool` is a nil pool. */
  datatype BufferPool = NoBufferPool | DefaultBufferPool | CustomBufferPool(id: nat)

  /**
   * An http.RoundTripper value, by identity. `CachingTransport` is an
   * httpcache.Transport with its cache, its MarkCachedResponses flag and
   * the transport it wraps.
   */
  datatype Transport =
    | DefaultTransport
    | CustomTransport(id: nat)
    | CachingTransport(cache: ByteCache, markCached: bool, next: Transport)

  /** http.Header: a map from header names to their value lists. */
  class Header {
    var entries: map<string, seq<string>>

    constructor (entries: map<string, seq<string>>)
      ensures this.entries == entries
    {
      this.entries := entries;
    }
  }

  /** The http.Request fields the routing code reads or writes. */
  class Request {
    var verb: string  // Method
    var url: Url
    var host: string
    var header: Header

    constructor (verb: string, url: Url, host: string, header: Header)
      ensures this.verb == verb && this.url == url && this.host == host && this.header == header
    {
      this.verb := verb;
      this.url := url;
      this.host := host;
      this.header := header;
    }
  }

  /**
   * The one transport call a RoundTrip makes and the request it hands
   * over, or a nil-pointer panic raised before any call is made.
   */
  datatype Dispatch = Send(via: Transport, req: Request) | Panic

  /**
   * clone (client.go:141-149, forwardcache.go:165-173): a new request with
   * the same fields and a new header map holding the same value lists.
   */
  method Clone(r: Request) returns (r2: Request)
    ensures fresh(r2) && fresh(r2.header)
    ensures r2.verb == r.verb && r2.url == r.url && r2.host == r.host
    ensures r2.header.entries == r.header.entries
  {
    var h := new Header(map[]);
    var src := r.header.entries;
    var todo := src.Keys;
    while todo != {}
      invariant todo <= src.Keys
      invariant h.entries.Keys == src.Keys - todo
      invariant forall k :: k in h.entries ==> h.entries[k] == src[k]
      invariant fresh(h)
      decreases |todo|
    {
      var k :| k in todo;
      h.entries := h.entries[k := src[k]];
      todo := todo - {k};
    }
    r2 := new Request(r.verb, r.url, r.host, h);
  }

  /**
   * peerHandlerURL (client.go:89-96) and proxyHandlerURL
   * (forwardcache.go:156-161): the peer's base URL with its path replaced
   * and its raw query set to `q=` and the escaped origin. A peer that does
   * not parse yields None: the source then dereferences a nil URL.
   */
  function HandlerUrl(peer: string, path: string, origin: string, lib: UrlLib): (r: Option<Url>)
    ensures r.None? <==> lib.parse(peer).None?
    ensures r.Some? ==>
      var base := lib.parse(peer).value;
      && r.value.path == path
      && r.value.rawQuery == "q=" + lib.queryEscape(origin)
      && r.value.(path := base.path, rawQuery := base.rawQuery) == base
  {
    match lib.parse(peer)
    case None => None
    case Some(u) => Some(u.(path := path, rawQuery := "q=" + lib.queryEscape(origin)))
  }

  /**
   * What a forwarding RoundTrip sends for `req` to `peer`: a fresh clone
   * whose URL is the handler URL of the request's own URL string and whose
   * Host is that URL's host, through `via`; a panic when the peer does not
   * parse.
   */
  ghost predicate Forwarded(d: Dispatch, req: Request, peer: string, path: string, via: Transport, lib: UrlLib)
    reads req, req.header, if d.Send? then {d.req} else {}
    reads if d.Send? then {d.req.header} else {}
  {
    match HandlerUrl(peer, path, lib.render(req.url), lib)
    case None => d.Panic?
    case Some(u) =>
      && d.Send?
      && d.via == via
      && d.req != req
      && d.req.header != req.header
      && d.req.url == u
      && d.req.host == u.host
      && d.req.verb == req.verb
      && d.req.header.entries == req.header.entries
  }
}
