/**
 * How the two ends fit together: the URL a client or pool builds for a
 * peer is exactly what that peer's proxy accepts, and the proxy then
 * fetches the URL the caller asked for. Also the configurations and
 * verdicts that the repository's tests check.
 */
module Protocol {
  import opened Net
  import opened HashRing
  import Router
  import BoundaryProxy
  import PeerNode

  /**
   * A proxy on the same path accepts a forwarded request exactly when the
   * origin string is non-empty and parses, and then recovers that origin.
   */
  lemma {:induction false} ForwardedUrlValidates(peer: string, path: string, origin: string, lib: UrlLib)
    requires QueryRoundTrips(lib)
    requires HandlerUrl(peer, path, origin, lib).Some?
    ensures var v := BoundaryProxy.Validate(path, HandlerUrl(peer, path, origin, lib).value, lib);
      && (origin == "" <==> v == BoundaryProxy.Reject(BoundaryProxy.MissingQuery))
      && (origin != "" && lib.parse(origin).None? <==> v == BoundaryProxy.Reject(BoundaryProxy.InvalidOrigin))
      && (v.Accept? <==> origin != "" && lib.parse(origin).Some?)
      && (v.Accept? ==> Some(v.origin) == lib.parse(origin))
  {
    var u := HandlerUrl(peer, path, origin, lib).value;
    assert lib.queryGet("q=" + lib.queryEscape(origin), "q") == origin;
    assert BoundaryProxy.QueryOf(u, lib) == origin;
  }

  /**
   * The peer's proxy fetches the very URL the caller requested, as long as
   * rendering a URL and parsing it back gives the same URL.
   */
  lemma ForwardedRequestReachesOrigin(peer: string, path: string, u: Url, lib: UrlLib)
    requires QueryRoundTrips(lib)
    requires lib.parse(lib.render(u)) == Some(u) && lib.render(u) != ""
    requires HandlerUrl(peer, path, lib.render(u), lib).Some?
    ensures BoundaryProxy.Validate(path, HandlerUrl(peer, path, lib.render(u), lib).value, lib) == BoundaryProxy.Accept(u)
  {
    ForwardedUrlValidates(peer, path, lib.render(u), lib);
  }

  /** A client and a proxy configured with different paths never agree: every forwarded request gets 502. */
  lemma PathsMustMatch(peer: string, clientPath: string, proxyPath: string, origin: string, lib: UrlLib)
    requires clientPath != proxyPath
    requires HandlerUrl(peer, clientPath, origin, lib).Some?
    ensures BoundaryProxy.Validate(proxyPath, HandlerUrl(peer, clientPath, origin, lib).value, lib)
         == BoundaryProxy.Reject(BoundaryProxy.PathMismatch)
  {
  }

  /** client_test.go: the options of TestClient, applied in order over the defaults. */
  lemma {:induction false} ClientTestConfiguration()
    ensures Router.Configure([
        Router.WithPool(["http://a.com:3000", "http://b.com:3000", "http://c.com:3000"]),
        Router.WithHashFn(CustomHash(0)),
        Router.WithClientTransport(CustomTransport(0)),
        Router.WithPath("/p")])
      == Router.ClientConfig("/p", Router.DefaultReplicas, CustomHash(0), CustomTransport(0),
           ["http://a.com:3000", "http://b.com:3000", "http://c.com:3000"])
  {
    var opts := [
      Router.WithPool(["http://a.com:3000", "http://b.com:3000", "http://c.com:3000"]),
      Router.WithHashFn(CustomHash(0)),
      Router.WithClientTransport(CustomTransport(0)),
      Router.WithPath("/p")];
    var abc := ["http://a.com:3000", "http://b.com:3000", "http://c.com:3000"];
    assert opts[..1][..0] == [] && opts[..2][..1] == opts[..1] && opts[..3][..2] == opts[..2] && opts[..4][..3] == opts[..3];
    assert Router.Configure(opts[..1]) == Router.Defaults().(peers := abc);
    assert Router.Configure(opts[..2]) == Router.Defaults().(peers := abc, hashFn := CustomHash(0));
    assert Router.Configure(opts[..3]) == Router.Defaults().(peers := abc, hashFn := CustomHash(0), transport := CustomTransport(0));
    assert opts[..4] == opts;
  }

  /** client_test.go: a request to "http://a.com:3000"'s proxy keeps the base URL and carries the origin in `q`. */
  lemma ClientTestHandlerUrl(lib: UrlLib, origin: string)
    requires lib.parse("http://a.com:3000") == Some(Url("http", "", "", "a.com:3000", "", "", false, "", ""))
    ensures HandlerUrl("http://a.com:3000", "/p", origin, lib)
         == Some(Url("http", "", "", "a.com:3000", "/p", "", false, "q=" + lib.queryEscape(origin), ""))
  {
  }

  /**
   * peer_test.go: the peer's own requests go to a caching transport over
   * the peer transport and a fresh memory cache; the others use the client
   * the peer was given.
   */
  lemma {:induction false} PeerTestConfiguration(initial: Router.Client, given: Router.Client)
    ensures PeerNode.Configure(PeerNode.Defaults(initial), [PeerNode.WithPeerTransport(CustomTransport(1)), PeerNode.WithClient(given)])
         == PeerNode.PeerConfig(given, NewMemoryCache, CustomTransport(1), NoBufferPool)
  {
    var opts := [PeerNode.WithPeerTransport(CustomTransport(1)), PeerNode.WithClient(given)];
    assert opts[..1][..0] == [] && opts[..2][..1] == opts[..1] && opts[..2] == opts;
    assert PeerNode.Configure(PeerNode.Defaults(initial), opts[..1]) == PeerNode.Defaults(initial).(transport := CustomTransport(1));
  }

  /**
   * proxy_test.go: "/p" fails the path check; "?url=..." has no `q`;
   * "?q=%25" decodes to "%", which does not parse.
   */
  lemma ProxyTestRejections(lib: UrlLib, wrongPath: Url, noQ: Url, badQ: Url)
    requires wrongPath.path == "/p"
    requires noQ.path == "/proxy" && lib.queryGet(noQ.rawQuery, "q") == ""
    requires badQ.path == "/proxy" && lib.queryGet(badQ.rawQuery, "q") == "%" && lib.parse("%").None?
    ensures BoundaryProxy.Validate("/proxy", wrongPath, lib) == BoundaryProxy.Reject(BoundaryProxy.PathMismatch)
    ensures BoundaryProxy.Validate("/proxy", noQ, lib) == BoundaryProxy.Reject(BoundaryProxy.MissingQuery)
    ensures BoundaryProxy.Validate("/proxy", badQ, lib) == BoundaryProxy.Reject(BoundaryProxy.InvalidOrigin)
  {
  }
}
