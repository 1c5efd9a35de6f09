/**
 * peer.go: a member of the pool. It routes like a Client (whose methods it
 * embeds) but serves the requests it owns itself, through its own caching
 * proxy, instead of forwarding them.
 */
module PeerNode {
  import opened Net
  import opened HashRing
  import Router
  import BoundaryProxy

  /** The option closures WithClient, WithPeerTransport, WithBufferPool, WithDefaultBufferPool and WithCache. */
  datatype PeerOption =
    | WithClient(c: Router.Client)
    | WithPeerTransport(t: Transport)
    | WithBufferPool(b: BufferPool)
    | WithDefaultBufferPool(ignored: BufferPool)
    | WithCache(cache: ByteCache)

  /** The Peer fields that options set. */
  datatype PeerConfig = PeerConfig(client: Router.Client, cache: ByteCache, transport: Transport, buffers: BufferPool)

  /** The fields NewPeer starts from, around the client it created first. */
  function Defaults(c: Router.Client): PeerConfig
  {
    PeerConfig(c, NewMemoryCache, DefaultTransport, NoBufferPool)
  }

  /** What one option closure does to a peer. */
  function Apply(p: PeerConfig, o: PeerOption): PeerConfig
  {
    match o
    case WithClient(c) => p.(client := c)
    case WithPeerTransport(t) => p.(transport := t)
    case WithBufferPool(b) => p.(buffers := b)
    case WithDefaultBufferPool(_) => p.(buffers := DefaultBufferPool)
    case WithCache(c) => p.(cache := c)
  }

  /** The fields after the defaults and then every option, in order. */
  function Configure(start: PeerConfig, opts: seq<PeerOption>): PeerConfig
  {
    if opts == [] then start else Apply(Configure(start, opts[..|opts| - 1]), opts[|opts| - 1])
  }

  /** WithDefaultBufferPool installs DefaultBufferPool whatever pool it is given. */
  lemma DefaultBufferPoolIgnoresArgument(p: PeerConfig, b1: BufferPool, b2: BufferPool)
    ensures Apply(p, WithDefaultBufferPool(b1)) == Apply(p, WithDefaultBufferPool(b2))
    ensures Apply(p, WithDefaultBufferPool(b1)).buffers == DefaultBufferPool
  {
  }

  /** opts[i] is the last WithClient option in opts. */
  predicate LastClientOption(opts: seq<PeerOption>, i: int)
  {
    0 <= i < |opts| && opts[i].WithClient? && forall j :: i < j < |opts| ==> !opts[j].WithClient?
  }

  /** The client a peer ends up with is the one of its last WithClient option, or the one it made. */
  lemma {:induction false} FinalClient(start: PeerConfig, opts: seq<PeerOption>)
    ensures (forall j :: 0 <= j < |opts| ==> !opts[j].WithClient?) ==> Configure(start, opts).client == start.client
    ensures forall i :: LastClientOption(opts, i) ==> Configure(start, opts).client == opts[i].c
  {
    if opts != [] {
      var last := |opts| - 1;
      var init := opts[..last];
      assert forall j :: 0 <= j < |init| ==> init[j] == opts[j];
      FinalClient(start, init);
      assert Configure(start, opts) == Apply(Configure(start, init), opts[last]);
      forall i | LastClientOption(opts, i)
        ensures Configure(start, opts).client == opts[i].c
      {
        if i < last {
          assert !opts[last].WithClient?;
          assert LastClientOption(init, i);
        }
      }
    }
  }

  /** forwardcache.Peer. */
  class Peer {
    var client: Router.Client
    var handler: BoundaryProxy.Proxy
    const self: string
    var cache: ByteCache
    var transport: Transport
    var buffers: BufferPool

    /** The client NewPeer created before applying the options. */
    ghost const initialClient: Router.Client

    function Config(): PeerConfig
      reads this
    {
      PeerConfig(client, cache, transport, buffers)
    }

    /**
     * NewPeer: a fresh default client and the defaults, then the options in
     * order, and only then the handler, on the final client's path and over
     * the final cache and transport.
     */
    constructor NewPeer(self: string, options: seq<PeerOption>)
      ensures this.self == self
      ensures fresh(initialClient) && initialClient.Config() == Router.Defaults() && initialClient.Valid()
      ensures Config() == Configure(Defaults(initialClient), options)
      ensures fresh(handler)
      ensures handler.path == client.path
      ensures handler.transport == CachingTransport(cache, true, transport)
    {
      var c := new Router.Client.NewClient([]);
      initialClient := c;
      client := c;
      this.self := self;
      transport := DefaultTransport;
      cache := NewMemoryCache;
      buffers := NoBufferPool;
      // stands for the nil handler until the options have run
      handler := new BoundaryProxy.Proxy("", NewMemoryCache, DefaultTransport);
      new;
      for i := 0 to |options|
        invariant Config() == Configure(Defaults(initialClient), options[..i])
        invariant initialClient.Config() == Router.Defaults() && initialClient.Valid()
      {
        assert options[..i + 1][..i] == options[..i];
        ApplyOption(options[i]);
      }
      assert options[..|options|] == options;
      handler := new BoundaryProxy.Proxy(client.path, cache, transport);
    }

    /** Run one option closure on this peer. */
    method ApplyOption(o: PeerOption)
      modifies this
      ensures Config() == Apply(old(Config()), o)
      ensures handler == old(handler)
    {
      match o
      case WithClient(c) => client := c;
      case WithPeerTransport(t) => transport := t;
      case WithBufferPool(b) => buffers := b;
      case WithDefaultBufferPool(_) => buffers := DefaultBufferPool;
      case WithCache(c) => cache := c;
    }

    /**
     * RoundTrip: the owner is chosen on the client's ring by the whole URL
     * string; the peer's own requests go unchanged to its handler's caching
     * transport, the others through the client's roundTripTo.
     */
    method RoundTrip(req: Request, lib: UrlLib, locate: Locator) returns (d: Dispatch)
      ensures var owner := client.ChoosePeer(lib.render(req.url), locate);
        && (owner == self ==> d == Send(handler.transport, req))
        && (owner != self ==> Forwarded(d, req, owner, client.path, client.transport, lib))
        && (owner != self && d.Send? ==> fresh(d.req) && fresh(d.req.header))
    {
      var owner := client.ChoosePeer(lib.render(req.url), locate);
      if owner == self {
        return Send(handler.transport, req);
      }
      d := client.RoundTripTo(owner, req, lib);
    }
  }
}
