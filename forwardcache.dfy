/**
 * forwardcache.go: the older Pool, which plays both roles at once. It owns
 * a local proxy, routes each request by its whole URL string on a ring it
 * rebuilds on every Set, serves its own requests through the local proxy's
 * transport and forwards the others to their owner's proxy path.
 */
module ForwardCache {
  import opened Net
  import opened HashRing
  import Router
  import BoundaryProxy

  /** PoolOptions; a blank field ("", 0, a nil hash) means "keep the default". */
  datatype PoolOptions = PoolOptions(path: string, replicas: int, hashFn: HashFn)

  /** The options NewPool starts from; HashFn stays nil. */
  function DefaultOptions(): PoolOptions
  {
    PoolOptions(Router.DefaultPath, Router.DefaultReplicas, NilHash)
  }

  /** The options NewPoolOpts ends with: each field of `given` that is set replaces that of `base`. */
  function Merge(base: PoolOptions, given: PoolOptions): (r: PoolOptions)
  {
    PoolOptions(
      if given.path != "" then given.path else base.path,
      if given.replicas != 0 then given.replicas else base.replicas,
      if given.hashFn != NilHash then given.hashFn else base.hashFn)
  }

  /** Blank options change nothing; fully set options replace everything. */
  lemma MergeBlankAndFull(base: PoolOptions, given: PoolOptions)
    ensures Merge(base, PoolOptions("", 0, NilHash)) == base
    ensures given.path != "" && given.replicas != 0 && given.hashFn != NilHash ==> Merge(base, given) == given
  {
    MergeFieldwise(base, PoolOptions("", 0, NilHash));
    MergeFieldwise(base, given);
  }

  /**
   * Field by field: a set field of `given` wins, and a blank one ("", 0,
   * a nil hash) keeps the field of `base`, whatever the other fields are.
   */
  lemma MergeFieldwise(base: PoolOptions, given: PoolOptions)
    ensures given.path != "" ==> Merge(base, given).path == given.path
    ensures given.path == "" ==> Merge(base, given).path == base.path
    ensures given.replicas != 0 ==> Merge(base, given).replicas == given.replicas
    ensures given.replicas == 0 ==> Merge(base, given).replicas == base.replicas
    ensures given.hashFn != NilHash ==> Merge(base, given).hashFn == given.hashFn
    ensures given.hashFn == NilHash ==> Merge(base, given).hashFn == base.hashFn
  {
  }

  /** forwardcache.Pool; `peers` is None until the first Set (a nil ring). */
  class Pool {
    var local: BoundaryProxy.Proxy
    const self: string
    var opts: PoolOptions
    var peers: Option<Ring>

    /**
     * NewPool: the local proxy on the default path over `cache` (its
     * transport argument is missing at forwardcache.go:86; httpcache then
     * falls back to the default transport), the default options and no ring.
     */
    constructor NewPool(self: string, cache: ByteCache)
      ensures this.self == self
      ensures fresh(local)
      ensures local.path == Router.DefaultPath
      ensures local.transport == CachingTransport(cache, true, DefaultTransport)
      ensures opts == DefaultOptions()
      ensures peers == None
    {
      this.self := self;
      local := new BoundaryProxy.Proxy(Router.DefaultPath, cache, DefaultTransport);
      opts := DefaultOptions();
      peers := None;
    }

    /**
     * NewPoolOpts: NewPool, then each option that is set overrides the
     * default, and the local proxy is moved to the final path.
     */
    static method NewPoolOpts(self: string, cache: ByteCache, given: PoolOptions) returns (p: Pool)
      ensures fresh(p) && fresh(p.local)
      ensures p.self == self
      ensures p.opts == Merge(DefaultOptions(), given)
      ensures p.local.path == p.opts.path
      ensures p.local.transport == CachingTransport(cache, true, DefaultTransport)
      ensures p.peers == None
    {
      p := new Pool.NewPool(self, cache);
      if given.hashFn != NilHash {
        p.opts := p.opts.(hashFn := given.hashFn);
      }
      if given.path != "" {
        p.opts := p.opts.(path := given.path);
      }
      if given.replicas != 0 {
        p.opts := p.opts.(replicas := given.replicas);
      }
      p.local.path := p.opts.path;
    }

    /** Set: a new ring built from exactly these peers; nothing of the old ring is kept. */
    method Set(members: seq<string>)
      modifies this
      ensures peers == Some(Ring(opts.replicas, opts.hashFn, members))
      ensures opts == old(opts) && local == old(local)
    {
      peers := Some(Ring(opts.replicas, opts.hashFn, members));
    }

    /**
     * RoundTrip: with no ring yet the lookup dereferences nil. Otherwise the
     * owner of the whole URL string is looked up; the pool's own requests
     * go unchanged to the local proxy's transport, the others are cloned,
     * pointed at the owner's proxy path and sent through the default
     * transport captured at start-up.
     */
    method RoundTrip(req: Request, lib: UrlLib, locate: Locator) returns (d: Dispatch)
      ensures peers.None? ==> d == Panic
      ensures peers.Some? ==>
        var owner := locate(peers.value, lib.render(req.url));
        && (owner == self ==> d == Send(local.transport, req))
        && (owner != self ==> Forwarded(d, req, owner, opts.path, DefaultTransport, lib))
        && (owner != self && d.Send? ==> fresh(d.req) && fresh(d.req.header))
    {
      if peers.None? {
        return Panic;
      }
      var owner := locate(peers.value, lib.render(req.url));
      if owner == self {
        return Send(local.transport, req);
      }
      var cpy := Clone(req);
      var query := HandlerUrl(owner, opts.path, lib.render(cpy.url), lib);
      if query.None? {
        return Panic;
      }
      cpy.url := query.value;
      cpy.host := query.value.host;
      d := Send(DefaultTransport, cpy);
    }
  }
}
