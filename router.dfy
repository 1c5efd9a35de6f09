/**
 * client.go: the nonparticipating client. It picks the owner of a request
 * on the ring by the request's whole URL string and forwards a clone of the
 * request to that peer's proxy path, with the original URL in query `q`.
 */
module Router {
  import opened Net
  import opened HashRing

  const DefaultPath: string := "/proxy"
  const DefaultReplicas: int := 50

  /** The option closures WithPath, WithReplicas, WithHashFn, WithClientTransport and WithPool. */
  datatype ClientOption =
    | WithPath(p: string)
    | WithReplicas(r: int)
    | WithHashFn(h: HashFn)
    | WithClientTransport(t: Transport)
    | WithPool(members: seq<string>)

  /** The Client fields that options set. */
  datatype ClientConfig = ClientConfig(path: string, replicas: int, hashFn: HashFn, transport: Transport, peers: seq<string>)

  /** The fields NewClient starts from; `peers` is a nil slice. */
  function Defaults(): ClientConfig
  {
    ClientConfig(DefaultPath, DefaultReplicas, ChecksumIEEE, DefaultTransport, [])
  }

  /** What one option closure does to a client. */
  function Apply(c: ClientConfig, o: ClientOption): ClientConfig
  {
    match o
    case WithPath(p) => c.(path := p)
    case WithReplicas(r) => c.(replicas := r)
    case WithHashFn(h) => c.(hashFn := h)
    case WithClientTransport(t) => c.(transport := t)
    case WithPool(ps) => c.(peers := ps)
  }

  /** The fields after the defaults and then every option, in order. */
  function Configure(opts: seq<ClientOption>): ClientConfig
  {
    if opts == [] then Defaults() else Apply(Configure(opts[..|opts| - 1]), opts[|opts| - 1])
  }

  /** The Client fields an option can set. */
  datatype FieldName = PathField | ReplicasField | HashField | TransportField | PeersField

  /** The field an option sets. */
  function Field(o: ClientOption): FieldName
  {
    match o
    case WithPath(_) => PathField
    case WithReplicas(_) => ReplicasField
    case WithHashFn(_) => HashField
    case WithClientTransport(_) => TransportField
    case WithPool(_) => PeersField
  }

  /** The field `o` sets holds `o`'s argument. */
  predicate Holds(c: ClientConfig, o: ClientOption)
  {
    match o
    case WithPath(p) => c.path == p
    case WithReplicas(r) => c.replicas == r
    case WithHashFn(h) => c.hashFn == h
    case WithClientTransport(t) => c.transport == t
    case WithPool(ps) => c.peers == ps
  }

  /** Two configurations agree on field `f`. */
  predicate Agree(a: ClientConfig, b: ClientConfig, f: FieldName)
  {
    match f
    case PathField => a.path == b.path
    case ReplicasField => a.replicas == b.replicas
    case HashField => a.hashFn == b.hashFn
    case TransportField => a.transport == b.transport
    case PeersField => a.peers == b.peers
  }

  /** An option sets its own field and leaves every other field alone. */
  lemma ApplyOnlySets(c: ClientConfig, o: ClientOption, f: FieldName)
    ensures Holds(Apply(c, o), o)
    ensures f != Field(o) ==> Agree(Apply(c, o), c, f)
  {
  }

  /** Later options override earlier ones: the last option on a field decides it. */
  lemma {:induction false} LastOptionWins(opts: seq<ClientOption>, i: nat)
    requires i < |opts|
    requires forall j :: i < j < |opts| ==> Field(opts[j]) != Field(opts[i])
    ensures Holds(Configure(opts), opts[i])
  {
    var last := |opts| - 1;
    if i == last {
      ApplyOnlySets(Configure(opts[..last]), opts[last], PathField);
    } else {
      var init := opts[..last];
      assert forall j :: i < j < |init| ==> init[j] == opts[j];
      LastOptionWins(init, i);
      assert init[i] == opts[i];
      var f := Field(opts[i]);
      ApplyOnlySets(Configure(init), opts[last], f);
      match opts[i]
      case WithPath(_) =>
      case WithReplicas(_) =>
      case WithHashFn(_) =>
      case WithClientTransport(_) =>
      case WithPool(_) =>
    }
  }

  /** A field no option sets keeps its default. */
  lemma {:induction false} UnsetKeepsDefault(opts: seq<ClientOption>, f: FieldName)
    requires forall j :: 0 <= j < |opts| ==> Field(opts[j]) != f
    ensures Agree(Configure(opts), Defaults(), f)
  {
    if opts != [] {
      var last := |opts| - 1;
      var init := opts[..last];
      assert forall j :: 0 <= j < |init| ==> init[j] == opts[j];
      UnsetKeepsDefault(init, f);
      ApplyOnlySets(Configure(init), opts[last], f);
    }
  }

  /** client.Client. `hashMap` is the ring; choosePeer is a lookup on it. */
  class Client {
    var path: string
    var replicas: int
    var hashFn: HashFn
    var transport: Transport
    var peers: seq<string>
    var hashMap: Ring

    function Config(): ClientConfig
      reads this
    {
      ClientConfig(path, replicas, hashFn, transport, peers)
    }

    /** The ring is the one built from the current peers, replicas and hash function. */
    ghost predicate Valid()
      reads this
    {
      hashMap == Ring(replicas, hashFn, peers)
    }

    /** NewClient: defaults, then the options in order, then SetPool with the peers they left. */
    constructor NewClient(options: seq<ClientOption>)
      ensures Config() == Configure(options)
      ensures Valid()
    {
      path := DefaultPath;
      replicas := DefaultReplicas;
      hashFn := ChecksumIEEE;
      transport := DefaultTransport;
      peers := [];
      hashMap := Ring(DefaultReplicas, ChecksumIEEE, []);
      new;
      for i := 0 to |options|
        invariant Config() == Configure(options[..i])
      {
        assert options[..i + 1][..i] == options[..i];
        ApplyOption(options[i]);
      }
      assert options[..|options|] == options;
      SetPool(peers);
    }

    /** Run one option closure on this client. */
    method ApplyOption(o: ClientOption)
      modifies this
      ensures Config() == Apply(old(Config()), o)
      ensures hashMap == old(hashMap)
    {
      match o
      case WithPath(p) => path := p;
      case WithReplicas(r) => replicas := r;
      case WithHashFn(h) => hashFn := h;
      case WithClientTransport(t) => transport := t;
      case WithPool(ps) => peers := ps;
    }

    /** SetPool: store exactly these peers and build a new ring from them alone. */
    method SetPool(members: seq<string>)
      modifies this
      ensures Config() == old(Config()).(peers := members)
      ensures hashMap == Ring(replicas, hashFn, members)
      ensures Valid()
    {
      peers := members;
      hashMap := Ring(replicas, hashFn, members);
    }

    /** choosePeer: the owner of a URL string on the current ring. */
    function ChoosePeer(url: string, locate: Locator): (owner: string)
      reads this
      ensures PicksMember(locate) && Valid() && peers != [] && replicas > 0 ==> owner in peers
      ensures PicksMember(locate) && Valid() && (peers == [] || replicas <= 0) ==> owner == ""
    {
      locate(hashMap, url)
    }

    /**
     * roundTripTo: the handler URL is built first (a peer that does not
     * parse panics), then a clone carrying it and its host is handed to the
     * client transport. The caller's request is not modified.
     */
    method RoundTripTo(peer: string, req: Request, lib: UrlLib) returns (d: Dispatch)
      ensures Forwarded(d, req, peer, path, transport, lib)
      ensures d.Send? ==> fresh(d.req) && fresh(d.req.header)
    {
      var query := HandlerUrl(peer, path, lib.render(req.url), lib);
      if query.None? {
        return Panic;
      }
      var cpy := Clone(req);
      cpy.url := query.value;
      cpy.host := query.value.host;
      d := Send(transport, cpy);
    }

    /** RoundTrip: forward to the owner of the request's whole URL string. */
    method RoundTrip(req: Request, lib: UrlLib, locate: Locator) returns (d: Dispatch)
      ensures Forwarded(d, req, ChoosePeer(lib.render(req.url), locate), path, transport, lib)
      ensures d.Send? ==> fresh(d.req) && fresh(d.req.header)
    {
      var peer := ChoosePeer(lib.render(req.url), locate);
      d := RoundTripTo(peer, req, lib);
    }
  }
}
