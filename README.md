# forwardcache in Dafny

forwardcache is a distributed HTTP forward cache written in Go. Each peer
owns a slice of the URL space, chosen on a consistent-hash ring keyed by
the request's whole URL string. A request for a URL some other peer owns
is rewritten to that peer's proxy path, with the original URL carried in
query parameter `q`. The owning peer checks the request and fetches the
origin through an HTTP-caching transport. The cached bytes can be kept in
the byte-budgeted LRU store of `lru/lru.go`, which is plugged in through
`WithCache`; by default they go to an unbounded memory cache.

This project models two parts of it:

- the LRU layer (`lru/lru.go`), its main part, as a pure specification
  (`LruSpec`) with an imperative `Cache` class proved against it;
- the routing and validation rules of the package itself (`client.go`,
  `peer.go`, `proxy.go`, `forwardcache.go`).

Files:

- `lru_spec.dfy` (module `LruSpec`): the bookkeeping of `lru.Cache` as
  values. An `Index` holds the remaining budget (`cap`), the size of every
  indexed key (`items`) and the recency list, front first (`list`).
  `Insert`, `Purge`, `Evict`, `Set`, `Touch` and `Delete` say what each
  step does. The lemmas prove the bookkeeping invariant and the eviction
  rules.
- `lru.dfy` (module `Lru`): the `Cache` class, with fields `budget`,
  `items` and `order` that its methods update in place. It has the
  eviction `while` loop and the loop that deletes the victims from the
  store. A `Store` class stands for the backing `httpcache.Cache`, with a
  ghost log of the calls made on it.
- `lru_trace.dfy` (module `LruTrace`): the scenarios of `lru/lru_test.go`
  replayed on the specification at capacity 10.
- `net.dfy` (module `Net`): URLs, headers and requests; `clone`; the
  handler URL built by `peerHandlerURL` and `proxyHandlerURL`; and the
  predicate `Forwarded`, which describes a forwarded request.
- `ring.dfy` (module `HashRing`): the consistent-hash ring, as the
  replica count, hash function and members it was built from.
- `router.dfy` (module `Router`): `client.go`.
- `peer.dfy` (module `PeerNode`): `peer.go`.
- `proxy.dfy` (module `BoundaryProxy`): `proxy.go`.
- `forwardcache.dfy` (module `ForwardCache`): `forwardcache.go`.
- `protocol.dfy` (module `Protocol`): how the client end and the proxy end
  fit together, and the configurations the Go tests set up.

Some inputs are left abstract:

- URL parsing, rendering, `url.QueryEscape` and `URL.Query().Get` are the
  four fields of a `UrlLib` value passed in as a parameter.
- The ring's owner lookup (`consistenthash.Map.Get`) is a `Locator`
  function passed in as a parameter.
- Transports, caches, hash functions and buffer pools are identity
  tokens.

A `RoundTrip` returns the single call it makes: the transport it calls and
the request it hands over, which is a `Dispatch`. It does not return the
response, because the transport's response and error are passed back
unchanged and without retry (client.go:86).

## Model

| member | source | states |
|---|---|---|
| LruSpec.Empty | lru/lru.go:105-112 | the index New builds; EmptyValid states its invariant |
| LruSpec.Touch | lru/lru.go:46-51 | Get's bookkeeping; TouchValid, TouchKeepsOrder and OperationsWithinBudget state its properties |
| LruSpec.Insert | lru/lru.go:62-72 | the first half of Set; InsertValid and InsertKeepsOrder state its properties |
| LruSpec.Purge | lru/lru.go:97-101 | purge; PurgeValid states its properties |
| LruSpec.Evict | lru/lru.go:73-77 | the eviction loop; EvictValid, EvictStops, EvictFromBack, EvictRefunds, EvictForgetsVictims and EvictOnlyWhileOver state its properties |
| LruSpec.Set | lru/lru.go:61-77 | Set's bookkeeping and its victims; SetValid, SetVictims, SetKeys and OperationsWithinBudget state its properties |
| LruSpec.Delete | lru/lru.go:88-91 | Delete's bookkeeping; DeleteValid and OperationsWithinBudget state its properties |
| LruSpec.Without | lru/lru.go:99 | unlinking a key from the list keeps exactly the other keys, and the list gets shorter when the key was listed |
| LruSpec.WithoutCuts | lru/lru.go:99 | list.Remove on a duplicate-free list cuts out exactly the key's element: the keys before it and after it keep their order |
| LruSpec.EmptyValid | lru/lru.go:105-112 | a new cache satisfies the invariant: nothing indexed and a budget equal to the capacity |
| LruSpec.InsertValid | lru/lru.go:62-72 | the first half of Set keeps the invariant (budget = capacity − Σ sizes, list and map hold the same keys once each) and puts the key at the front with the new size. The budget drops by the new size and, for a key already present, rises by its old size |
| LruSpec.InsertKeepsOrder | lru/lru.go:62-69 | Set's PushFront puts a new key in front of the whole list, and its MoveToFront takes an indexed key from its position p to the front while every other key keeps its order |
| LruSpec.PurgeValid | lru/lru.go:97-101 | purge keeps the invariant, forgets the key, refunds its size and shortens the list by one |
| LruSpec.TouchValid | lru/lru.go:46-51 | Get's MoveToFront keeps the invariant, the budget and the sizes, and puts an indexed key at the front. On an unindexed key it changes nothing |
| LruSpec.TouchKeepsOrder | lru/lru.go:51 | Get's MoveToFront takes the hit key from its position p to the front while every other key keeps its order |
| LruSpec.DeleteValid | lru/lru.go:87-91 | Delete keeps the invariant, removes the key's size entry and refunds its size; a second Delete of the same key changes nothing |
| LruSpec.EvictValid | lru/lru.go:73-77 | the eviction loop keeps the invariant |
| LruSpec.EvictStops | lru/lru.go:73 | after the loop the budget is non-negative or at most one key is left, and a non-empty list stays non-empty |
| LruSpec.EvictFromBack | lru/lru.go:73-76 | the victims are taken from the back of the list, least recent first, and what remains is the front part of the list |
| LruSpec.EvictRefunds | lru/lru.go:73-77 | the final budget is the starting budget plus the sizes of all victims |
| LruSpec.EvictForgetsVictims | lru/lru.go:73-77 | exactly the victims lose their size entries |
| LruSpec.EvictOnlyWhileOver | lru/lru.go:73 | each victim was taken while the budget, after the refunds before it, was still negative |
| LruSpec.SetValid | lru/lru.go:61-77 | after Set the invariant holds, the budget is non-negative or exactly one item is left (an oversized item is kept), the key is at the front with its new size, and it is never among its own victims |
| LruSpec.SetVictims | lru/lru.go:62-77 | Set's victims come from the back of the list as it stood after the insertion, and each one refunds its size |
| LruSpec.SetKeys | lru/lru.go:62-82 | after Set the indexed keys are the old ones plus the key, minus the victims |
| LruSpec.OperationsWithinBudget | lru/lru.go:46-91 | Set, Get and Delete each preserve "budget ≥ 0 or at most one item" |
| Lru.Store.Get | lru/lru.go:53 | the backing store answers found exactly when it holds the key, returns its value, and logs the call |
| Lru.Store.Set | lru/lru.go:83 | the backing store overwrites the key and logs the call |
| Lru.Store.Delete | lru/lru.go:94 | the backing store drops the key (missing keys included) and logs the call |
| Lru.Cache.constructor | lru/lru.go:105-112 | New gives an empty index with the whole capacity as budget over the given store |
| Lru.Cache.Get | lru/lru.go:44-54 | a miss returns not-found, leaves the order alone and makes no store call. A hit moves the key to the front and returns whatever the store answers. With an exclusively owned store a hit is always found |
| Lru.Cache.Purge | lru/lru.go:97-101 | the index after purge is the specification's Purge |
| Lru.Cache.Insert | lru/lru.go:62-72 | the index after the first half of Set is the specification's Insert |
| Lru.Cache.Evict | lru/lru.go:73-77 | the eviction loop ends in the specification's Evict state and returns its victims in order |
| LruSpec.EvictAccumulates | lru/lru.go:73-77 | purging one more victim from the back carries forward the fact that the victims so far, plus the rest of the eviction, give the eviction from the starting index |
| Lru.SyncedAfterSet | lru/lru.go:80-83 | after the victims are deleted and the new key is set, the store holds exactly the keys the index keeps |
| Lru.Cache.DropAll | lru/lru.go:80-82 | every victim is deleted from the store, in order, and nothing else |
| Lru.Cache.Set | lru/lru.go:57-84 | the index becomes the specification's Set. The store receives the victims' deletes and then exactly one Set of the new value. When the store held exactly the indexed keys before, it still does |
| Lru.Cache.Delete | lru/lru.go:87-95 | the index becomes the specification's Delete, the store always gets the Delete, and store and index stay in step |
| LruTrace.TestSetRow1 | lru/lru_test.go:38 | key1 (4 bytes) into an empty cache of 10: indexed [key1], budget 6 |
| LruTrace.TestSetRow2 | lru/lru_test.go:39 | key2 (4): [key2, key1], budget 2 |
| LruTrace.TestSetRow3 | lru/lru_test.go:40 | key3 (4): key1 is evicted; [key3, key2], budget 2 |
| LruTrace.TestSetRow4 | lru/lru_test.go:41 | key4 (6): key2 is evicted; [key4, key3], budget 0 |
| LruTrace.TestSetRow5 | lru/lru_test.go:42 | key5 (12): key3 then key4 are evicted; the oversized key5 stays alone with budget −2 |
| LruTrace.TestSetRow6 | lru/lru_test.go:43 | key6 (1): key5 is evicted; [key6], budget 9 |
| LruTrace.TestSetRow7 | lru/lru_test.go:44 | key7 (1): [key7, key6], budget 8 |
| LruTrace.TestSetRow8 | lru/lru_test.go:45 | key8 (8): [key8, key7, key6], budget 0 |
| LruTrace.TestSetRow9 | lru/lru_test.go:46 | key7 again (1): moves to the front, nothing evicted |
| LruTrace.TestSetRow10 | lru/lru_test.go:47 | key9 (1): key6 is evicted; [key9, key7, key8] |
| LruTrace.TestSetRow11 | lru/lru_test.go:48 | key8 grows to 9: key7 is evicted; [key8, key9] |
| LruTrace.TestSetRow12 | lru/lru_test.go:49 | key10 (1): key9 is evicted; [key10, key8] |
| LruTrace.TestSetRow13 | lru/lru_test.go:50 | key8 shrinks to 6: budget 3, nothing evicted |
| LruTrace.TestSetRow14 | lru/lru_test.go:51 | key11 (3): [key11, key8, key10], budget 0 |
| LruTrace.TestSetRow15 | lru/lru_test.go:52 | key12 (5): key10 then key8 are evicted; [key12, key11], budget 2 |
| LruTrace.TestGetTrace | lru/lru_test.go:78-103 | an unknown key misses; touching key1 makes key2 the next victim, and key1 survives |
| LruTrace.TestDeleteTrace | lru/lru_test.go:110-112 | after Set and Delete of key1 the index is empty again with its whole budget |
| Net.Clone | client.go:141-149 | clone gives a new request and a new header map with the same fields and value lists. The original is not changed |
| Net.HandlerUrl | client.go:89-96 | the peer's parsed URL with only Path and RawQuery changed: the path becomes the configured one and the query is exactly `q=` followed by the escaped origin. A peer that does not parse gives no URL |
| Net.Forwarded | client.go:79-87 | the shape of a forwarded request: a panic when the peer does not parse, else one call through the given transport with a fresh clone aimed at the handler URL and its host. Router.Client.RoundTripTo, PeerNode.Peer.RoundTrip and ForwardCache.Pool.RoundTrip are proved to produce it |
| Router.Defaults | client.go:30-35 | the fields NewClient starts from; UnsetKeepsDefault states that they survive options that do not set them |
| Router.Apply | client.go:100-137 | what each option closure does; ApplyOnlySets states it |
| Router.Configure | client.go:30-40 | the defaults followed by every option in order; LastOptionWins and UnsetKeepsDefault state its properties |
| Router.ApplyOnlySets | client.go:100-137 | each option closure sets its own field to its argument and leaves the others alone |
| Router.LastOptionWins | client.go:38-40 | options apply in order: a field ends up with the argument of the last option that sets it |
| Router.UnsetKeepsDefault | client.go:31-36 | a field that no option sets keeps NewClient's default (path "/proxy", 50 replicas, crc32, the default transport, no peers) |
| Router.Client.NewClient | client.go:30-44 | the client's fields are the defaults with the options applied in order, and its ring is built from the peers the options left |
| Router.Client.ApplyOption | client.go:100-137 | running one option changes the client exactly as that option's closure does |
| Router.Client.SetPool | client.go:48-55 | the client keeps exactly the given peers and a ring built from them alone. Nothing of the previous ring is kept, and the other fields are unchanged |
| Router.Client.ChoosePeer | client.go:72-77 | the owner is the ring's answer for the URL string. When the lookup obeys the ring law, the owner is one of the peers if there are peers and a positive replica count, and it is "" if there are no peers or the replica count is zero or less (such a ring holds no virtual nodes) |
| Router.Client.RoundTripTo | client.go:79-87 | a peer that does not parse panics. Otherwise a fresh clone is sent through the client transport, with the handler URL for the request's URL string, that URL's host and the original method and headers. The caller's request is not modified |
| Router.Client.RoundTrip | client.go:67-70 | the peer is chosen by the whole `req.URL.String()`, then as in roundTripTo |
| PeerNode.Defaults | peer.go:60-65 | the fields NewPeer starts from around the client it creates; FinalClient states what survives the options |
| PeerNode.Apply | peer.go:98-135 | what each option closure does; DefaultBufferPoolIgnoresArgument states the odd one |
| PeerNode.Configure | peer.go:67-69 | the defaults followed by every option in order; FinalClient states which client results |
| PeerNode.DefaultBufferPoolIgnoresArgument | peer.go:123-127 | WithDefaultBufferPool installs DefaultBufferPool whatever pool it is passed |
| PeerNode.FinalClient | peer.go:98-102 | the peer's client is the argument of the last WithClient option, or the one NewPeer created when there is none |
| PeerNode.Peer.NewPeer | peer.go:59-73 | a fresh default client is made first. Then come the defaults (memory cache, default transport, no buffer pool) and the options in order. Only then is the handler built, on the final client's path and over the final cache and transport |
| PeerNode.Peer.ApplyOption | peer.go:98-135 | running one option changes the peer exactly as that option's closure does |
| PeerNode.Peer.RoundTrip | peer.go:84-92 | the owner is chosen on the client's ring by the whole URL string. The peer's own requests go unmodified to its handler's caching transport. Any other request goes through the client's roundTripTo |
| BoundaryProxy.Validate | proxy.go:61-76 | the checks run in the order path, then non-empty `q`, then `q` parses. Each iff names the first check that fails, and acceptance carries the parsed origin |
| BoundaryProxy.Proxy.constructor | proxy.go:44-56 | newProxy serves `path` through an httpcache transport over the cache and inner transport, with MarkCachedResponses on |
| BoundaryProxy.Proxy.ServeHTTP | proxy.go:60-80 | any failed check answers 502 and sends nothing. Otherwise the caching transport receives a fresh copy of the request that goes to the parsed origin, with its host and the original method and headers |
| BoundaryProxy.Director | proxy.go:83-87 | the request's URL becomes the origin, its Host the origin's host, and nothing else changes |
| ForwardCache.DefaultOptions | forwardcache.go:87-90 | the options NewPool sets: "/proxy", 50 replicas, a nil hash |
| ForwardCache.Merge | forwardcache.go:97-105 | the options NewPoolOpts ends with; MergeBlankAndFull and MergeFieldwise state its properties |
| ForwardCache.MergeBlankAndFull | forwardcache.go:97-105 | blank options leave the defaults; fully set options replace them all |
| ForwardCache.MergeFieldwise | forwardcache.go:97-105 | field by field, whatever the other fields hold: a set field (non-empty path, non-zero replicas, non-nil hash) replaces the default, and a blank one keeps it |
| ForwardCache.Pool.NewPool | forwardcache.go:83-92 | the local proxy is on "/proxy" over the given cache. The options are "/proxy", 50 replicas and a nil hash, and there is no ring yet |
| ForwardCache.Pool.NewPoolOpts | forwardcache.go:95-108 | the options are the defaults overridden by every field that is set, and the local proxy's path is the final path |
| ForwardCache.Pool.Set | forwardcache.go:113-119 | the ring is rebuilt from exactly the given peers with the pool's replicas and hash; the options and the local proxy are unchanged |
| ForwardCache.Pool.RoundTrip | forwardcache.go:132-147 | with no ring the call panics. The pool's own requests go unmodified to the local proxy's transport. Any other request is cloned, pointed at the owner's proxy path with `q` = its URL string, and sent through the default transport |
| Protocol.ForwardedUrlValidates | client.go:89-96 | when escaping and query parsing round-trip, a proxy on the same path accepts the handler URL exactly when the origin string is non-empty and parses. It then recovers that origin |
| Protocol.ForwardedRequestReachesOrigin | proxy.go:72-86 | when a URL also survives rendering and parsing, the peer's proxy fetches exactly the URL the caller requested |
| Protocol.PathsMustMatch | proxy.go:61-64 | a client and proxy with different paths never agree: every forwarded request gets 502 |
| Protocol.ClientTestConfiguration | client_test.go:27-32 | TestClient's options give path "/p", the mock hash, the mock transport, the three peers and the default 50 replicas |
| Protocol.ClientTestHandlerUrl | client_test.go:38 | the request to the first peer keeps its base URL and has path "/p" and query `q=` plus the escaped origin |
| Protocol.PeerTestConfiguration | peer_test.go:44-51 | TestPeer's options keep the memory cache and install the peer transport and the given client |
| Protocol.ProxyTestRejections | proxy_test.go:39-43 | "/p" fails the path check, `?url=` fails the `q` check, and a `q` of "%" fails the parse check |

## Left out

- Integer width: Go's `cap`, the item sizes and `replicas` are 64-bit `int`s, and `c.cap -= added` (lru/lru.go:72) wraps around for extreme capacities such as `New(c, math.MinInt64)`. The model's `int` is unbounded and does not wrap.
- `WithClient(nil)` (peer.go:98-102) makes NewPeer panic when it reads the client's path at peer.go:71. `Router.Client` is a non-null reference here, so that case cannot be expressed.
- ForwardCache.Pool.RoundTrip: "no ring ⇒ Panic" (forwardcache.go:134) rests on `consistenthash.Map.Get` dereferencing its nil receiver; that package is not part of this model.
- Locking. The mutexes of lru/lru.go:31, client.go:25 and forwardcache.go:60 are not modelled, and every call runs atomically and alone. The race test at lru/lru_test.go:117-140 goes with them.
- Lru.Cache.Get: the gap between the index lookup and the store call (lru/lru.go:51-53) is not modelled. The store's answer is returned as it is, so a hit on the index need not be a hit on the store; the Synced clause says when it is.
- Value bytes: only `len(resp)` matters to the index, and the store keeps the bytes as they are given.
- Lru.Store: `httpcache.Cache` is any key/value store. A cache shared with other writers is covered by the call log, and `Synced` states the exclusive-ownership case.
- The consistenthash package is not part of this model. The ring is the `Ring` value it was built from, and `Map.Get` is the `Locator` parameter. The nil-hash default and CRC32 are not modelled; the law `PicksMember` ("" on a ring with no members or no positive replica count, a member otherwise) is stated as a premise, not proved of the real lookup.
- net/url, net/http and httputil internals: parsing, `String()`, `QueryEscape` and `Query().Get` are the `UrlLib` parameter. The two laws the cross-module lemmas use are `QueryRoundTrips` and "render then parse gives the URL back", and each is stated as a precondition. The escaping of spaces as `+` is not modelled.
- httpcache.Transport caching (RFC 7234) and the X-From-Cache marking are not modelled. The `Transport` token records the cache, the marking flag and the wrapped transport.
- `httputil.ReverseProxy`: its own handling of hop-by-hop headers and X-Forwarded-For is not modelled, and neither is response streaming. BoundaryProxy.Proxy.ServeHTTP models its copy of the request as `clone` followed by the director. The director is given the origin directly instead of through the request context.
- Net.Clone: Go header value lists are slices copied into fresh storage. Here they are sequences, which are values, so sharing cannot arise.
- Responses and errors: the transport's answer is returned unchanged, so RoundTrip returns the single call it makes as a `Dispatch` and not a response.
- `HTTPClient`, `Client()`, `Handler()`, `LocalProxy()`, the `Example*` functions and the `init` at forwardcache.go:51-53: these are wiring only. The default transport the pool forwards through is the `DefaultTransport` token.
- buffers.go: a wrapper over sync.Pool, kept here as the `DefaultBufferPool` token.
- The source does not compile as shown. defaultPath, defaultReplicas and clone are declared in both client.go and forwardcache.go; here the constants live in Router and clone in Net. newProxy is declared with three parameters (proxy.go:44) but called with four at peer.go:71 and with two at forwardcache.go:86. PeerNode.Peer.NewPeer passes the three declared ones, so the peer's buffer pool reaches no proxy. ForwardCache.Pool.NewPool passes the default transport for the missing one, which is what httpcache falls back to for a nil transport.
- forwardcache_test.go calls NewPool with options that this NewPool does not take, so its scenarios are not replayed.
- ForwardCache.Pool.NewPoolOpts: a nil `opts` pointer, which panics in Go, is not modelled; the options are passed by value.
- PeerNode.Peer.NewPeer: before the options have run, the handler field holds a placeholder proxy instead of nil. It is replaced before the constructor returns.
