/**
 * The gateway dispatcher (gateway-fiber/main.go, proxyHandler): count the
 * request, resolve its backend, consult the cache for GET, otherwise forward.
 *
 * The forward itself (proxy.Do) is the outcome Forwarded(url); the upstream's
 * status and body are not modelled. The dispatcher never stores into the cache.
 */
module Gateway {
  import opened Wrappers
  import opened Int64
  import opened Routing
  import opened ResponseCache
  import opened GatewayMetrics

  datatype Request = Request(verb: string, path: string)

  /** What the handler does with the request. */
  datatype Outcome =
    | Status(code: int, body: string)   // answered by the gateway itself
    | Forwarded(url: string)            // handed to proxy.Do

  /** The outcome and the X-Cache header, when one was set. */
  datatype Reply = Reply(xCache: Option<string>, outcome: Outcome)

  const NOT_FOUND_BODY: string := "{\"error\":\"Service not found\"}"
  const NOT_FOUND_REPLY: Reply := Reply(None, Status(404, NOT_FOUND_BODY))

  /** The gateway's mutable state: the cache's store and the metrics counters. */
  datatype State = State(store: map<string, Entry>, counters: Counters)

  /**
   * One call of proxyHandler on state `s` at instant `now`: the new state and the reply.
   */
  function Handle(s: State, cfg: Config, req: Request, now: int): (r: (State, Reply))
    ensures r.1.outcome.Forwarded? ==>
      Resolve(req.path).Some? && r.1.outcome.url == BaseURL(cfg, Resolve(req.path).value) + req.path
    ensures r.1.xCache.Some? <==> Resolve(req.path).Some? && req.verb == "GET"
  {
    var counted := CountRequest(s.counters);
    match Resolve(req.path)
    case None => (State(s.store, counted), NOT_FOUND_REPLY)
    case Some(service) =>
      var url := BaseURL(cfg, service) + req.path;
      if req.verb == "GET" then
        var key := CacheKey(req.verb, req.path);
        var (data, found) := Lookup(s.store, key, now);
        var store := Evict(s.store, key, now);
        if found then (State(store, CountHit(counted)), Reply(Some("HIT"), Status(200, data)))
        else (State(store, CountMiss(counted)), Reply(Some("MISS"), Forwarded(url)))
      else (State(s.store, counted), Reply(None, Forwarded(url)))
  }

  /** A request together with the instant it is handled at. */
  datatype Timed = Timed(req: Request, now: int)

  /** The state after handling `reqs` one after another. */
  function Run(s: State, cfg: Config, reqs: seq<Timed>): State
    decreases |reqs|
  {
    if reqs == [] then s
    else Run(Handle(s, cfg, reqs[0].req, reqs[0].now).0, cfg, reqs[1..])
  }

  /** `t`'s entries are entries of `s`, unchanged: requests only ever delete. */
  ghost predicate SubStore(t: map<string, Entry>, s: map<string, Entry>)
  {
    forall k :: k in t ==> k in s && t[k] == s[k]
  }

  /** Every request counts once; the cache only shrinks; what else changes depends on route and method. */
  lemma HandleEffect(s: State, cfg: Config, req: Request, now: int)
    ensures Handle(s, cfg, req, now).0.counters.total == Inc(s.counters.total)
    ensures SubStore(Handle(s, cfg, req, now).0.store, s.store)
    ensures Handle(s, cfg, req, now).0.store.Keys <= s.store.Keys
  {
  }

  /** No route: 404 "Service not found", and neither the cache nor hits nor misses change. */
  lemma HandleNotFound(s: State, cfg: Config, req: Request, now: int)
    requires Resolve(req.path) == None
    ensures Handle(s, cfg, req, now) == (State(s.store, CountRequest(s.counters)), NOT_FOUND_REPLY)
  {
  }

  /** A GET whose key is live: a HIT served from the cache, with no forward. */
  lemma HandleGetHit(s: State, cfg: Config, path: string, now: int)
    requires Resolve(path).Some?
    requires Lookup(s.store, "GET:" + path, now).1
    ensures Handle(s, cfg, Request("GET", path), now) ==
      (State(s.store, CountHit(CountRequest(s.counters))),
       Reply(Some("HIT"), Status(200, s.store["GET:" + path].data)))
  {
    GetCacheKey(path);
  }

  /** A GET with no live entry: a MISS forwarded to the backend URL followed by the path. */
  lemma HandleGetMiss(s: State, cfg: Config, path: string, now: int)
    requires Resolve(path).Some?
    requires !Lookup(s.store, "GET:" + path, now).1
    ensures Handle(s, cfg, Request("GET", path), now) ==
      (State(Evict(s.store, "GET:" + path, now), CountMiss(CountRequest(s.counters))),
       Reply(Some("MISS"), Forwarded(BaseURL(cfg, Resolve(path).value) + path)))
    ensures "GET:" + path !in Handle(s, cfg, Request("GET", path), now).0.store
  {
    GetCacheKey(path);
  }

  /** Any other method bypasses the cache: no read, no write, no header, hits and misses unchanged. */
  lemma HandleNonGet(s: State, cfg: Config, req: Request, now: int)
    requires Resolve(req.path).Some? && req.verb != "GET"
    ensures Handle(s, cfg, req, now) ==
      (State(s.store, CountRequest(s.counters)),
       Reply(None, Forwarded(BaseURL(cfg, Resolve(req.path).value) + req.path)))
  {
  }

  /** One request keeps the registry sound and lowers no counter, as long as the total has room. */
  lemma HandleKeepsSound(s: State, cfg: Config, req: Request, now: int)
    requires Sound(s.counters) && s.counters.total as int < MAX
    ensures Sound(Handle(s, cfg, req, now).0.counters)
    ensures NoneDecreased(s.counters, Handle(s, cfg, req, now).0.counters)
    ensures Handle(s, cfg, req, now).0.counters.total as int == s.counters.total as int + 1
  {
  }

  /**
   * Over any run shorter than the int64 range: the total counts every request,
   * hits + misses never exceeds it, no counter decreases, and the cache never
   * gains a key or a changed entry.
   */
  lemma {:induction false} RunKeepsInvariant(s: State, cfg: Config, reqs: seq<Timed>)
    requires Sound(s.counters) && s.counters.total as int + |reqs| <= MAX
    ensures Sound(Run(s, cfg, reqs).counters)
    ensures Run(s, cfg, reqs).counters.total as int == s.counters.total as int + |reqs|
    ensures NoneDecreased(s.counters, Run(s, cfg, reqs).counters)
    ensures SubStore(Run(s, cfg, reqs).store, s.store)
    decreases |reqs|
  {
    if reqs != [] {
      var next := Handle(s, cfg, reqs[0].req, reqs[0].now).0;
      HandleKeepsSound(s, cfg, reqs[0].req, reqs[0].now);
      HandleEffect(s, cfg, reqs[0].req, reqs[0].now);
      RunKeepsInvariant(next, cfg, reqs[1..]);
    }
  }

  /** Whatever the counters do, no run of requests adds a cache key or changes an entry. */
  lemma {:induction false} RunOnlyShrinks(s: State, cfg: Config, reqs: seq<Timed>)
    ensures SubStore(Run(s, cfg, reqs).store, s.store)
    ensures Run(s, cfg, reqs).store.Keys <= s.store.Keys
    decreases |reqs|
  {
    if reqs != [] {
      HandleEffect(s, cfg, reqs[0].req, reqs[0].now);
      RunOnlyShrinks(Handle(s, cfg, reqs[0].req, reqs[0].now).0, cfg, reqs[1..]);
    }
  }

  /** A request that takes part in caching: a GET to a known route. */
  predicate Cacheable(t: Timed)
  {
    t.req.verb == "GET" && Resolve(t.req.path).Some?
  }

  /** When every request is a routed GET, each one is either a hit or a miss: hits + misses grows with the total. */
  lemma {:induction false} RunAllCacheable(s: State, cfg: Config, reqs: seq<Timed>)
    requires Sound(s.counters) && s.counters.total as int + |reqs| <= MAX
    requires forall i :: 0 <= i < |reqs| ==> Cacheable(reqs[i])
    ensures Run(s, cfg, reqs).counters.hits as int + Run(s, cfg, reqs).counters.misses as int
      == s.counters.hits as int + s.counters.misses as int + |reqs|
    decreases |reqs|
  {
    if reqs != [] {
      var c := s.counters;
      var next := Handle(s, cfg, reqs[0].req, reqs[0].now).0;
      IncrementsAreIndependent(c);
      HandleKeepsSound(s, cfg, reqs[0].req, reqs[0].now);
      assert Cacheable(reqs[0]);
      assert next.counters.hits as int + next.counters.misses as int == c.hits as int + c.misses as int + 1;
      assert forall i :: 0 <= i < |reqs[1..]| ==> Cacheable(reqs[1..][i]) by {
        forall i | 0 <= i < |reqs[1..]| ensures Cacheable(reqs[1..][i]) {
          assert reqs[1..][i] == reqs[i + 1];
        }
      }
      RunKeepsInvariant(next, cfg, reqs[1..]);
      RunAllCacheable(next, cfg, reqs[1..]);
    }
  }

  /** From a fresh start, N routed GETs give total == N == hits + misses. */
  lemma FreshRunOfGets(cfg: Config, reqs: seq<Timed>)
    requires |reqs| <= MAX
    requires forall i :: 0 <= i < |reqs| ==> Cacheable(reqs[i])
    ensures Run(State(map[], ZERO), cfg, reqs).counters.total as int == |reqs|
    ensures Run(State(map[], ZERO), cfg, reqs).counters.hits as int +
            Run(State(map[], ZERO), cfg, reqs).counters.misses as int == |reqs|
  {
    RunKeepsInvariant(State(map[], ZERO), cfg, reqs);
    RunAllCacheable(State(map[], ZERO), cfg, reqs);
  }

  /**
   * Because no request stores into the cache, a gateway that starts with an
   * empty cache keeps it empty, and no request is ever answered from it.
   */
  lemma {:induction false} EmptyCacheStaysCold(s: State, cfg: Config, reqs: seq<Timed>)
    requires s.store == map[]
    ensures Run(s, cfg, reqs).store == map[]
    ensures Run(s, cfg, reqs).counters.hits == s.counters.hits
    decreases |reqs|
  {
    if reqs != [] {
      var next := Handle(s, cfg, reqs[0].req, reqs[0].now).0;
      assert next.store == map[];
      assert next.counters.hits == s.counters.hits;
      EmptyCacheStaysCold(next, cfg, reqs[1..]);
    }
  }

  /** The gateway process: its cache, its metrics and its backend configuration. */
  class Gateway {
    const cache: Cache
    const metrics: Metrics
    const config: Config

    ghost predicate Valid()
      reads this, cache
    {
      cache.Valid()
    }

    /** The cache's store and the counters, as one value. */
    ghost function Current(): State
      reads this, cache, metrics
    {
      State(cache.store, metrics.Snapshot())
    }

    /** The package-level `cache = NewCache()` and `metrics = &Metrics{}`. */
    constructor (config: Config)
      ensures Valid() && fresh(cache) && fresh(metrics)
      ensures this.config == config && Current() == State(map[], ZERO)
    {
      this.config := config;
      cache := new Cache();
      metrics := new Metrics();
    }

    method ProxyHandler(req: Request, now: int) returns (reply: Reply)
      requires Valid()
      modifies cache, metrics
      ensures Valid()
      ensures (Current(), reply) == Handle(old(Current()), config, req, now)
    {
      metrics.IncrementRequests();
      var path := req.path;
      var verb := req.verb;

      var target := Resolve(path);
      if target.None? {
        return NOT_FOUND_REPLY;
      }
      var targetURL := BaseURL(config, target.value);

      var cacheKey := CacheKey(verb, path);
      var xCache := None;
      if verb == "GET" {
        var cachedData, found := cache.Get(cacheKey, now);
        if found {
          metrics.IncrementCacheHits();
          return Reply(Some("HIT"), Status(200, cachedData));
        }
        metrics.IncrementCacheMisses();
        xCache := Some("MISS");
      }

      return Reply(xCache, Forwarded(targetURL + path));
    }
  }
}
