# Mopcare API gateway — a Dafny model

This project models the API gateway of the Mopcare course platform
(`gateway-fiber/main.go`) and three small helpers of the course handlers
(`utils.go`), and proves what they promise.

Every request except a GET (or HEAD) of exactly `/health` or `/metrics` reaches the gateway's handler, which:

1. counts the request;
2. picks the course, user or enrollment backend from the path, or answers
   404 `{"error":"Service not found"}`;
3. for GET only, looks up the key `GET:<path>` in a response cache with a
   fixed 5-minute TTL, answering a live entry itself (`X-Cache: HIT`) and
   marking everything else `X-Cache: MISS`;
4. forwards the request to the backend URL followed by the path.

Layout, one module per file:

- `wrappers.dfy` (`Wrappers`): `Option`.
- `int64.dfy` (`Int64`): Go's `int64` and its wrapping `++`.
- `strings.dfy` (`GoStrings`): `strings.HasPrefix` and `strings.Contains`,
  with `Contains` proved equal to an index-based reference definition.
- `routing.dfy` (`Routing`): backend configuration, the resolver chain and
  the cache key.
- `cache.dfy` (`ResponseCache`): `CacheEntry`, and `Cache` as a class over a
  `map<string, Entry>` whose `Get` and `Set` are specified by the pure
  functions `Lookup`, `Evict` and `Put`.
- `metrics.dfy` (`GatewayMetrics`): the `Metrics` class with its three
  increments, specified by `CountRequest`, `CountHit` and `CountMiss` on a
  `Counters` snapshot.
- `gateway.dfy` (`Gateway`): `proxyHandler`, both as the pure step function
  `Handle` and as the method `Gateway.ProxyHandler`. The method is proved to
  do exactly what `Handle` says. Lemmas over `Run` cover whole sequences of
  requests.
- `utils.dfy` (`Utils`): `dbValInRange`, `nullIfEmpty` and the result of
  `getNextEpisodeNumber`.

Modelling choices:

- Time is an integer number of nanoseconds, the unit of Go's `time.Duration`.
  Every operation that reads the clock takes the current instant `now` as a
  parameter.
- The counters are `int64` and `++` wraps around at the maximum, as in Go.
  So the counter invariants are proved for runs of at most 2^63 − 1 requests
  from zero, and `IncrementWrapsAtMax` shows what the
  wrap on request 2^63 does.
- The three backend URLs are a `Config` value. `ConfigFromEnv` models the
  "empty variable means default" rule.
- `proxy.Do` becomes the outcome `Forwarded(url)`.

Three behaviours of the code that the model keeps on purpose:

- The backend URLs are read from the environment on every request, not once
  at startup. Reading the same environment gives the same `Config`, so the
  model passes one fixed `Config`.
- Nothing on the request path stores into the cache. `EmptyCacheStaysCold`
  proves the consequence: a gateway that starts with an empty cache never
  serves a hit.
- The counters are Go `int64` values and can wrap. They are not unbounded
  64-bit counters that only ever grow.

## Model

| member | source | states |
|---|---|---|
| `Int64.IncIsModular` | gateway-fiber/main.go:53-69 | a counter's `++` is addition of one modulo 2^64: plain `+1` below the int64 maximum, wrapping to the minimum at it |
| `GoStrings.HasPrefixIffSlice` | gateway-fiber/main.go:135-137 | `HasPrefix(s, p)` holds exactly when `p` is no longer than `s` and equals its first `|p|` characters |
| `GoStrings.ContainsIffOccurs` | gateway-fiber/main.go:137-139 | `Contains(s, sub)` holds exactly when `sub` occurs at some index of `s`, in both directions |
| `GoStrings.OccursAtContains` | gateway-fiber/main.go:137-139 | an occurrence of `sub` at any index of `s` makes `Contains(s, sub)` true |
| `GoStrings.ContainsOccurs` | gateway-fiber/main.go:137-139 | when `Contains(s, sub)` holds, it returns an index where `sub` occurs in `s` |
| `GoStrings.ShorterNotContains` | gateway-fiber/main.go:137-139 | a string shorter than `sub` does not contain it |
| `Routing.OrDefault` | gateway-fiber/main.go:122-133 | the URL is either the environment value or the default, and it is never empty when the default is not |
| `Routing.ConfigFromEnv` | gateway-fiber/main.go:122-133 | all three backend URLs are non-empty, and each is its own variable's value or its own default |
| `Routing.EmptyEnvironmentGivesDefaults` | gateway-fiber/main.go:122-133 | with no overrides the URLs are the course-service:8081, user-service:8082 and enrollment-service:8083 defaults, and no backend URL is ever empty |
| `Routing.OverridesTakePrecedence` | gateway-fiber/main.go:122-133 | a non-empty variable is used verbatim for its own backend, and each backend's URL depends on its own variable only |
| `Routing.CacheKey` | gateway-fiber/main.go:145 | the key is the method, then one `:`, then the path, at those positions |
| `Routing.CacheKeyInjective` | gateway-fiber/main.go:145 | for methods without `:`, two requests share a key only if method and path are equal |
| `Routing.GetCacheKey` | gateway-fiber/main.go:145-147 | a GET's key is `GET:` followed by the path, with no query string |
| `Routing.UsersPathIsNotCoursePath` | gateway-fiber/main.go:135-137 | a `/users` path never passes the course test |
| `Routing.ResolveCourse` | gateway-fiber/main.go:135-136 | the course backend is chosen exactly for paths starting with `/courses` or `/series` |
| `Routing.ResolveUser` | gateway-fiber/main.go:135-138 | the user backend is chosen exactly for `/users` paths that do not contain `/enrollments` |
| `Routing.ResolveEnrollment` | gateway-fiber/main.go:135-140 | the enrollment backend is chosen exactly for non-course paths containing `/enrollments`, `/users/.../enrollments` included |
| `Routing.ResolveNotFound` | gateway-fiber/main.go:135-143 | the 404 outcome happens exactly when no path test holds |
| `Routing.UsersPathIsRouted` | gateway-fiber/main.go:137-140 | every `/users` path reaches the user or the enrollment backend |
| `Routing.ResolveCourseExamples` | gateway-fiber/main.go:135-136 | `/courses/7` and `/series/3` go to the course backend |
| `Routing.ResolveUserExample` | gateway-fiber/main.go:137-138 | `/users/42` goes to the user backend |
| `Routing.ResolveUserEnrollmentsExample` | gateway-fiber/main.go:137-140 | `/users/42/enrollments` goes to the enrollment backend, not the user backend |
| `Routing.ResolveEnrollmentsExample` | gateway-fiber/main.go:139-140 | `/enrollments` goes to the enrollment backend |
| `Routing.ResolveUnknownExample` | gateway-fiber/main.go:141-143 | `/unknown` is a 404 |
| `ResponseCache.Cache.constructor` | gateway-fiber/main.go:24-26 | a new cache is empty and has the 5-minute TTL |
| `ResponseCache.Cache.Get` | gateway-fiber/main.go:28-37 | returns the entry's body and true for a live entry, else "" and false; deletes the looked-up entry when it has expired and changes nothing else |
| `ResponseCache.Cache.Set` | gateway-fiber/main.go:39-44 | stores `{data, now + ttl}` under the key, replacing any earlier entry and leaving every other key alone |
| `ResponseCache.LookupHitIff` | gateway-fiber/main.go:28-37 | a hit happens exactly when the key is present and `now` is strictly before its expiry; the hit returns the stored body, a miss returns "" |
| `ResponseCache.EvictRemovesOnlyExpiredKey` | gateway-fiber/main.go:29-35 | a lookup removes the looked-up key only when it has expired, leaves every other entry unchanged, and never grows the store |
| `ResponseCache.GetTwice` | gateway-fiber/main.go:29-35 | a repeated lookup at the same instant gives the same answer and removes nothing more; after a miss the key is absent |
| `ResponseCache.EvictUnobservable` | gateway-fiber/main.go:29-35 | removing an expired entry changes the answer of no later lookup of any key |
| `ResponseCache.SetThenGet` | gateway-fiber/main.go:24-26 | after a Set at `now` the body is returned at every instant in `[now, now + 5 min)` and not from `now + 5 min` on |
| `ResponseCache.SetOverwrites` | gateway-fiber/main.go:39-44 | Set "A" then Set "B" on one key equals Set "B" alone, so Get returns "B" within the TTL |
| `ResponseCache.SetLeavesOthers` | gateway-fiber/main.go:39-44 | Set adds only its own key, and lookups of every other key are unaffected |
| `ResponseCache.TtlExample` | gateway-fiber/main.go:25 | a body stored at T is returned at T+4m59s and not at T+5m or T+5m1s |
| `ResponseCache.OverwriteScenario` | gateway-fiber/main.go:39-44 | on the class, Set "A", Set "B" and then Get within the TTL returns ("B", true) |
| `GatewayMetrics.IncrementsAreIndependent` | gateway-fiber/main.go:53-69 | each increment leaves the other two counters alone, and raises its own counter by exactly one whenever that counter is below the maximum |
| `GatewayMetrics.IncrementWrapsAtMax` | gateway-fiber/main.go:53-57 | the increment at the int64 maximum wraps to the minimum, the one case where a counter goes down |
| `GatewayMetrics.Metrics.constructor` | gateway-fiber/main.go:73 | all three counters start at zero |
| `GatewayMetrics.Metrics.IncrementRequests` | gateway-fiber/main.go:53-57 | `TotalRequests` is incremented and the other counters are unchanged |
| `GatewayMetrics.Metrics.IncrementCacheHits` | gateway-fiber/main.go:59-63 | `CacheHits` is incremented and the other counters are unchanged |
| `GatewayMetrics.Metrics.IncrementCacheMisses` | gateway-fiber/main.go:65-69 | `CacheMisses` is incremented and the other counters are unchanged |
| `Gateway.Handle` | gateway-fiber/main.go:115-157 | a forward goes to the resolved backend's URL followed by the path, and `X-Cache` is set exactly for GET requests that found a route |
| `Gateway.HandleEffect` | gateway-fiber/main.go:116 | every request increments the total exactly once, and the store only loses entries: no key is added and no entry is changed |
| `Gateway.HandleNotFound` | gateway-fiber/main.go:141-142 | an unroutable path gets the 404 body and changes only the total |
| `Gateway.HandleGetHit` | gateway-fiber/main.go:145-150 | a GET with a live entry increments hits, sets `X-Cache: HIT`, answers 200 with the cached body, does not forward and leaves the cache as it was |
| `Gateway.HandleGetMiss` | gateway-fiber/main.go:145-156 | a GET with no live entry increments misses, sets `X-Cache: MISS`, drops the expired entry if there was one and forwards to the backend URL followed by the path |
| `Gateway.HandleNonGet` | gateway-fiber/main.go:146-156 | any other method neither reads nor changes the cache, sets no `X-Cache`, leaves hits and misses alone and forwards |
| `Gateway.HandleKeepsSound` | gateway-fiber/main.go:115-157 | one request keeps `hits + misses <= total` and non-negative counters, raises the total by one and lowers no counter, while the total has room |
| `Gateway.RunKeepsInvariant` | gateway-fiber/main.go:115-157 | over any run of requests that fits in int64, the total equals its start plus the number of requests, `hits + misses <= total` holds, no counter goes down and the cache only loses entries |
| `Gateway.RunOnlyShrinks` | gateway-fiber/main.go:145-156 | for every run of requests, with no bound on its length, the cache gains no key and no entry changes |
| `Gateway.RunAllCacheable` | gateway-fiber/main.go:145-154 | when every request is a routed GET, hits plus misses grows by exactly the number of requests |
| `Gateway.FreshRunOfGets` | gateway-fiber/main.go:71-74 | from a fresh start, N routed GETs leave total = N = hits + misses |
| `Gateway.EmptyCacheStaysCold` | gateway-fiber/main.go:145-156 | with no `Set` on the request path, an initially empty cache stays empty and the hit counter never moves |
| `Gateway.Gateway.constructor` | gateway-fiber/main.go:71-74 | the gateway starts with a fresh empty cache and zeroed metrics |
| `Gateway.Gateway.ProxyHandler` | gateway-fiber/main.go:115-157 | the call changes the cache and the counters, and returns the reply, exactly as `Handle` describes |
| `Utils.RangeBoundsInclusive` | utils.go:54-56 | membership in [lo, hi] includes both bounds, and an inverted range holds nothing |
| `Utils.CourseIdGuard` | main.go:207-210 | the course-ID guard accepts exactly the IDs 1 through 1,000,000 |
| `Utils.NullIfEmptyCases` | utils.go:130-135 | nil exactly for "", every other string unchanged, and never an empty non-nil value |
| `Utils.NullIfEmptyRoundTrip` | utils.go:130-135 | reading NULL back as "" undoes nullIfEmpty for every string, and the reverse holds for every value nullIfEmpty can return |
| `Utils.NextEpisodeAfterCount` | utils.go:62-69 | a count of n ≥ 0 gives episode n + 1, with no error, so the number is at least 1 |
| `Utils.NextEpisodeOnError` | utils.go:65-67 | a failed count query gives episode 0 and passes its error on |

## Left out

- The CRUD handlers of `main.go` and of the three services: request parsing, SQL and JSON plumbing. The only model of them is the course-ID guard, through `dbValInRange`.
- `uploadToSupabase`, `generateUniqueId`, `dbValExists`, `dbVal` and `connectDB`: object-storage and HTTP I/O, a foreign UUID call, and database or context lookups.
- The network forward (`proxy.Do`): the model records only the target URL. Upstream statuses, headers and bodies are not modelled. So is any header the proxied response might replace after `X-Cache: MISS` is set.
- The `/health` and `/metrics` handlers and the order of route registration: these are framework behaviour. A GET or HEAD of exactly `/health` or `/metrics` is answered by its own handler and not counted. Every other method on those paths, and `/metrics/` with its trailing slash (routing is strict), reaches `proxyHandler`, is counted and gets the 404, as `Handle` describes. `Metrics.Snapshot` models only the values that `/metrics` reads.
- `sync.Map` and `sync.RWMutex`: each cache and counter operation is one atomic step, and concurrent interleavings are not modelled.
- The wall clock: `time.Now()` becomes the parameter `now`. `time.Time.Add` is exact integer addition, so its behaviour at the extremes of the time range is not modelled.
- The environment lookups (`os.Getenv`): `ConfigFromEnv` takes their values as parameters.
- The query string: `c.Path()` excludes it, so it is part of neither the routing input nor the cache key.
- The floating-point payment fields of the user service.
- `Utils.NextEpisodeAfterCount`: states the result only for counts below the int64 maximum. A SQL `COUNT(*)` result never reaches that maximum. At the maximum, `NextEpisodeNumber` wraps the way Go's `int` does.
- `Gateway.RunKeepsInvariant`: its counter clauses are proved only for runs where the total stays within int64, that is, at most 2^63 − 1 requests from zero. Request 2^63 wraps the Go counter, and `IncrementWrapsAtMax` shows that monotonicity then fails. Its cache clause holds for every run, as `RunOnlyShrinks` states.
- Strings are sequences of characters, while Go strings are byte sequences. The resolver's tests are on the ASCII words `/courses`, `/series`, `/users` and `/enrollments`, whose byte and character matches coincide on valid UTF-8 paths; invalid UTF-8 paths are not modelled.
