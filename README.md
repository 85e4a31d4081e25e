# gin-cache: a Dafny model of the cache engine

This project models the core of gin-cache, a response-caching middleware for the
Gin web framework. The middleware answers repeated GET requests from a store.
A request's key is the MD5 digest, in hex, of its path and its sorted query
parameters. The store is any implementation of the `Cache` interface
(`Get`, `Set`, `Del`, `Update`). Three are modelled:

- the in-process `MemoryCache`: a value map plus an expiry map, expired lazily on `Get`;
- the `RedisStore` adapter: namespaced keys, soft failures on `Get`/`Set`/`Del`,
  hard failures on `Update`;
- the `CustomCache` of the example program: a plain map whose `Set` starts a
  timer that later deletes the key.

Layout, one module per source file:

| file | module | models |
|---|---|---|
| common.dfy | `Common` | bytes, `Option`, the errors `Update` returns |
| store.dfy | `Store` | store.go |
| redis_store.dfy | `Redis` | redis_store.go |
| custom_cache.dfy | `CustomExample` | example/main.go, lines 66-104 |
| caches.dfy | `Caches` | the `Cache` interface of store.go, as a choice of implementation |
| sorting.dfy | `Sorting` | Go's string order and `sort.Strings`, used by utils.go |
| utils.dfy | `KeyCodec` | utils.go |
| request_handler.dfy | `Capture` | request_handler.go |
| handler.dfy | `Handler` | handler.go |

Each store has two layers. The first is a value: the store's state, with one
step function per operation (`Store.AfterSet`, `Redis.AfterUpdate`, ...).
Lemmas about these functions state the store's behaviour. The second layer is
a class. Its fields are updated in place, and each of its methods is proved to
follow the matching step function. The middleware works the same way.
`Handler.Policy` is the per-request policy as a function of the store's
contents. `Handler.Handle` runs that policy step by step on the active store,
and its postcondition ties it to `Policy`.

The model takes these as inputs:

- the clock: `now`, in nanoseconds, the unit of Go's `time.Duration`;
- whether each Redis transport call fails;
- the MD5 function: a parameter `md5: string -> Digest`, where a digest is 16 bytes;
- the downstream handler: its final status and its `Write` calls, each with
  the wrapped writer's reply.

These behaviours of the code may be unexpected, and the model keeps them:

- `MemoryCache.Set` with `ttl <= 0` keeps an earlier expiry; it does not mean
  "no expiry" for a key that already had one.
- `MemoryCache.Update` checks only the value map. It succeeds on an entry that
  is stale but not yet removed, and it keeps that entry's expiry.
- `RedisStore.Update` rewrites the entry with expiration 0, so any TTL the
  entry had is dropped.
- An entry is still served at exactly its expiry instant, because Go's `After` is strict.

## Model

| member | source | states |
|---|---|---|
| `Store.MissOnAbsentKey` | store.go:23-26 | a key missing from the value map is a miss, and Get leaves the store unchanged |
| `Store.EmptyHasNothing` | store.go:17-20 | a fresh store misses on every key |
| `Store.LookupHitIff` | store.go:27-33 | Get hits iff the key is stored and `now` is not after its expiry; a hit returns the stored bytes and changes nothing |
| `Store.NoExpiryNeverExpires` | store.go:27-33 | an entry with no expiry is a hit at every instant |
| `Store.HitAtExpiryInstant` | store.go:28 | at exactly its expiry instant an entry is still a hit |
| `Store.ExpiredGetRemoves` | store.go:28-30 | after expiry, Get misses and removes the key from both maps and keeps every other entry |
| `Store.SetWithTTL` | store.go:37-40 | Set with `ttl > 0` stores the value and the expiry `now + ttl`; the entry is a hit iff the later time is at most `now + ttl` |
| `Store.SetWithoutTTLKeepsExpiry` | store.go:37-40 | Set with `ttl <= 0` stores the value and leaves the expiry map unchanged: a new key never expires, and an old expiry still applies |
| `Store.SetWithoutTTLNewKeyNeverExpires` | store.go:36-41 | in a store satisfying the invariant, a never-stored key Set without a TTL is a hit at every later instant |
| `Store.SetFramesOtherKeys` | store.go:36-41 | Set does not change what any other key's Get returns |
| `Store.DelRemoves` | store.go:43-46 | Del removes the key from both maps, is idempotent, and leaves other keys' lookups unchanged |
| `Store.UpdateAbsent` | store.go:49-51 | Update on a key absent from the value map returns "key not exists" and changes nothing |
| `Store.UpdatePresent` | store.go:52-53 | Update on a stored key succeeds, replaces only the value and keeps the expiry, also for a stale entry |
| `Store.SetUpdateGet` | store.go:36-54 | Set, then Update, then Get within the TTL returns the updated bytes |
| `Store.OperationsPreserveInv` | store.go:36-54 | Get, Set, Del and Update all keep the expiry keys a subset of the value keys |
| `Store.MemoryCache.constructor` | handler.go:28-31 | a new MemoryCache is empty and satisfies the invariant |
| `Store.MemoryCache.Get` | store.go:22-34 | returns `Lookup` of the old state (nil on a miss) and leaves `AfterGet`, deleting an expired entry through Del |
| `Store.MemoryCache.Set` | store.go:36-41 | the new maps are `AfterSet` of the old ones |
| `Store.MemoryCache.Del` | store.go:43-46 | the new maps are `AfterDel` of the old ones |
| `Store.MemoryCache.Update` | store.go:48-54 | returns `UpdateError` and leaves `AfterUpdate` |
| `Redis.PrefixKey` | redis_store.go:73-78 | with a non-empty prefix the backend key lies in the `prefix:` namespace and stripping it gives the key back; an empty prefix leaves the key unchanged |
| `Redis.PrefixKeyInjective` | redis_store.go:74-76 | for a fixed prefix, distinct keys give distinct backend keys |
| `Redis.LookupIff` | redis_store.go:25-37 | Get returns the stored bytes iff the call does not fail and the entry exists; a missing key and a transport error both give a miss |
| `Redis.OperationsAddressPrefixedKey` | redis_store.go:40-66 | Set, Del and Update change no backend entry except the one at `PrefixKey(prefix, key)` |
| `Redis.SetThenGet` | redis_store.go:39-46 | a successful Set is read back by a successful Get |
| `Redis.SetOtherKeyKeepsLookup` | redis_store.go:40 | under one prefix, a Set of one key never changes what another key reads |
| `Redis.UpdateErrors` | redis_store.go:58-65 | Update returns an error and writes nothing if the existence check fails or the key is absent; a failing rewrite is returned as an error |
| `Redis.UpdateDropsTTL` | redis_store.go:66-70 | Update on an existing key succeeds and rewrites it with expiration 0 |
| `Redis.Client.constructor` | redis_store.go:11-15 | the backend starts with the given contents |
| `Redis.RedisStore.constructor` | redis_store.go:17-23 | `NewRedisStore` keeps the client and the prefix |
| `Redis.RedisStore.Get` | redis_store.go:25-37 | returns `Lookup` of the backend, with nil on any miss, and changes nothing |
| `Redis.RedisStore.Set` | redis_store.go:39-46 | the backend becomes `AfterSet`; a failure is not reported |
| `Redis.RedisStore.Del` | redis_store.go:48-55 | the backend becomes `AfterDel`; a failure is not reported |
| `Redis.RedisStore.Update` | redis_store.go:57-71 | returns `UpdateError` and leaves `AfterUpdate` |
| `CustomExample.LookupIff` | example/main.go:71-76 | Get is present iff the key is in the map, with its bytes, and checks no expiry |
| `CustomExample.SetOverwrites` | example/main.go:78-87 | Set overwrites the key's value, keeps other keys, and adds one pending timer for the key |
| `CustomExample.DelRemoves` | example/main.go:90-94 | Del removes the key, is idempotent, and leaves other keys unchanged |
| `CustomExample.UpdateSemantics` | example/main.go:96-103 | Update on an absent key fails and changes nothing; on a present key it replaces the value and keeps the key set and the timers |
| `CustomExample.EarlierTimerDeletesLaterValue` | example/main.go:84-87 | the timer of an earlier Set deletes the key even after the key was Set again and updated |
| `CustomExample.CustomCache.constructor` | example/main.go:108-110 | the map starts empty, with no timers |
| `CustomExample.CustomCache.Get` | example/main.go:71-76 | `ok` iff the key is in the map; the value is the stored bytes, or nil |
| `CustomExample.CustomCache.Set` | example/main.go:78-88 | the state becomes `AfterSet`: the value is stored and one timer is pending |
| `CustomExample.CustomCache.Del` | example/main.go:90-94 | the state becomes `AfterDel` |
| `CustomExample.CustomCache.Update` | example/main.go:96-104 | returns `UpdateError` and leaves `AfterUpdate` |
| `CustomExample.CustomCache.Expire` | example/main.go:84-87 | a pending timer fires: the key is deleted whatever it holds |
| `Caches.HitLeavesStore` | store.go:10-15 | on every implementation, a Get that hits leaves the store unchanged |
| `Caches.SetThenLookup` | store.go:10-15 | on every implementation, a Set is read back by a later Get while it is retained |
| `Caches.Get` | store.go:11 | Get on the active implementation returns `Lookup` and leaves `AfterGet` |
| `Caches.Set` | store.go:12 | Set on the active implementation leaves `AfterSet` |
| `Sorting.SortStrings` | utils.go:19 | the result is sorted in Go's string order and is a permutation of the input |
| `Sorting.SortedElements` | utils.go:15-19 | lists a set of names in strictly increasing order, each name exactly once |
| `Sorting.SortIsCanonical` | utils.go:15-19 | sorting any enumeration of a set gives the same sequence, so the map's iteration order does not matter |
| `KeyCodec.CollectNames` | utils.go:15-18 | the collected names are the map's keys, each once, in some order |
| `KeyCodec.EmitParams` | utils.go:21-27 | the nested loops produce `Params` of the sorted names |
| `KeyCodec.GenerateCacheKey` | utils.go:11-30 | whatever order the map yields its keys in, the result is `path + "?" + Join(Params(sorted names), "&")` |
| `KeyCodec.EmptyQuery` | utils.go:29 | an empty query gives exactly `path?` |
| `KeyCodec.NamesInOrder` | utils.go:19-22 | the names are emitted in strictly increasing order, each name of the query exactly once |
| `KeyCodec.ParamsLength` | utils.go:21-27 | there is one token per value occurrence: the token count is the sum of the value-list lengths |
| `KeyCodec.EmptyValuesAddNothing` | utils.go:24-26 | a name with an empty value list contributes no token |
| `KeyCodec.ParamAt` | utils.go:22-26 | token `j` of the `i`-th name follows the tokens of the earlier names and is `name=value_j`, so values keep their order |
| `KeyCodec.HexEncode` | utils.go:33 | `%x` gives two lower-case hex digits per byte |
| `KeyCodec.HashString` | utils.go:32-34 | the result is 32 lower-case hex digits |
| `KeyCodec.HexRoundTrip` | utils.go:33 | decoding the hex rendering gives back the bytes |
| `KeyCodec.HashStringInverts` | utils.go:33 | decoding the `hashString` of `s` gives back the digest of `s` |
| `Capture.WrittenAppend` | request_handler.go:21-23 | writing two batches captures their concatenation in order |
| `Capture.ResponseCaptureWriter.constructor` | request_handler.go:14-19 | a new capture writer has an empty body |
| `Capture.ResponseCaptureWriter.Write` | request_handler.go:21-24 | appends the data to the end of `body` whatever the wrapped writer then does, and returns exactly the wrapped writer's `(n, err)` |
| `Capture.WriteAll` | request_handler.go:21-23 | after any sequence of writes, the body is their in-order concatenation |
| `Handler.NonGetBypasses` | handler.go:41-44 | a request other than GET leaves the store unchanged; the downstream handler runs and its own status and body are the answer |
| `Handler.HitServesStored` | handler.go:49-54 | on a hit, the stored bytes are served with status 200 as JSON; the downstream handler does not run and the store is unchanged |
| `Handler.FailureNotStored` | handler.go:62-64 | on a miss with a status below 200 or from 300 up, nothing is written (only the lookup's own stale-entry removal remains) and the result carries that status |
| `Handler.SuccessStored` | handler.go:66-78 | on a miss with a 2xx status, the captured body is written with the default TTL under the key that was looked up, and served with status 200 |
| `Handler.MemoryEntryExpiresAfterDefaultTTL` | handler.go:15 | with the in-memory store, the produced entry expires 15 s after the write |
| `Handler.RepeatIsHit` | handler.go:46-67 | after a produced response, the same request is a hit with the same body while the entry is retained |
| `Handler.Middleware.constructor` | handler.go:13-16 | at program start there is no store, and the once has not run |
| `Handler.Middleware.SetGlobalCache` | handler.go:21-23 | the active store becomes the argument |
| `Handler.Middleware.InitDefaultCache` | handler.go:25-34 | the first call installs a fresh empty MemoryCache only if no store was set; later calls change nothing |
| `Handler.Middleware.CacheMiddleware` | handler.go:36-37 | afterwards a store is active, and a store that was set is kept |
| `Handler.Middleware.Serve` | handler.go:39-79 | a request on the active store behaves as `Policy` on that store's contents |
| `Handler.Handle` | handler.go:41-78 | the returned outcome and the new store contents are exactly `Policy` of the old contents |

## Left out

- Concurrency is not modelled: `sync.Map`, `sync.RWMutex`, `sync.Once` and the single-flight group. Each request runs alone. The single-flight producer is one direct call, and the once is the `onceDone` flag.
- MD5 itself is a foreign crypto call and is a parameter. The model covers only its 16-byte result and the `%x` rendering.
- URL parsing (`req.URL.Path`, `req.URL.Query()`) is framework I/O. The path and the decoded query map are inputs.
- The gin context and the real HTTP writer are framework I/O. This covers `c.Next`, `c.Data`, `c.Abort`, response headers, and what the client finally receives, including the downstream's own writes that the capture writer passes on. The middleware's own answer is the `Outcome`; on a non-GET request that is the downstream handler's status and captured bytes.
- Redis network calls are an abstract backend map with one failure flag per call. A failing call is assumed to write nothing. The caller cannot tell `redis.Nil` from other errors, and neither can the model. The Redis server's own TTL expiry is not modelled: an entry records the expiration it was written with, where 0 means no TTL, and does not disappear by itself.
- `fmt.Printf` logging in the Redis adapter is a side effect only.
- Time is an explicit integer `now`. Go's `time.Time` range limits on `now + ttl` are not modelled.
- The `CustomCache` timer goroutine is the explicit `Expire` event. The model does not tie a timer's firing to its duration, so a pending timer may fire at any later step.
- `SetGlobalCache(nil)` (a nil interface value) is not modelled: the argument is always one of the three implementations. For the same reason, the model has no nil-store panic.
- Del and Update through the `Cache` interface are never called by the middleware, so `Caches` dispatches only Get and Set. The two operations are modelled on each implementation.
- `Sorting.SortStrings`: Go's pattern-defeating quicksort inside `sort.Strings` is a library algorithm. It is modelled as an insertion sort with the same contract, a sorted permutation.
- Strings are sequences of Unicode code points. Go compares strings byte by byte, which is the same order on well-formed UTF-8. Strings holding invalid UTF-8 are not modelled.
- `runDefaultCacheExample`, `runRedisCacheExample`, `runCustomCacheExample` and `main` start servers and are out of scope.
- Key uniqueness is not claimed. Names and values may contain `=` or `&`, so distinct queries can yield the same canonical string.
