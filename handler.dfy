/** The caching middleware: the active store, its one-time default, and the
    per-request policy. Concurrent requests are not modelled; the
    single-flight group is one direct call of the producer. */
module Handler {
  import opened Common
  import opened KeyCodec
  import Store
  import Caches
  import Capture

  /** `defaultTTL`: 15 seconds, as a `time.Duration` in nanoseconds. */
  const DefaultTTL: int := 15 * 1_000_000_000

  const MethodGet: string := "GET"
  const StatusOK: int := 200
  const ContentType: string := "application/json"

  datatype Request = Request(verb: string, path: string, query: Query)

  /** The downstream handler, as what it does: its Write calls and the status
      it leaves on the writer. */
  datatype Downstream = Downstream(status: int, writes: seq<Capture.WriteCall>)

  datatype Response = Response(status: int, contentType: string, body: Bytes)

  /** What the middleware did with one request:
      - Bypassed: not a GET; the downstream handler's own status and body answer,
      - Hit: served from the store,
      - Produced: a miss, answered and stored from the downstream's output,
      - Rejected: a miss whose downstream status was not 2xx; nothing more is sent. */
  datatype Outcome =
    | Bypassed(status: int, body: Bytes)
    | Hit(resp: Response)
    | Produced(resp: Response)
    | Rejected(status: int)

  predicate RanDownstream(out: Outcome) {
    !out.Hit?
  }

  predicate IsSuccess(status: int) {
    200 <= status < 300
  }

  /** The store key of a request: the digest of its canonical string. */
  ghost function RequestKey(md5: string -> Digest, req: Request): string {
    HashString(md5, CanonicalKey(req.path, req.query))
  }

  /** The middleware's behaviour on one request, starting from store contents `v`;
      the lookup and the write run under `lookupEnv` and `storeEnv`. */
  ghost function Policy(v: Caches.View, md5: string -> Digest, req: Request, down: Downstream,
                        lookupEnv: Caches.Env, storeEnv: Caches.Env): (Outcome, Caches.View)
  {
    if req.verb != MethodGet then (Bypassed(down.status, Capture.Written(down.writes)), v)
    else
      var key := RequestKey(md5, req);
      var found := Caches.Lookup(v, key, lookupEnv);
      var looked := Caches.AfterGet(v, key, lookupEnv);
      if found.Some? then (Hit(Response(StatusOK, ContentType, found.value)), looked)
      else if !IsSuccess(down.status) then (Rejected(down.status), looked)
      else
        var body := Capture.Written(down.writes);
        (Produced(Response(StatusOK, ContentType, body)),
         Caches.AfterSet(looked, key, body, DefaultTTL, storeEnv))
  }

  /** A request other than GET touches no store; the downstream handler runs
      and its own status and body are the answer. */
  lemma NonGetBypasses(v: Caches.View, md5: string -> Digest, req: Request, down: Downstream,
                       e1: Caches.Env, e2: Caches.Env)
    requires req.verb != MethodGet
    ensures Policy(v, md5, req, down, e1, e2) == (Bypassed(down.status, Capture.Written(down.writes)), v)
    ensures RanDownstream(Policy(v, md5, req, down, e1, e2).0)
  {
  }

  /** On a hit the stored bytes are served with status 200, the downstream
      handler does not run and the store is left as it was. */
  lemma HitServesStored(v: Caches.View, md5: string -> Digest, req: Request, down: Downstream,
                        e1: Caches.Env, e2: Caches.Env)
    requires req.verb == MethodGet
    requires Caches.Lookup(v, RequestKey(md5, req), e1).Some?
    ensures var (out, v') := Policy(v, md5, req, down, e1, e2);
      out == Hit(Response(StatusOK, ContentType, Caches.Lookup(v, RequestKey(md5, req), e1).value)) &&
      !RanDownstream(out) && v' == v
  {
    Caches.HitLeavesStore(v, RequestKey(md5, req), e1);
  }

  /** On a miss with a status outside 2xx nothing is written: the store holds
      only what the lookup left (a stale entry may have been removed). */
  lemma FailureNotStored(v: Caches.View, md5: string -> Digest, req: Request, down: Downstream,
                         e1: Caches.Env, e2: Caches.Env)
    requires req.verb == MethodGet
    requires Caches.Lookup(v, RequestKey(md5, req), e1).None?
    requires down.status < 200 || down.status >= 300
    ensures var (out, v') := Policy(v, md5, req, down, e1, e2);
      out == Rejected(down.status) && RanDownstream(out) &&
      v' == Caches.AfterGet(v, RequestKey(md5, req), e1)
  {
  }

  /** On a miss with a 2xx status the captured body is written under the same
      key that was looked up, with the default TTL, and served with status 200. */
  lemma SuccessStored(v: Caches.View, md5: string -> Digest, req: Request, down: Downstream,
                      e1: Caches.Env, e2: Caches.Env)
    requires req.verb == MethodGet
    requires Caches.Lookup(v, RequestKey(md5, req), e1).None?
    requires 200 <= down.status < 300
    ensures var (out, v') := Policy(v, md5, req, down, e1, e2);
      var key := RequestKey(md5, req);
      out == Produced(Response(StatusOK, ContentType, Capture.Written(down.writes))) &&
      RanDownstream(out) &&
      v' == Caches.AfterSet(Caches.AfterGet(v, key, e1), key, Capture.Written(down.writes), DefaultTTL, e2)
  {
  }

  /** With the in-memory store, a produced response is stored with expiry
      15 seconds after the write. */
  lemma MemoryEntryExpiresAfterDefaultTTL(s: Store.MemState, md5: string -> Digest, req: Request, down: Downstream,
                                          e1: Caches.Env, e2: Caches.Env)
    requires req.verb == MethodGet
    requires Store.Lookup(s, RequestKey(md5, req), e1.now).None?
    requires 200 <= down.status < 300
    ensures var v' := Policy(Caches.MemView(s), md5, req, down, e1, e2).1;
      var key := RequestKey(md5, req);
      v'.MemView? && key in v'.mem.data && key in v'.mem.ttl &&
      v'.mem.data[key] == Capture.Written(down.writes) &&
      v'.mem.ttl[key] == e2.now + DefaultTTL
  {
  }

  /** The cache serves repeats: after a produced response, the same request
      while the entry is retained is a hit with the same body, whatever the
      downstream handler would do this time. */
  lemma RepeatIsHit(v: Caches.View, md5: string -> Digest, req: Request, down: Downstream, down2: Downstream,
                    e1: Caches.Env, e2: Caches.Env, e3: Caches.Env, e4: Caches.Env)
    requires Policy(v, md5, req, down, e1, e2).0.Produced?
    requires Caches.Retained(Caches.AfterGet(v, RequestKey(md5, req), e1), DefaultTTL, e2, e3)
    ensures var (first, v') := Policy(v, md5, req, down, e1, e2);
      Policy(v', md5, req, down2, e3, e4).0 == Hit(first.resp)
  {
    var key := RequestKey(md5, req);
    var looked := Caches.AfterGet(v, key, e1);
    var body := Capture.Written(down.writes);
    Caches.SetThenLookup(looked, key, body, DefaultTTL, e2, e3);
  }

  /** The global state of the package: the active store and whether
      `defaultCacheOnce` has run. */
  class Middleware {
    var defaultCache: Option<Caches.Cache>
    var onceDone: bool

    function StoreRepr(): set<object>
      reads this
    {
      if defaultCache.Some? then defaultCache.value.Repr() else {}
    }

    ghost predicate Valid()
      reads this, StoreRepr()
    {
      (onceDone ==> defaultCache.Some?) &&
      (defaultCache.Some? ==> defaultCache.value.Valid())
    }

    /** Program start: no store, the once not yet run. */
    constructor ()
      ensures Valid() && defaultCache == None && !onceDone
    {
      defaultCache := None;
      onceDone := false;
    }

    /** `SetGlobalCache`: replaces the active store. */
    method SetGlobalCache(c: Caches.Cache)
      requires Valid() && c.Valid()
      modifies this
      ensures Valid()
      ensures defaultCache == Some(c) && onceDone == old(onceDone)
    {
      defaultCache := Some(c);
    }

    /** `initDefaultCache`: the first call installs a fresh in-memory store if
        none was set; every later call does nothing. */
    method InitDefaultCache()
      requires Valid()
      modifies this
      ensures Valid() && onceDone
      ensures old(onceDone) || old(defaultCache).Some? ==> defaultCache == old(defaultCache)
      ensures !old(onceDone) && old(defaultCache).None? ==>
                defaultCache.Some? && defaultCache.value.Memory? &&
                fresh(defaultCache.value.mem) && defaultCache.value.mem.State() == Store.Empty()
    {
      if !onceDone {
        onceDone := true;
        if defaultCache.None? {
          var m := new Store.MemoryCache();
          defaultCache := Some(Caches.Memory(m));
        }
      }
    }

    /** `CacheMiddleware`: makes sure a store is active; `Serve` is the handler
        it returns. */
    method CacheMiddleware()
      requires Valid()
      modifies this
      ensures Valid() && onceDone && defaultCache.Some?
      ensures old(defaultCache).Some? ==> defaultCache == old(defaultCache)
    {
      InitDefaultCache();
    }

    /** The handler returned by `CacheMiddleware`, on one request: it uses
        whichever store is active when the request arrives. */
    method Serve(md5: string -> Digest, req: Request, down: Downstream,
                 lookupEnv: Caches.Env, storeEnv: Caches.Env) returns (out: Outcome)
      requires Valid() && onceDone
      modifies StoreRepr()
      ensures Valid() && defaultCache == old(defaultCache)
      ensures (out, defaultCache.value.View()) ==
              Policy(old(defaultCache.value.View()), md5, req, down, lookupEnv, storeEnv)
    {
      out := Handle(defaultCache.value, md5, req, down, lookupEnv, storeEnv);
    }
  }

  /** The body of the middleware's handler, on the given store. */
  method Handle(store: Caches.Cache, md5: string -> Digest, req: Request, down: Downstream,
                lookupEnv: Caches.Env, storeEnv: Caches.Env) returns (out: Outcome)
    requires store.Valid()
    modifies store.Repr()
    ensures store.Valid()
    ensures (out, store.View()) == Policy(old(store.View()), md5, req, down, lookupEnv, storeEnv)
  {
    if req.verb != MethodGet {
      // c.Next(): the downstream handler answers through the framework's writer
      return Bypassed(down.status, Capture.Written(down.writes));
    }
    var key := GenerateCacheKey(req.path, req.query);
    var hashedKey := HashString(md5, key);
    assert hashedKey == RequestKey(md5, req);
    var data, ok := Caches.Get(store, hashedKey, lookupEnv);
    if ok {
      return Hit(Response(StatusOK, ContentType, data));
    }
    ghost var looked := store.View();
    // the producer run by the single-flight group
    var writer := new Capture.ResponseCaptureWriter();
    Capture.WriteAll(writer, down.writes);
    assert writer.body == Capture.Written(down.writes);
    assert store.View() == looked;
    if down.status < 200 || down.status >= 300 {
      return Rejected(down.status);
    }
    var cacheData := writer.body;
    Caches.Set(store, hashedKey, cacheData, DefaultTTL, storeEnv);
    return Produced(Response(StatusOK, ContentType, cacheData));
  }
}
