/** The `Cache` interface: the store the middleware talks to is one of the
    three implementations. Each call gets the conditions it runs under: the
    clock (read by the in-memory store) and whether the transport call fails
    (read by the Redis store). */
module Caches {
  import opened Common
  import Store
  import Redis
  import CustomExample

  datatype Env = Env(now: int, fails: bool)

  datatype Cache =
    | Memory(mem: Store.MemoryCache)
    | RedisBacked(redis: Redis.RedisStore)
    | Custom(custom: CustomExample.CustomCache)
  {
    /** The objects a call on this store may change. */
    function Repr(): set<object> {
      match this
      case Memory(m) => {m}
      case RedisBacked(r) => {r.client}
      case Custom(c) => {c}
    }

    ghost predicate Valid()
      reads Repr()
    {
      Memory? ==> mem.Valid()
    }

    /** The store's contents, as a value. */
    function View(): View
      reads Repr()
    {
      match this
      case Memory(m) => MemView(m.State())
      case RedisBacked(r) => RedisView(r.prefix, r.client.entries)
      case Custom(c) => CustomView(c.State())
    }
  }

  datatype View =
    | MemView(mem: Store.MemState)
    | RedisView(prefix: string, backend: Redis.Backend)
    | CustomView(custom: CustomExample.CustomState)

  /** What `Get` returns. */
  function Lookup(v: View, key: string, env: Env): Option<Bytes> {
    match v
    case MemView(s) => Store.Lookup(s, key, env.now)
    case RedisView(p, b) => Redis.Lookup(b, p, key, env.fails)
    case CustomView(s) => CustomExample.Lookup(s, key)
  }

  function AfterGet(v: View, key: string, env: Env): View {
    match v
    case MemView(s) => MemView(Store.AfterGet(s, key, env.now))
    case RedisView(p, b) => v
    case CustomView(s) => v
  }

  function AfterSet(v: View, key: string, value: Bytes, ttl: int, env: Env): View {
    match v
    case MemView(s) => MemView(Store.AfterSet(s, key, value, ttl, env.now))
    case RedisView(p, b) => RedisView(p, Redis.AfterSet(b, p, key, value, ttl, env.fails))
    case CustomView(s) => CustomView(CustomExample.AfterSet(s, key, value))
  }

  /** When a Set is still visible to a later Get: inside the TTL for the
      in-memory store, when neither transport call fails for Redis, and
      always (until its timer fires) for the custom store. */
  predicate Retained(v: View, ttl: int, setEnv: Env, getEnv: Env) {
    match v
    case MemView(_) => ttl > 0 && getEnv.now <= setEnv.now + ttl
    case RedisView(_, _) => !setEnv.fails && !getEnv.fails
    case CustomView(_) => true
  }

  /** A hit changes nothing in any store. */
  lemma HitLeavesStore(v: View, key: string, env: Env)
    requires Lookup(v, key, env).Some?
    ensures AfterGet(v, key, env) == v
  {
    if v.MemView? {
      Store.LookupHitIff(v.mem, key, env.now);
    }
  }

  /** A value that was Set is read back by a later Get while it is retained. */
  lemma SetThenLookup(v: View, key: string, value: Bytes, ttl: int, setEnv: Env, getEnv: Env)
    requires Retained(v, ttl, setEnv, getEnv)
    ensures Lookup(AfterSet(v, key, value, ttl, setEnv), key, getEnv) == Some(value)
  {
    match v
    case MemView(s) =>
      Store.SetWithTTL(s, key, value, ttl, setEnv.now, getEnv.now);
    case RedisView(p, b) =>
      Redis.SetThenGet(b, p, key, value, ttl);
    case CustomView(s) =>
  }

  /** Get on whichever store is active. */
  method Get(c: Cache, key: string, env: Env) returns (value: Bytes, ok: bool)
    requires c.Valid()
    modifies c.Repr()
    ensures c.Valid()
    ensures ok == Lookup(old(c.View()), key, env).Some?
    ensures value == if ok then Lookup(old(c.View()), key, env).value else []
    ensures c.View() == AfterGet(old(c.View()), key, env)
  {
    match c
    case Memory(m) =>
      value, ok := m.Get(key, env.now);
    case RedisBacked(r) =>
      value, ok := r.Get(key, env.fails);
    case Custom(cc) =>
      value, ok := cc.Get(key);
  }

  /** Set on whichever store is active. */
  method Set(c: Cache, key: string, value: Bytes, ttl: int, env: Env)
    requires c.Valid()
    modifies c.Repr()
    ensures c.Valid()
    ensures c.View() == AfterSet(old(c.View()), key, value, ttl, env)
  {
    match c
    case Memory(m) =>
      m.Set(key, value, ttl, env.now);
    case RedisBacked(r) =>
      r.Set(key, value, ttl, env.fails);
    case Custom(cc) =>
      cc.Set(key, value, ttl);
  }
}
