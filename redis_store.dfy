/** The Redis adapter. The Redis server is an abstract backend: a map from
    (prefixed) key to the stored bytes and the expiration the last write
    passed. Every transport call takes a flag saying whether it fails. */
module Redis {
  import opened Common

  /** One backend entry; `expiration == 0` means "no TTL". */
  datatype Entry = Entry(value: Bytes, expiration: int)

  type Backend = map<string, Entry>

  /** The namespaced key. With a non-empty prefix the key lies in the
      `prefix:` namespace and stripping that namespace gives the key back;
      with an empty prefix the key is used as it is. */
  function PrefixKey(prefix: string, key: string): (r: string)
    ensures prefix != "" ==> |r| > |prefix| && r[..|prefix| + 1] == prefix + ":" && r[|prefix| + 1..] == key
    ensures prefix == "" ==> r == key
  {
    if prefix != "" then prefix + ":" + key else key
  }

  /** With a fixed prefix, distinct keys address distinct backend entries. */
  lemma PrefixKeyInjective(prefix: string, k1: string, k2: string)
    requires PrefixKey(prefix, k1) == PrefixKey(prefix, k2)
    ensures k1 == k2
  {
    if prefix != "" {
      var n := |prefix| + 1;
      assert k1 == PrefixKey(prefix, k1)[n..];
      assert k2 == PrefixKey(prefix, k2)[n..];
    }
  }

  /** What Get returns: the stored bytes, or a miss on a missing key and on
      any transport error alike. */
  function Lookup(b: Backend, prefix: string, key: string, fails: bool): Option<Bytes> {
    var pk := PrefixKey(prefix, key);
    if fails || pk !in b then None else Some(b[pk].value)
  }

  /** The backend after Set (a failed write writes nothing). */
  function AfterSet(b: Backend, prefix: string, key: string, value: Bytes, ttl: int, fails: bool): Backend {
    if fails then b else b[PrefixKey(prefix, key) := Entry(value, ttl)]
  }

  function AfterDel(b: Backend, prefix: string, key: string, fails: bool): Backend {
    if fails then b else b - {PrefixKey(prefix, key)}
  }

  /** What Update returns, given whether the existence check and the rewrite fail. */
  function UpdateError(b: Backend, prefix: string, key: string, existsFails: bool, setFails: bool): Option<CacheError> {
    if existsFails then Some(ExistsFailed)
    else if PrefixKey(prefix, key) !in b then Some(KeyNotExists)
    else if setFails then Some(SetFailed)
    else None
  }

  /** The backend after Update: a rewrite with expiration 0. */
  function AfterUpdate(b: Backend, prefix: string, key: string, value: Bytes, existsFails: bool, setFails: bool): Backend {
    if existsFails || PrefixKey(prefix, key) !in b then b
    else AfterSet(b, prefix, key, value, 0, setFails)
  }

  /** Get succeeds exactly when the call does not fail and the entry exists. */
  lemma LookupIff(b: Backend, prefix: string, key: string, fails: bool)
    ensures Lookup(b, prefix, key, fails).Some? <==> !fails && PrefixKey(prefix, key) in b
    ensures Lookup(b, prefix, key, fails).Some? ==>
              Lookup(b, prefix, key, fails).value == b[PrefixKey(prefix, key)].value
  {
  }

  /** Every operation touches the backend only at `PrefixKey(prefix, key)`. */
  lemma OperationsAddressPrefixedKey(b: Backend, prefix: string, key: string, value: Bytes, ttl: int,
                                     f1: bool, f2: bool, other: string)
    requires other != PrefixKey(prefix, key)
    ensures var s := AfterSet(b, prefix, key, value, ttl, f1);
      (other in s <==> other in b) && (other in b ==> s[other] == b[other])
    ensures var d := AfterDel(b, prefix, key, f1);
      (other in d <==> other in b) && (other in b ==> d[other] == b[other])
    ensures var u := AfterUpdate(b, prefix, key, value, f1, f2);
      (other in u <==> other in b) && (other in b ==> u[other] == b[other])
  {
  }

  /** A successful Set then Get of the same key reads back the stored bytes. */
  lemma SetThenGet(b: Backend, prefix: string, key: string, value: Bytes, ttl: int)
    ensures Lookup(AfterSet(b, prefix, key, value, ttl, false), prefix, key, false) == Some(value)
  {
  }

  /** Under one prefix, writing one key never changes what another key reads. */
  lemma SetOtherKeyKeepsLookup(b: Backend, prefix: string, key: string, other: string, value: Bytes, ttl: int, f1: bool, f2: bool)
    requires key != other
    ensures Lookup(AfterSet(b, prefix, key, value, ttl, f1), prefix, other, f2) == Lookup(b, prefix, other, f2)
  {
    if PrefixKey(prefix, key) == PrefixKey(prefix, other) {
      PrefixKeyInjective(prefix, key, other);
    }
  }

  /** Update fails and writes nothing when the existence check fails or the
      key is absent; a failing rewrite is reported and writes nothing. */
  lemma UpdateErrors(b: Backend, prefix: string, key: string, value: Bytes, existsFails: bool, setFails: bool)
    ensures existsFails ==> UpdateError(b, prefix, key, existsFails, setFails) == Some(ExistsFailed)
    ensures !existsFails && PrefixKey(prefix, key) !in b ==>
              UpdateError(b, prefix, key, existsFails, setFails) == Some(KeyNotExists)
    ensures !existsFails && PrefixKey(prefix, key) in b && setFails ==>
              UpdateError(b, prefix, key, existsFails, setFails) == Some(SetFailed)
    ensures UpdateError(b, prefix, key, existsFails, setFails).Some? ==>
              AfterUpdate(b, prefix, key, value, existsFails, setFails) == b
  {
  }

  /** A successful Update rewrites the entry with expiration 0, discarding any
      TTL the entry had. */
  lemma UpdateDropsTTL(b: Backend, prefix: string, key: string, value: Bytes)
    requires PrefixKey(prefix, key) in b
    ensures UpdateError(b, prefix, key, false, false) == None
    ensures AfterUpdate(b, prefix, key, value, false, false)[PrefixKey(prefix, key)] == Entry(value, 0)
  {
  }

  /** The client's connection to the Redis server, holding the server's data. */
  class Client {
    var entries: Backend

    constructor (initial: Backend)
      ensures entries == initial
    {
      entries := initial;
    }
  }

  class RedisStore {
    const client: Client
    const prefix: string

    constructor (client: Client, prefix: string)
      ensures this.client == client && this.prefix == prefix
    {
      this.client := client;
      this.prefix := prefix;
    }

    /** Get never changes the backend and never reports an error. */
    method Get(key: string, fails: bool) returns (value: Bytes, ok: bool)
      ensures ok == Lookup(client.entries, prefix, key, fails).Some?
      ensures value == if ok then Lookup(client.entries, prefix, key, fails).value else []
    {
      var pk := PrefixKey(prefix, key);
      if fails || pk !in client.entries {
        // redis.Nil and every other error read as a miss
        return [], false;
      }
      return client.entries[pk].value, true;
    }

    /** Set swallows a transport failure. */
    method Set(key: string, value: Bytes, ttl: int, fails: bool)
      modifies client
      ensures client.entries == AfterSet(old(client.entries), prefix, key, value, ttl, fails)
    {
      var pk := PrefixKey(prefix, key);
      if !fails {
        client.entries := client.entries[pk := Entry(value, ttl)];
      }
    }

    /** Del swallows a transport failure. */
    method Del(key: string, fails: bool)
      modifies client
      ensures client.entries == AfterDel(old(client.entries), prefix, key, fails)
    {
      var pk := PrefixKey(prefix, key);
      if !fails {
        client.entries := client.entries - {pk};
      }
    }

    method Update(key: string, value: Bytes, existsFails: bool, setFails: bool) returns (err: Option<CacheError>)
      modifies client
      ensures err == UpdateError(old(client.entries), prefix, key, existsFails, setFails)
      ensures client.entries == AfterUpdate(old(client.entries), prefix, key, value, existsFails, setFails)
    {
      var pk := PrefixKey(prefix, key);
      if existsFails {
        return Some(ExistsFailed);
      }
      if pk !in client.entries {
        return Some(KeyNotExists);
      }
      if setFails {
        return Some(SetFailed);
      }
      client.entries := client.entries[pk := Entry(value, 0)];
      return None;
    }
  }
}
