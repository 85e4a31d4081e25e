/** The in-process store: a value map and a parallel map of absolute expiry
    instants, with lazy expiry on Get. */
module Store {
  import opened Common

  /** The two maps of a MemoryCache, as a value. */
  datatype MemState = MemState(data: map<string, Bytes>, ttl: map<string, int>)

  function Empty(): MemState { MemState(map[], map[]) }

  /** Every expiry belongs to a stored value. */
  predicate Inv(s: MemState) { s.ttl.Keys <= s.data.Keys }

  /** Expiry is strict: the entry is stale only once `now` is after the instant. */
  predicate Expired(s: MemState, key: string, now: int) {
    key in s.ttl && now > s.ttl[key]
  }

  /** What Get returns at time `now`. */
  function Lookup(s: MemState, key: string, now: int): Option<Bytes> {
    if key !in s.data then None
    else if Expired(s, key, now) then None
    else Some(s.data[key])
  }

  /** The state Get leaves behind: an expired entry is deleted. */
  function AfterGet(s: MemState, key: string, now: int): MemState {
    if key in s.data && Expired(s, key, now) then AfterDel(s, key) else s
  }

  function AfterSet(s: MemState, key: string, value: Bytes, ttl: int, now: int): MemState {
    MemState(s.data[key := value], if ttl > 0 then s.ttl[key := now + ttl] else s.ttl)
  }

  function AfterDel(s: MemState, key: string): MemState {
    MemState(s.data - {key}, s.ttl - {key})
  }

  /** What Update returns: only the value map is consulted. */
  function UpdateError(s: MemState, key: string): Option<CacheError> {
    if key in s.data then None else Some(KeyNotExists)
  }

  function AfterUpdate(s: MemState, key: string, value: Bytes): MemState {
    if key in s.data then MemState(s.data[key := value], s.ttl) else s
  }

  // ---------------------------------------------------------------- Get

  /** A key that was never stored is a miss, and Get leaves the state as it was. */
  lemma MissOnAbsentKey(s: MemState, key: string, now: int)
    requires key !in s.data
    ensures Lookup(s, key, now) == None && AfterGet(s, key, now) == s
  {
  }

  /** A fresh cache has nothing in it. */
  lemma EmptyHasNothing(key: string, now: int)
    ensures Lookup(Empty(), key, now) == None
  {
  }

  /** Get hits exactly when the key is stored and `now` is not after its expiry;
      a hit reads the stored bytes and changes nothing. */
  lemma LookupHitIff(s: MemState, key: string, now: int)
    ensures Lookup(s, key, now).Some? <==>
              key in s.data && (key !in s.ttl || now <= s.ttl[key])
    ensures Lookup(s, key, now).Some? ==>
              Lookup(s, key, now).value == s.data[key] && AfterGet(s, key, now) == s
  {
  }

  /** An entry without an expiry is a hit at every instant. */
  lemma NoExpiryNeverExpires(s: MemState, key: string, now: int)
    requires key in s.data && key !in s.ttl
    ensures Lookup(s, key, now) == Some(s.data[key])
  {
  }

  /** At exactly its expiry instant an entry is still served. */
  lemma HitAtExpiryInstant(s: MemState, key: string)
    requires key in s.data && key in s.ttl
    ensures Lookup(s, key, s.ttl[key]) == Some(s.data[key])
  {
  }

  /** After the expiry instant Get misses and removes the key from both maps,
      leaving every other key as it was. */
  lemma ExpiredGetRemoves(s: MemState, key: string, now: int)
    requires key in s.data && key in s.ttl && now > s.ttl[key]
    ensures Lookup(s, key, now) == None
    ensures var t := AfterGet(s, key, now);
      key !in t.data && key !in t.ttl &&
      (forall k :: k != key && k in s.data ==> k in t.data && t.data[k] == s.data[k]) &&
      (forall k :: k != key && k in s.ttl ==> k in t.ttl && t.ttl[k] == s.ttl[k]) &&
      t.data.Keys == s.data.Keys - {key} && t.ttl.Keys == s.ttl.Keys - {key}
  {
  }

  // ---------------------------------------------------------------- Set

  /** Set with a positive TTL overwrites the value and the expiry, so the entry
      is served exactly until `now + ttl` (inclusive). */
  lemma SetWithTTL(s: MemState, key: string, value: Bytes, ttl: int, now: int, later: int)
    requires ttl > 0
    ensures var t := AfterSet(s, key, value, ttl, now);
      t.data[key] == value && t.ttl[key] == now + ttl &&
      (Lookup(t, key, later) == Some(value) <==> later <= now + ttl) &&
      (Lookup(t, key, later) == None <==> later > now + ttl)
  {
  }

  /** Set with `ttl <= 0` stores the value but keeps whatever expiry the key
      already had: a fresh key never expires, an old expiry still applies. */
  lemma SetWithoutTTLKeepsExpiry(s: MemState, key: string, value: Bytes, ttl: int, now: int, later: int)
    requires ttl <= 0
    ensures var t := AfterSet(s, key, value, ttl, now);
      t.data[key] == value && t.ttl == s.ttl &&
      (key !in s.ttl ==> Lookup(t, key, later) == Some(value)) &&
      (key in s.ttl ==> (Lookup(t, key, later) == Some(value) <==> later <= s.ttl[key]))
  {
  }

  /** In a valid store, a key that was never stored has no expiry either, so
      storing it without a TTL makes it a hit at every later instant. */
  lemma SetWithoutTTLNewKeyNeverExpires(s: MemState, key: string, value: Bytes, ttl: int, now: int, later: int)
    requires Inv(s) && key !in s.data && ttl <= 0
    ensures Lookup(AfterSet(s, key, value, ttl, now), key, later) == Some(value)
  {
  }

  /** Set leaves every other key's value and expiry as they were. */
  lemma SetFramesOtherKeys(s: MemState, key: string, value: Bytes, ttl: int, now: int, other: string, later: int)
    requires other != key
    ensures Lookup(AfterSet(s, key, value, ttl, now), other, later) == Lookup(s, other, later)
  {
  }

  // ---------------------------------------------------------------- Del

  /** Del removes the key from both maps, is idempotent, and keeps other keys. */
  lemma DelRemoves(s: MemState, key: string, other: string, now: int)
    requires other != key
    ensures var t := AfterDel(s, key);
      key !in t.data && key !in t.ttl && AfterDel(t, key) == t &&
      Lookup(t, key, now) == None && Lookup(t, other, now) == Lookup(s, other, now)
  {
  }

  // ---------------------------------------------------------------- Update

  /** Update on a key absent from the value map fails and changes nothing. */
  lemma UpdateAbsent(s: MemState, key: string, value: Bytes)
    requires key !in s.data
    ensures UpdateError(s, key) == Some(KeyNotExists) && AfterUpdate(s, key, value) == s
  {
  }

  /** Update on a stored key succeeds, replaces only the value and keeps the
      expiry, even when that entry is already stale but not yet removed. */
  lemma UpdatePresent(s: MemState, key: string, value: Bytes, now: int)
    requires key in s.data
    ensures UpdateError(s, key) == None
    ensures var t := AfterUpdate(s, key, value);
      t.data == s.data[key := value] && t.ttl == s.ttl &&
      (Expired(s, key, now) ==> Lookup(t, key, now) == None) &&
      (!Expired(s, key, now) ==> Lookup(t, key, now) == Some(value))
  {
  }

  /** Set, then Update, then Get within the TTL serves the updated bytes. */
  lemma SetUpdateGet(s: MemState, key: string, v1: Bytes, v2: Bytes, ttl: int, now: int, later: int)
    requires ttl > 0 && later <= now + ttl
    ensures var t := AfterSet(s, key, v1, ttl, now);
      UpdateError(t, key) == None &&
      Lookup(AfterUpdate(t, key, v2), key, later) == Some(v2)
  {
  }

  // ---------------------------------------------------------------- invariant

  /** Every operation keeps the expiry keys inside the value keys. */
  lemma OperationsPreserveInv(s: MemState, key: string, value: Bytes, ttl: int, now: int)
    requires Inv(s)
    ensures Inv(AfterGet(s, key, now))
    ensures Inv(AfterSet(s, key, value, ttl, now))
    ensures Inv(AfterDel(s, key))
    ensures Inv(AfterUpdate(s, key, value))
  {
  }

  /** The in-memory store. Its maps are updated in place; its methods are
      proved to follow the step functions above. */
  class MemoryCache {
    var data: map<string, Bytes>
    var ttl: map<string, int>

    function State(): MemState
      reads this
    {
      MemState(data, ttl)
    }

    ghost predicate Valid()
      reads this
    {
      Inv(State())
    }

    constructor ()
      ensures Valid() && State() == Empty()
    {
      data := map[];
      ttl := map[];
    }

    method Get(key: string, now: int) returns (value: Bytes, ok: bool)
      requires Valid()
      modifies this
      ensures Valid()
      ensures ok == Lookup(old(State()), key, now).Some?
      ensures value == if ok then Lookup(old(State()), key, now).value else []
      ensures State() == AfterGet(old(State()), key, now)
    {
      if key !in data {
        return [], false;
      }
      if key in ttl {
        if now > ttl[key] {
          Del(key);
          return [], false;
        }
      }
      return data[key], true;
    }

    method Set(key: string, value: Bytes, duration: int, now: int)
      requires Valid()
      modifies this
      ensures Valid()
      ensures State() == AfterSet(old(State()), key, value, duration, now)
    {
      data := data[key := value];
      if duration > 0 {
        ttl := ttl[key := now + duration];
      }
    }

    method Del(key: string)
      requires Valid()
      modifies this
      ensures Valid()
      ensures State() == AfterDel(old(State()), key)
    {
      data := data - {key};
      ttl := ttl - {key};
    }

    method Update(key: string, value: Bytes) returns (err: Option<CacheError>)
      requires Valid()
      modifies this
      ensures Valid()
      ensures err == UpdateError(old(State()), key)
      ensures State() == AfterUpdate(old(State()), key, value)
    {
      if key !in data {
        return Some(KeyNotExists);
      }
      data := data[key := value];
      return None;
    }
  }
}
