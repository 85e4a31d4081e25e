/** The map-backed store of the example program. Its Set starts a timer that
    later deletes the key; each pending timer is kept as an element of a
    multiset and fires through the explicit Expire event. */
module CustomExample {
  import opened Common

  datatype CustomState = CustomState(data: map<string, Bytes>, timers: multiset<string>)

  /** What Get returns: presence in the map, with no expiry check. */
  function Lookup(s: CustomState, key: string): Option<Bytes> {
    if key in s.data then Some(s.data[key]) else None
  }

  /** Set overwrites the value and schedules one more deletion of the key. */
  function AfterSet(s: CustomState, key: string, value: Bytes): CustomState {
    CustomState(s.data[key := value], s.timers + multiset{key})
  }

  function AfterDel(s: CustomState, key: string): CustomState {
    CustomState(s.data - {key}, s.timers)
  }

  function UpdateError(s: CustomState, key: string): Option<CacheError> {
    if key in s.data then None else Some(KeyNotExists)
  }

  function AfterUpdate(s: CustomState, key: string, value: Bytes): CustomState {
    if key in s.data then CustomState(s.data[key := value], s.timers) else s
  }

  /** A timer for `key` fires: the key is deleted, whatever it holds now. */
  function AfterExpire(s: CustomState, key: string): CustomState
    requires key in s.timers
  {
    CustomState(s.data - {key}, s.timers - multiset{key})
  }

  /** Get is present exactly when the key is in the map, with its bytes. */
  lemma LookupIff(s: CustomState, key: string)
    ensures Lookup(s, key).Some? <==> key in s.data
    ensures key in s.data ==> Lookup(s, key).value == s.data[key]
  {
  }

  /** Set overwrites the value, leaves other keys as they were and schedules
      a deletion for that key. */
  lemma SetOverwrites(s: CustomState, key: string, value: Bytes, other: string)
    requires other != key
    ensures Lookup(AfterSet(s, key, value), key) == Some(value)
    ensures Lookup(AfterSet(s, key, value), other) == Lookup(s, other)
    ensures AfterSet(s, key, value).timers[key] == s.timers[key] + 1
  {
  }

  /** Del removes the key, is idempotent, and leaves other keys unchanged. */
  lemma DelRemoves(s: CustomState, key: string, other: string)
    requires other != key
    ensures Lookup(AfterDel(s, key), key) == None
    ensures AfterDel(AfterDel(s, key), key) == AfterDel(s, key)
    ensures Lookup(AfterDel(s, key), other) == Lookup(s, other)
  {
  }

  /** Update on an absent key fails and changes nothing; on a present key it
      replaces the value and keeps the key set and the pending timers. */
  lemma UpdateSemantics(s: CustomState, key: string, value: Bytes)
    ensures key !in s.data ==>
              UpdateError(s, key) == Some(KeyNotExists) && AfterUpdate(s, key, value) == s
    ensures key in s.data ==>
              UpdateError(s, key) == None &&
              AfterUpdate(s, key, value).data.Keys == s.data.Keys &&
              Lookup(AfterUpdate(s, key, value), key) == Some(value) &&
              AfterUpdate(s, key, value).timers == s.timers
  {
  }

  /** A timer started by an earlier Set deletes the key even after the key was
      set again or updated: re-setting does not cancel the earlier timer. */
  lemma EarlierTimerDeletesLaterValue(s: CustomState, key: string, v1: Bytes, v2: Bytes, v3: Bytes)
    ensures var t := AfterUpdate(AfterSet(AfterSet(s, key, v1), key, v2), key, v3);
      key in t.timers && t.timers[key] == s.timers[key] + 2 &&
      Lookup(t, key) == Some(v3) &&
      Lookup(AfterExpire(t, key), key) == None &&
      key in AfterExpire(t, key).timers
  {
    var t := AfterUpdate(AfterSet(AfterSet(s, key, v1), key, v2), key, v3);
    assert t.timers == s.timers + multiset{key} + multiset{key};
  }

  class CustomCache {
    var data: map<string, Bytes>
    var timers: multiset<string>

    function State(): CustomState
      reads this
    {
      CustomState(data, timers)
    }

    constructor ()
      ensures State() == CustomState(map[], multiset{})
    {
      data := map[];
      timers := multiset{};
    }

    method Get(key: string) returns (value: Bytes, ok: bool)
      ensures ok <==> key in data
      ensures ok ==> value == data[key]
      ensures !ok ==> value == []
    {
      if key in data {
        return data[key], true;
      }
      return [], false;
    }

    /** The duration of the timer is not modelled: the timer fires as Expire. */
    method Set(key: string, value: Bytes, ttl: int)
      modifies this
      ensures State() == AfterSet(old(State()), key, value)
    {
      data := data[key := value];
      timers := timers + multiset{key};
    }

    method Del(key: string)
      modifies this
      ensures State() == AfterDel(old(State()), key)
    {
      data := data - {key};
    }

    method Update(key: string, value: Bytes) returns (err: Option<CacheError>)
      modifies this
      ensures err == UpdateError(old(State()), key)
      ensures State() == AfterUpdate(old(State()), key, value)
    {
      if key !in data {
        return Some(KeyNotExists);
      }
      data := data[key := value];
      return None;
    }

    /** The goroutine started by Set wakes up and deletes the key. */
    method Expire(key: string)
      requires key in timers
      modifies this
      ensures State() == AfterExpire(old(State()), key)
    {
      timers := timers - multiset{key};
      Del(key);
    }
  }
}
