/**
 * The cache client of RedisServices.cs: a typed get/set/remove/exists layer
 * over a distributed key/value store that never lets a store failure reach
 * its caller.
 *
 * The store maps a key to the text written under it, which is either the JSON
 * of a value (written by Set) or the empty string (written by some other
 * client), together with the absolute expiry that was requested. Whether the
 * store can be reached is the field `online`; every call made while it is
 * false fails inside the wrapper and is swallowed.
 */
module Redis {
  import opened Base

  /** The string stored under a key. */
  datatype Stored<V> = Json(value: V) | EmptyString

  /** A stored string and the relative expiry (in seconds) it was written with, if any. */
  datatype Entry<V> = Entry(text: Stored<V>, expiry: Option<int>)

  type Store<V> = map<string, Entry<V>>

  /**
   * What GetAsync<T> returns: the deserialised value when the store answers and
   * holds non-empty text under `key` that reads as a T (`decode`), otherwise
   * `default(T)`, here None.
   */
  function Lookup<V, T>(store: Store<V>, online: bool, key: string, decode: V -> Option<T>): Option<T>
  {
    if online && key in store && store[key].text.Json? then decode(store[key].text.value) else None
  }

  /**
   * The store after SetAsync(key, value, expiry). An unreachable store, or a
   * non-positive relative expiry (which the cache-entry options refuse with an
   * exception), leaves it unchanged.
   */
  function Put<V>(store: Store<V>, online: bool, key: string, value: V, expiry: Option<int>): Store<V>
  {
    if !online || (expiry.Some? && expiry.value <= 0) then store
    else store[key := Entry(Json(value), expiry)]
  }

  /** The store after RemoveAsync(key). */
  function Delete<V>(store: Store<V>, online: bool, key: string): Store<V>
  {
    if online then store - {key} else store
  }

  /** What ExistsAsync(key) returns: some string, possibly empty, is stored under the key. */
  predicate Present<V>(store: Store<V>, online: bool, key: string)
  {
    online && key in store
  }

  class RedisService<V> {
    var store: Store<V>
    var online: bool

    constructor (initial: Store<V>, reachable: bool)
      ensures store == initial && online == reachable
    {
      store := initial;
      online := reachable;
    }

    method Get<T>(key: string, decode: V -> Option<T>) returns (r: Option<T>)
      ensures r == Lookup(store, online, key, decode)
    {
      if !online {
        return None;
      }
      if key !in store || store[key].text.EmptyString? {
        return None;
      }
      r := decode(store[key].text.value);
    }

    method Set(key: string, value: V, expiry: Option<int>)
      modifies this`store
      ensures store == Put(old(store), online, key, value, expiry)
    {
      if !online {
        return;
      }
      if expiry.Some? && expiry.value <= 0 {
        return;
      }
      store := store[key := Entry(Json(value), expiry)];
    }

    method Remove(key: string)
      modifies this`store
      ensures store == Delete(old(store), online, key)
    {
      if online {
        store := store - {key};
      }
    }

    method Exists(key: string) returns (b: bool)
      ensures b == Present(store, online, key)
    {
      if !online {
        return false;
      }
      b := key in store;
    }

    /**
     * The store dropping an entry because its absolute expiry has passed; an
     * entry written without an expiry is never dropped.
     */
    method Expire(key: string)
      modifies this`store
      ensures key in old(store) && old(store)[key].expiry.Some? ==> store == old(store) - {key}
      ensures !(key in old(store) && old(store)[key].expiry.Some?) ==> store == old(store)
    {
      if key in store && store[key].expiry.Some? {
        store := store - {key};
      }
    }
  }

  /** Reading back a key just written returns the value written, when it deserialises to itself. */
  lemma GetAfterSet<V, T>(store: Store<V>, key: string, value: V, ttl: int, decode: V -> Option<T>, t: T)
    requires ttl > 0 && decode(value) == Some(t)
    ensures Lookup(Put(store, true, key, value, Some(ttl)), true, key, decode) == Some(t)
  {
  }

  /** Writes under two different keys commute. */
  lemma PutsCommute<V>(store: Store<V>, online: bool, k1: string, v1: V, e1: Option<int>, k2: string, v2: V, e2: Option<int>)
    requires k1 != k2
    ensures Put(Put(store, online, k1, v1, e1), online, k2, v2, e2) == Put(Put(store, online, k2, v2, e2), online, k1, v1, e1)
  {
  }

  /** Set, Remove and Get each touch only the key they are given. */
  lemma OnlyTheGivenKey<V>(store: Store<V>, online: bool, key: string, other: string, value: V, expiry: Option<int>)
    requires other != key
    ensures other in Put(store, online, key, value, expiry) <==> other in store
    ensures other in store ==> Put(store, online, key, value, expiry)[other] == store[other]
    ensures other in Delete(store, online, key) <==> other in store
    ensures other in store ==> Delete(store, online, key)[other] == store[other]
  {
  }

  /** With the store unreachable, reads behave as misses and writes and removes change nothing. */
  lemma OutageIsHarmless<V, T>(store: Store<V>, key: string, value: V, expiry: Option<int>, decode: V -> Option<T>)
    ensures Lookup(store, false, key, decode) == None
    ensures !Present(store, false, key)
    ensures Put(store, false, key, value, expiry) == store
    ensures Delete(store, false, key) == store
  {
  }

  /** An empty stored string exists for ExistsAsync yet reads as absent for GetAsync. */
  lemma EmptyStringExistsButIsAbsent<V, T>(store: Store<V>, key: string, decode: V -> Option<T>)
    requires key in store && store[key].text == EmptyString
    ensures Present(store, true, key)
    ensures Lookup(store, true, key, decode) == None
  {
  }

  /** A key that was removed reads as absent and does not exist. */
  lemma GetAfterRemove<V, T>(store: Store<V>, key: string, decode: V -> Option<T>)
    ensures Lookup(Delete(store, true, key), true, key, decode) == None
    ensures !Present(Delete(store, true, key), true, key)
  {
  }

  /** Set records the requested expiry exactly; without one the entry has none. */
  lemma SetRecordsExpiry<V>(store: Store<V>, key: string, value: V, expiry: Option<int>)
    requires expiry.None? || expiry.value > 0
    ensures key in Put(store, true, key, value, expiry)
    ensures Put(store, true, key, value, expiry)[key] == Entry(Json(value), expiry)
  {
  }
}
