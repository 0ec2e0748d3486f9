/**
 * The shared Redis client and the cache-aside helper built on it.
 *
 * The client is real when both the REST URL and the token are configured, and a no-op
 * otherwise. The Redis store is a map from keys to entries; the commands the client issues are
 * recorded in order, so what each operation sends is part of its contract. Expiry is recorded
 * on the entry and never simulated: no entry disappears with time.
 */
module RedisCache {
  import opened Prelude
  import opened JsValues

  /** A stored value and the expiry, in seconds, it was written with (`None`: no expiry). */
  datatype Entry = Entry(value: JsValue, expiry: Option<int>)

  /** The commands sent to Redis: `GET key`, `SET key value [EX seconds]`, `DEL key...`. */
  datatype Command =
    | GetCommand(key: string)
    | SetCommand(key: string, value: JsValue, ex: Option<int>)
    | DelCommand(keys: seq<string>)

  type Store = map<string, Entry>

  /** The client is real only when the URL and the token are both present and non-empty. */
  predicate Configured(url: Option<string>, token: Option<string>) {
    url.Some? && url.value != "" && token.Some? && token.value != ""
  }

  /** The expiry `set` attaches: the TTL when it is truthy; `undefined` and 0 store without one. */
  function ExpiryOf(ttlSeconds: Option<int>): (ex: Option<int>)
    ensures ex.Some? <==> ttlSeconds.Some? && ttlSeconds.value != 0
    ensures ex.Some? ==> ex == ttlSeconds
  {
    if ttlSeconds.Some? && ttlSeconds.value != 0 then ttlSeconds else None
  }

  /** What `GET key` answers: the stored value, or null for a missing key. */
  function Lookup(store: Store, key: string): JsValue {
    if key in store then store[key].value else Null
  }

  /** The store after `SET key value`, with the expiry `set` chooses for `ttlSeconds`. */
  function Stored(store: Store, key: string, value: JsValue, ttlSeconds: Option<int>): Store {
    store[key := Entry(value, ExpiryOf(ttlSeconds))]
  }

  /** The store after `DEL` of every key in `keys`. */
  function Removed(store: Store, keys: seq<string>): Store {
    map k | k in store && k !in keys :: store[k]
  }

  /** After a write, the key reads back the value written, and every other key reads as before. */
  lemma StoredReadsBack(store: Store, key: string, value: JsValue, ttlSeconds: Option<int>, other: string)
    ensures Lookup(Stored(store, key, value, ttlSeconds), key) == value
    ensures Stored(store, key, value, ttlSeconds)[key].expiry == ExpiryOf(ttlSeconds)
    ensures other != key ==> Lookup(Stored(store, key, value, ttlSeconds), other) == Lookup(store, other)
  {
  }

  /** After a delete, the deleted keys read as null and every other key reads as before. */
  lemma RemovedReadsNull(store: Store, keys: seq<string>, k: string)
    ensures k in keys ==> Lookup(Removed(store, keys), k) == Null
    ensures k !in keys ==> Lookup(Removed(store, keys), k) == Lookup(store, k)
    ensures k !in keys && k in store ==> Removed(store, keys)[k] == store[k]
  {
  }

  /** `createRedisClient()`: the real client over the Redis store, or the no-op one. */
  class RedisClient {
    const connected: bool
    var store: Store
    var issued: seq<Command>

    /** index.ts:8-16 — the client the configuration selects, over the store as it stands. */
    constructor (url: Option<string>, token: Option<string>, existing: Store)
      ensures connected == Configured(url, token)
      ensures store == existing && issued == []
    {
      connected := Configured(url, token);
      store := existing;
      issued := [];
    }

    /** `get(key)`: the stored value or null; the no-op client always answers null and sends nothing. */
    method Get(key: string) returns (v: JsValue)
      modifies this
      ensures v == (if connected then Lookup(store, key) else Null)
      ensures store == old(store)
      ensures issued == old(issued) + (if connected then [GetCommand(key)] else [])
    {
      if connected {
        issued := issued + [GetCommand(key)];
        v := Lookup(store, key);
      } else {
        v := Null;
      }
    }

    /** `set(key, value, ttlSeconds)`: `EX` only for a truthy TTL; the no-op client does nothing. */
    method Set(key: string, value: JsValue, ttlSeconds: Option<int>)
      modifies this
      ensures store == (if connected then Stored(old(store), key, value, ttlSeconds) else old(store))
      ensures issued == old(issued) + (if connected then [SetCommand(key, value, ExpiryOf(ttlSeconds))] else [])
    {
      if connected {
        var ex := if ttlSeconds.Some? && ttlSeconds.value != 0 then ttlSeconds else None;
        issued := issued + [SetCommand(key, value, ex)];
        store := store[key := Entry(value, ex)];
      }
    }

    /** `delete(key)`: one `DEL`; the no-op client does nothing. */
    method Delete(key: string)
      modifies this
      ensures store == (if connected then Removed(old(store), [key]) else old(store))
      ensures issued == old(issued) + (if connected then [DelCommand([key])] else [])
    {
      if connected {
        issued := issued + [DelCommand([key])];
        store := Removed(store, [key]);
      }
    }

    /** `deleteMany(keys)`: one `DEL` of all the keys, and none at all for an empty list. */
    method DeleteMany(keys: seq<string>)
      modifies this
      ensures store == (if connected && |keys| > 0 then Removed(old(store), keys) else old(store))
      ensures issued == old(issued) + (if connected && |keys| > 0 then [DelCommand(keys)] else [])
    {
      if connected && |keys| > 0 {
        issued := issued + [DelCommand(keys)];
        store := Removed(store, keys);
      }
    }
  }

  /** The TTL `getOrCache` stores with: the argument, or 3600 seconds when it is left out. */
  function CacheTtl(ttlSeconds: Option<int>): (ttl: int)
    ensures ttlSeconds.None? ==> ttl == 3600
    ensures ttlSeconds.Some? ==> ttl == ttlSeconds.value
  {
    ttlSeconds.GetOr(3600)
  }

  /** The value `getOrCache` finds in the cache: what `get` answers for the client. */
  function Cached(connected: bool, store: Store, key: string): JsValue {
    if connected then Lookup(store, key) else Null
  }

  /**
   * `getOrCache(key, fetcher, ttlSeconds)`, with the fetcher's result as `fetched`. A cached
   * non-null value is returned without calling the fetcher or writing; otherwise the fetcher is
   * called once and its value stored with the TTL and returned.
   */
  method GetOrCache(client: RedisClient, key: string, fetched: JsValue, ttlSeconds: Option<int>)
    returns (value: JsValue, fetcherCalled: bool)
    modifies client
    ensures var cached := Cached(client.connected, old(client.store), key);
      && (cached != Null ==> value == cached && !fetcherCalled && client.store == old(client.store))
      && (cached == Null ==> value == fetched && fetcherCalled)
      && (cached == Null && client.connected ==> client.store == Stored(old(client.store), key, fetched, Some(CacheTtl(ttlSeconds))))
      && (!client.connected ==> client.store == old(client.store) && client.issued == old(client.issued))
    ensures client.connected ==>
      client.issued == old(client.issued) + [GetCommand(key)] +
        (if Cached(client.connected, old(client.store), key) == Null
         then [SetCommand(key, fetched, ExpiryOf(Some(CacheTtl(ttlSeconds))))] else [])
  {
    var cached := client.Get(key);
    if cached != Null {
      return cached, false;
    }
    client.Set(key, fetched, Some(CacheTtl(ttlSeconds)));
    return fetched, true;
  }

  /** `invalidateCache(key)`: delete the key through the client. */
  method InvalidateCache(client: RedisClient, key: string)
    modifies client
    ensures client.store == (if client.connected then Removed(old(client.store), [key]) else old(client.store))
    ensures Cached(client.connected, client.store, key) == Null
  {
    client.Delete(key);
    RemovedReadsNull(old(client.store), [key], key);
  }

  /** After `invalidateCache(key)`, the next `getOrCache(key)` is a miss and calls the fetcher. */
  method InvalidateThenFetch(client: RedisClient, key: string, fetched: JsValue, ttlSeconds: Option<int>)
    returns (value: JsValue, fetcherCalled: bool)
    modifies client
    ensures fetcherCalled && value == fetched
  {
    InvalidateCache(client, key);
    value, fetcherCalled := GetOrCache(client, key, fetched, ttlSeconds);
  }

  /**
   * With a connected client, a miss that fetched a non-null value makes the next lookup of the key a
   * hit that returns that value without calling the fetcher again.
   */
  method MissThenHit(client: RedisClient, key: string, first: JsValue, second: JsValue)
    returns (v1: JsValue, v2: JsValue, secondCalled: bool)
    requires client.connected && Lookup(client.store, key) == Null && first != Null
    modifies client
    ensures v1 == first && v2 == first && !secondCalled
  {
    var called;
    v1, called := GetOrCache(client, key, first, None);
    StoredReadsBack(old(client.store), key, first, Some(3600), key);
    v2, secondCalled := GetOrCache(client, key, second, None);
  }

  /** A stored null is indistinguishable from a missing key: the fetcher runs again. */
  method StoredNullRefetches(client: RedisClient, key: string, fetched: JsValue)
    returns (value: JsValue, fetcherCalled: bool)
    requires client.connected
    modifies client
    ensures fetcherCalled && value == fetched
  {
    client.Set(key, Null, None);
    StoredReadsBack(old(client.store), key, Null, None, key);
    value, fetcherCalled := GetOrCache(client, key, fetched, None);
  }
}
