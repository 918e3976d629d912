/**
 * The read-through cache helper (CacheClient.java). Values are stored as their
 * JSON text through a codec; a missing row is remembered as the empty string
 * for a while so that repeated lookups of it stop at the cache.
 */
module Cache {
  import opened Common
  import opened Store
  import opened RedisConstants

  /** The envelope of a logically expiring entry (RedisData.java): payload and expiry instant. */
  datatype RedisData<T> = RedisData(expireTime: int, data: T)

  class CacheClient {
    const store: KeyValueStore

    constructor (store: KeyValueStore)
      ensures this.store == store
    {
      this.store := store;
    }

    /**
     * `set(key, value, time, unit)`: the JSON of `value`, expiring after
     * `ttlSeconds`. `thrown`: the store refused a non-positive time-to-live
     * and the call threw, writing nothing.
     */
    method Set<T>(key: string, value: T, codec: Codec<T>, ttlSeconds: int, now: int) returns (thrown: bool)
      modifies store`strings
      ensures thrown <==> ttlSeconds <= 0
      ensures store.strings == if thrown then old(store.strings)
                               else old(store.strings)[key := Entry(codec.encode(value), Some(now + ttlSeconds))]
    {
      if ttlSeconds <= 0 {
        return true;
      }
      store.Set(key, codec.encode(value), Some(ttlSeconds), now);
      return false;
    }

    /** `setWithLogicalExpire(key, value, time, unit)`: an envelope expiring logically at now + `seconds`, kept forever. */
    method SetWithLogicalExpire<T>(key: string, value: T, codec: Codec<RedisData<T>>, seconds: int, now: int)
      modifies store`strings
      ensures store.strings == old(store.strings)[key := Entry(codec.encode(RedisData(now + seconds, value)), None)]
    {
      store.Set(key, codec.encode(RedisData(now + seconds, value)), None, now);
    }

    /**
     * `queryWithPassThrough(keyPrefix, id, type, dbFallback, time, unit)`.
     * `loaderCalled` reports whether `dbFallback` was consulted; `thrown`:
     * caching a loaded row threw because `ttlSeconds` is not positive.
     */
    method QueryWithPassThrough<R>(keyPrefix: string, id: int, codec: Codec<R>, dbFallback: int -> Option<R>,
                                   ttlSeconds: int, now: int)
        returns (r: Option<R>, loaderCalled: bool, thrown: bool)
      modifies store`strings
      ensures thrown <==> old(store.Get(keyPrefix + DecimalString(id), now)).None? && dbFallback(id).Some? && ttlSeconds <= 0
      ensures thrown ==> store.strings == old(store.strings)
      ensures var key := keyPrefix + DecimalString(id);
              var json := old(store.Get(key, now));
              && (json.Some? && !IsBlank(json.value) ==>
                    r == Some(codec.decode(json.value)) && !loaderCalled && store.strings == old(store.strings))
              && (json.Some? && IsBlank(json.value) ==>
                    r.None? && !loaderCalled && store.strings == old(store.strings))
              && (json.None? && !thrown ==>
                    loaderCalled && r == dbFallback(id)
                    && store.strings == old(store.strings)[key :=
                         if r.None? then Entry("", Some(now + Minutes(CACHE_NULL_TTL)))
                         else Entry(codec.encode(r.value), Some(now + ttlSeconds))])
    {
      var key := keyPrefix + DecimalString(id);
      var json := store.Get(key, now);
      if json.Some? && !IsBlank(json.value) {
        return Some(codec.decode(json.value)), false, false;
      }
      if json.Some? {
        return None, false, false;
      }
      r := dbFallback(id);
      loaderCalled := true;
      if r.None? {
        store.Set(key, "", Some(Minutes(CACHE_NULL_TTL)), now);
        return r, loaderCalled, false;
      }
      thrown := Set(key, r.value, codec, ttlSeconds, now);
    }

    /**
     * After one lookup with a valid time-to-live the key is cached: an
     * immediate repeat never consults the loader and answers the same.
     */
    method QueryTwice<R(!new)>(keyPrefix: string, id: int, codec: Codec<R>, dbFallback: int -> Option<R>,
                               ttlSeconds: int, now: int)
        returns (r1: Option<R>, r2: Option<R>, secondCalled: bool)
      requires RoundTrips(codec)
      modifies store`strings
      ensures ttlSeconds > 0 ==> r2 == r1 && !secondCalled
    {
      var firstCalled, thrown;
      r1, firstCalled, thrown := QueryWithPassThrough(keyPrefix, id, codec, dbFallback, ttlSeconds, now);
      r2, secondCalled, thrown := QueryWithPassThrough(keyPrefix, id, codec, dbFallback, ttlSeconds, now);
    }
  }
}
