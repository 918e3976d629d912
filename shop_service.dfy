/**
 * Shop lookups through the cache (ShopServiceImpl.java): the pass-through
 * variant the service uses, the mutex variant that rebuilds a missing entry
 * under a lock, and the logical-expiry variant that serves stale data while a
 * background task refreshes it. Background tasks are not run in place: the
 * variant records them in `scheduled`, and `RunRebuild` runs the oldest.
 */
module ShopService {
  import opened Common
  import opened Entities
  import opened Store
  import opened Database
  import opened RedisConstants
  import opened Cache

  /** The logical lifetime, in seconds, a background rebuild gives the entry. */
  const REBUILD_EXPIRE_SECONDS := 20

  const SHOP_NOT_FOUND := "店铺不存在"
  const SHOP_ID_REQUIRED := "店铺id不能为空"

  /** How `queryWithMutex` ends: it returned (a shop or null), or it is still retrying. */
  datatype MutexOutcome = Returned(shop: Option<Shop>) | StillRetrying

  class ShopServiceImpl {
    const store: KeyValueStore
    const db: Tables
    const cacheClient: CacheClient
    const shopCodec: Codec<Shop>
    const dataCodec: Codec<RedisData<Option<Shop>>>
    /** Ids of the shops whose rebuild was submitted and has not run yet, oldest first. */
    var scheduled: seq<int>

    constructor (store: KeyValueStore, db: Tables, shopCodec: Codec<Shop>, dataCodec: Codec<RedisData<Option<Shop>>>)
      ensures this.store == store && this.db == db && this.shopCodec == shopCodec && this.dataCodec == dataCodec
      ensures Wired() && scheduled == []
    {
      this.store := store;
      this.db := db;
      this.cacheClient := new CacheClient(store);
      this.shopCodec := shopCodec;
      this.dataCodec := dataCodec;
      this.scheduled := [];
    }

    /** The cache helper works on the service's own store. */
    predicate Wired() {
      cacheClient.store == store
    }

    function CacheKey(id: int): string {
      CACHE_SHOP_KEY + DecimalString(id)
    }

    function LockKey(id: int): string {
      LOCK_SHOP_KEY + DecimalString(id)
    }

    /** `getById(id)` */
    function GetById(id: int): Option<Shop>
      reads db
    {
      if id in db.shops then Some(db.shops[id]) else None
    }

    /** What a cache rebuild stores for a shop loaded at `now`. */
    function CachedEntry(shop: Option<Shop>, now: int): Entry {
      if shop.None? then Entry("", Some(now + Minutes(CACHE_NULL_TTL)))
      else Entry(shopCodec.encode(shop.value), Some(now + Minutes(CACHE_SHOP_TTL)))
    }

    /** `queryWithPassThrough(id)`: a cached entry answers; a miss loads the row and caches it or an empty marker. */
    method QueryWithPassThrough(id: int, now: int) returns (r: Option<Shop>)
      requires Wired()
      modifies store`strings
      ensures var json := old(store.Get(CacheKey(id), now));
              && (json.Some? ==>
                    store.strings == old(store.strings)
                    && r == (if IsBlank(json.value) then None else Some(shopCodec.decode(json.value))))
              && (json.None? ==> r == GetById(id) && store.strings == old(store.strings)[CacheKey(id) := CachedEntry(r, now)])
    {
      var shops := db.shops;
      var loader := (i: int) => if i in shops then Some(shops[i]) else None;
      var called, thrown;
      r, called, thrown := cacheClient.QueryWithPassThrough(CACHE_SHOP_KEY, id, shopCodec, loader, Minutes(CACHE_SHOP_TTL), now);
    }

    /** `queryById(id)`: the pass-through lookup, a missing shop reported as a failure. */
    method QueryById(id: int, now: int) returns (r: Result<Shop>)
      requires Wired()
      modifies store`strings
      ensures var json := old(store.Get(CacheKey(id), now));
              var found := if json.None? then GetById(id)
                           else if IsBlank(json.value) then None else Some(shopCodec.decode(json.value));
              r == (if found.Some? then Ok(found.value) else Fail(SHOP_NOT_FOUND))
      ensures old(store.Get(CacheKey(id), now)).Some? ==> store.strings == old(store.strings)
      ensures old(store.Get(CacheKey(id), now)).None? ==>
                store.strings == old(store.strings)[CacheKey(id) := CachedEntry(GetById(id), now)]
    {
      var shop := QueryWithPassThrough(id, now);
      if shop.None? {
        return Fail(SHOP_NOT_FOUND);
      }
      return Ok(shop.value);
    }

    /** `tryLock(key)`: the rebuild lock holds the text "1" for `LOCK_SHOP_TTL` seconds. */
    method TryLock(key: string, now: int) returns (ok: bool)
      modifies store`strings
      ensures ok <==> old(store.Get(key, now)).None?
      ensures store.strings == if ok then old(store.strings)[key := Entry("1", Some(now + LOCK_SHOP_TTL))]
                               else old(store.strings)
    {
      ok := store.SetIfAbsent(key, "1", Some(LOCK_SHOP_TTL), now);
    }

    /** `unLock(key)`: deletes the key, whoever holds it. */
    method UnLock(key: string)
      modifies store`strings, store`hashes, store`sets, store`zsets
      ensures store.strings == old(store.strings) - {key} && store.OtherTablesLost({key})
    {
      store.Delete(key);
    }

    /** `saveShop2Redis(id, expireSeconds)`: the row in an envelope that expires logically, kept forever. */
    method SaveShop2Redis(id: int, expireSeconds: int, now: int)
      modifies store`strings
      ensures store.strings == old(store.strings)[CacheKey(id) :=
                Entry(dataCodec.encode(RedisData(now + expireSeconds, GetById(id))), None)]
    {
      var shop := GetById(id);
      store.Set(CacheKey(id), dataCodec.encode(RedisData(now + expireSeconds, shop)), None, now);
    }

    /**
     * `queryWithLogicalExpire(id)`: an absent or blank entry answers null; an
     * entry still logically alive answers its payload; an expired one answers
     * its stale payload and, if the rebuild lock was free, takes the lock and
     * schedules a rebuild.
     */
    method QueryWithLogicalExpire(id: int, now: int) returns (r: Option<Shop>)
      modifies store`strings, this`scheduled
      ensures var json := old(store.Get(CacheKey(id), now));
              && (IsBlankOrNull(json) ==>
                    r.None? && store.strings == old(store.strings) && scheduled == old(scheduled))
              && (!IsBlankOrNull(json) ==>
                    var envelope := dataCodec.decode(json.value);
                    var rebuild := envelope.expireTime <= now && old(store.Get(LockKey(id), now)).None?;
                    && r == envelope.data
                    && store.strings == (if rebuild then old(store.strings)[LockKey(id) := Entry("1", Some(now + LOCK_SHOP_TTL))]
                                         else old(store.strings))
                    && scheduled == (if rebuild then old(scheduled) + [id] else old(scheduled)))
    {
      var json := store.Get(CacheKey(id), now);
      if IsBlankOrNull(json) {
        return None;
      }
      var envelope := dataCodec.decode(json.value);
      r := envelope.data;
      if envelope.expireTime > now {
        return;
      }
      var isLock := TryLock(LockKey(id), now);
      if isLock {
        scheduled := scheduled + [id];
      }
    }

    /** The oldest scheduled rebuild runs: it refreshes the envelope, then releases the lock. */
    method RunRebuild(now: int)
      modifies store`strings, store`hashes, store`sets, store`zsets, this`scheduled
      ensures old(scheduled) == [] ==>
                scheduled == [] && store.strings == old(store.strings) && store.OtherTablesLost({})
      ensures old(scheduled) != [] ==>
                var id := old(scheduled)[0];
                && scheduled == old(scheduled)[1..]
                && store.strings == old(store.strings)[CacheKey(id) :=
                     Entry(dataCodec.encode(RedisData(now + REBUILD_EXPIRE_SECONDS, GetById(id))), None)] - {LockKey(id)}
                && store.OtherTablesLost({LockKey(id)})
    {
      if scheduled == [] {
        return;
      }
      var id := scheduled[0];
      scheduled := scheduled[1..];
      SaveShop2Redis(id, REBUILD_EXPIRE_SECONDS, now);
      UnLock(LockKey(id));
    }

    /** An attempt at clock `t` stops the retrying: the cache has an entry, or the lock is free. */
    predicate Settles(id: int, t: int)
      reads store
    {
      store.Get(CacheKey(id), t).Some? || store.Get(LockKey(id), t).None?
    }

    /** The first of the attempts at clocks `nows` that stops the retrying (|nows| if none does). */
    function FirstSettling(id: int, nows: seq<int>): (i: nat)
      reads store
      ensures i <= |nows|
      ensures forall j :: 0 <= j < i ==> !Settles(id, nows[j])
      ensures i < |nows| ==> Settles(id, nows[i])
      decreases |nows|
    {
      if nows == [] then 0
      else if Settles(id, nows[0]) then 0
      else 1 + FirstSettling(id, nows[1..])
    }

    /** What the attempt at clock `t` that settles answers: the cached payload, or the row. */
    function SettledAnswer(id: int, t: int): Option<Shop>
      reads store, db
    {
      var json := store.Get(CacheKey(id), t);
      if json.None? then GetById(id)
      else if IsBlank(json.value) then None
      else Some(shopCodec.decode(json.value))
    }

    /** The lock key is deleted at the end: the call retried, or the settling attempt missed the cache. */
    predicate ReleasesLock(id: int, t: int, retried: bool)
      reads store
    {
      retried || store.Get(CacheKey(id), t).None?
    }

    /** The string table once the call settles at clock `t`. */
    function SettledStrings(id: int, t: int, retried: bool): map<string, Entry>
      reads store, db
    {
      var written := if store.Get(CacheKey(id), t).Some? then store.strings
                     else store.strings[LockKey(id) := Entry("1", Some(t + LOCK_SHOP_TTL))]
                                       [CacheKey(id) := CachedEntry(GetById(id), t)];
      if ReleasesLock(id, t, retried) then written - {LockKey(id)} else written
    }

    /**
     * One attempt of `queryWithMutex(id)` at clock `t`; `retried` says an
     * earlier attempt is waiting on this one, and its `finally` deletes the
     * lock key once this one ends.
     */
    method MutexAttempt(id: int, t: int, retried: bool) returns (settled: bool, shop: Option<Shop>)
      modifies store`strings, store`hashes, store`sets, store`zsets
      ensures settled <==> old(Settles(id, t))
      ensures !settled ==> store.strings == old(store.strings) && store.OtherTablesLost({})
      ensures settled ==>
                && shop == old(SettledAnswer(id, t))
                && store.strings == old(SettledStrings(id, t, retried))
                && store.OtherTablesLost(if old(ReleasesLock(id, t, retried)) then {LockKey(id)} else {})
    {
      var json := store.Get(CacheKey(id), t);
      if json.Some? {
        if retried {
          UnLock(LockKey(id));
        }
        return true, if IsBlank(json.value) then None else Some(shopCodec.decode(json.value));
      }
      var isLock := TryLock(LockKey(id), t);
      if !isLock {
        return false, None;
      }
      shop := GetById(id);
      if shop.None? {
        store.Set(CacheKey(id), "", Some(Minutes(CACHE_NULL_TTL)), t);
      } else {
        store.Set(CacheKey(id), shopCodec.encode(shop.value), Some(Minutes(CACHE_SHOP_TTL)), t);
      }
      UnLock(LockKey(id));
      settled := true;
    }

    /**
     * `queryWithMutex(id)`, its attempts made at clocks `nows`. An attempt
     * that finds no entry and the lock taken changes nothing and retries; the
     * attempt that settles answers from the cache, or loads the row under the
     * lock and caches it. Every attempt that got past the cache check deletes
     * the lock key when it ends, also those that never held it.
     * StillRetrying: every given attempt found the lock taken.
     */
    method QueryWithMutex(id: int, nows: seq<int>) returns (r: MutexOutcome)
      modifies store`strings, store`hashes, store`sets, store`zsets
      ensures var i := old(FirstSettling(id, nows));
              && (i == |nows| ==>
                    r == StillRetrying && store.strings == old(store.strings) && store.OtherTablesLost({}))
              && (i < |nows| ==>
                    && r == Returned(old(SettledAnswer(id, nows[i])))
                    && store.strings == old(SettledStrings(id, nows[i], i > 0))
                    && store.OtherTablesLost(if old(ReleasesLock(id, nows[i], i > 0)) then {LockKey(id)} else {}))
      ensures var i := old(FirstSettling(id, nows));
              i < |nows| && old(ReleasesLock(id, nows[i], i > 0)) ==> LockKey(id) !in store.strings
    {
      var i := 0;
      while i < |nows|
        invariant i <= old(FirstSettling(id, nows))
        invariant store.strings == old(store.strings) && store.OtherTablesLost({})
      {
        var settled, shop := MutexAttempt(id, nows[i], i > 0);
        if settled {
          return Returned(shop);
        }
        i := i + 1;
      }
      return StillRetrying;
    }

    /** `update(shop)`: a shop without id is refused; otherwise the row is updated and its cache entry dropped. */
    method Update(shop: Shop) returns (r: Result<()>)
      modifies db`shops, store`strings, store`hashes, store`sets, store`zsets
      ensures shop.id.None? ==>
                r == Fail(SHOP_ID_REQUIRED) && db.shops == old(db.shops)
                && store.strings == old(store.strings) && store.OtherTablesLost({})
      ensures shop.id.Some? ==>
                var id := shop.id.value;
                && r == Ok(())
                && db.shops == (if id in old(db.shops) then old(db.shops)[id := shop] else old(db.shops))
                && store.strings == old(store.strings) - {CacheKey(id)}
                && store.OtherTablesLost({CacheKey(id)})
    {
      if shop.id.None? {
        return Fail(SHOP_ID_REQUIRED);
      }
      var id := shop.id.value;
      if id in db.shops {
        db.shops := db.shops[id := shop];
      }
      store.Delete(CacheKey(id));
      return Ok(());
    }

    /** After an update of a stored shop, the next lookup answers the new row and caches it. */
    method UpdateThenQuery(shop: Shop, now: int) returns (r: Result<Shop>)
      requires Wired() && shop.id.Some? && shop.id.value in db.shops
      modifies db`shops, store`strings, store`hashes, store`sets, store`zsets
      ensures r == Ok(shop)
      ensures store.strings == old(store.strings)[CacheKey(shop.id.value) := CachedEntry(Some(shop), now)]
    {
      var updated := Update(shop);
      r := QueryById(shop.id.value, now);
    }
  }
}
