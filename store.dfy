/**
 * The shared key-value store every service talks to, as in-memory state:
 * string values and hashes (both may carry an expiry instant), sets, sorted
 * sets, and the one order stream (`stream.orders`) with the delivery cursor
 * of its consumer group `g1` and the pending list of consumer `c1`.
 *
 * Each method is one store command as the services use it. Time is the
 * integer clock (seconds) the caller passes in; an entry whose expiry instant
 * is not after the clock is gone as far as every command is concerned.
 * Values of different types live in separate tables here, so a key is never
 * of the wrong type.
 */
module Store {
  import opened Common
  import opened Entities
  import opened SortedSet

  /** A string value and the instant, if any, at which it expires. */
  datatype Entry = Entry(value: string, expireAt: Option<int>)

  /** A hash value and the instant, if any, at which it expires. */
  datatype HashEntry = HashEntry(fields: map<string, string>, expireAt: Option<int>)

  /** One record of the order stream; its field map is already read into an order. */
  datatype StreamRecord = StreamRecord(id: nat, order: VoucherOrder)

  const LONG_MAX: int := 0x7FFF_FFFF_FFFF_FFFF

  predicate Alive(expireAt: Option<int>, now: int) {
    expireAt.None? || now < expireAt.value
  }

  /** The expiry instant of an entry written at `now` with time-to-live `ttl` seconds. */
  function ExpiryAfter(ttl: Option<int>, now: int): Option<int> {
    if ttl.Some? then Some(now + ttl.value) else None
  }

  /** The live value at `key` in a string table at instant `now`. */
  function Lookup(strings: map<string, Entry>, key: string, now: int): Option<string> {
    if key in strings && Alive(strings[key].expireAt, now) then Some(strings[key].value) else None
  }

  /** A time-to-live the store accepts: none, or a positive number of seconds (`EX 0` is an error reply). */
  predicate ValidTtl(ttl: Option<int>) {
    ttl.None? || ttl.value > 0
  }

  /** What `INCR` replies given the current value: the new count, or an error. */
  function IncrementOf(current: Option<string>): Option<int> {
    if current.None? then Some(1)
    else match ParseDecimal(current.value)
      case None => None
      case Some(n) => if n < LONG_MAX then Some(n + 1) else None
  }

  /** The pending list without the records carrying `id`. */
  function WithoutId(pending: seq<StreamRecord>, id: nat): (r: seq<StreamRecord>)
    ensures |r| <= |pending|
    ensures forall i :: 0 <= i < |r| ==> r[i].id != id
  {
    if pending == [] then []
    else if pending[0].id == id then WithoutId(pending[1..], id)
    else [pending[0]] + WithoutId(pending[1..], id)
  }

  /** Acknowledging only removes records: what is left was pending before. */
  lemma {:induction false} WithoutIdKeeps(pending: seq<StreamRecord>, id: nat)
    ensures forall x :: x in WithoutId(pending, id) ==> x in pending
  {
    if pending != [] {
      WithoutIdKeeps(pending[1..], id);
    }
  }

  class KeyValueStore {
    var strings: map<string, Entry>
    var hashes: map<string, HashEntry>
    var sets: map<string, set<string>>
    var zsets: map<string, ZSet>
    /** The records of `stream.orders`, oldest first. */
    var stream: seq<StreamRecord>
    /** How many records group `g1` has delivered (its last-delivered cursor). */
    var delivered: nat
    /** Delivered but unacknowledged records of consumer `c1`, oldest first. */
    var pending: seq<StreamRecord>

    constructor ()
      ensures strings == map[] && hashes == map[] && sets == map[] && zsets == map[]
      ensures stream == [] && delivered == 0 && pending == []
    {
      strings, hashes, sets, zsets := map[], map[], map[], map[];
      stream, delivered, pending := [], 0, [];
    }

    // ----- strings -----

    /** `GET key` */
    function Get(key: string, now: int): Option<string>
      reads this
    {
      Lookup(strings, key, now)
    }

    /** `SET key value [EX ttl]`; the store answers a non-positive `ttl` with an error, so callers check it first. */
    method Set(key: string, value: string, ttl: Option<int>, now: int)
      requires ValidTtl(ttl)
      modifies this`strings
      ensures strings == old(strings)[key := Entry(value, ExpiryAfter(ttl, now))]
    {
      strings := strings[key := Entry(value, ExpiryAfter(ttl, now))];
    }

    /** `SET key value NX [EX ttl]`: writes only when the key is absent. */
    method SetIfAbsent(key: string, value: string, ttl: Option<int>, now: int) returns (ok: bool)
      requires ValidTtl(ttl)
      modifies this`strings
      ensures ok <==> old(Get(key, now)).None?
      ensures strings == if ok then old(strings)[key := Entry(value, ExpiryAfter(ttl, now))] else old(strings)
    {
      ok := Get(key, now).None?;
      if ok {
        strings := strings[key := Entry(value, ExpiryAfter(ttl, now))];
      }
    }

    /** Compare-and-delete run as one script: deletes the key only while it holds `expected`. */
    method CompareAndDelete(key: string, expected: string, now: int) returns (deleted: bool)
      modifies this`strings
      ensures deleted <==> old(Get(key, now)) == Some(expected)
      ensures strings == if deleted then old(strings) - {key} else old(strings)
    {
      deleted := Get(key, now) == Some(expected);
      if deleted {
        strings := strings - {key};
      }
    }

    /** `INCR key`: a missing key counts from 0; a non-number or an overflow is an error. */
    method Increment(key: string, now: int) returns (r: Option<int>)
      modifies this`strings
      ensures r == IncrementOf(old(Get(key, now)))
      ensures r.Some? ==> strings == old(strings)[key := Entry(DecimalString(r.value),
                            if old(Get(key, now)).Some? then old(strings)[key].expireAt else None)]
      ensures r.None? ==> strings == old(strings)
      ensures r.Some? ==> Get(key, now) == Some(DecimalString(r.value))
    {
      var current := Get(key, now);
      r := IncrementOf(current);
      if r.Some? {
        var expiry := if current.Some? then strings[key].expireAt else None;
        strings := strings[key := Entry(DecimalString(r.value), expiry)];
      }
    }

    // ----- keys of any type -----

    /** `EXISTS key` */
    function Exists(key: string, now: int): bool
      reads this
    {
      Get(key, now).Some?
      || (key in hashes && Alive(hashes[key].expireAt, now))
      || (key in sets && sets[key] != {})
      || (key in zsets && zsets[key] != map[])
    }

    /** `DEL key` */
    method Delete(key: string)
      modifies this`strings, this`hashes, this`sets, this`zsets
      ensures strings == old(strings) - {key} && hashes == old(hashes) - {key}
      ensures sets == old(sets) - {key} && zsets == old(zsets) - {key}
    {
      strings, hashes, sets, zsets := strings - {key}, hashes - {key}, sets - {key}, zsets - {key};
    }

    /** Since the pre-state, the hash, set and sorted-set tables lost exactly `keys`. */
    twostate predicate OtherTablesLost(keys: set<string>)
      reads this
    {
      hashes == old(hashes) - keys && sets == old(sets) - keys && zsets == old(zsets) - keys
    }

    // ----- hashes -----

    /** The live fields of a hash (empty when absent). */
    function HashFields(key: string, now: int): map<string, string>
      reads this
    {
      if key in hashes && Alive(hashes[key].expireAt, now) then hashes[key].fields else map[]
    }

    /** `HSET key f1 v1 f2 v2 ...`: merges the fields into the hash, keeping its expiry. */
    method HashPutAll(key: string, fields: map<string, string>, now: int)
      modifies this`hashes
      ensures hashes == old(hashes)[key := HashEntry(old(HashFields(key, now)) + fields,
                          if key in old(hashes) && Alive(old(hashes)[key].expireAt, now)
                          then old(hashes)[key].expireAt else None)]
    {
      var live := key in hashes && Alive(hashes[key].expireAt, now);
      hashes := hashes[key := HashEntry(HashFields(key, now) + fields, if live then hashes[key].expireAt else None)];
    }

    /** `EXPIRE key seconds` on a hash. */
    method ExpireHash(key: string, seconds: int, now: int) returns (ok: bool)
      modifies this`hashes
      ensures ok <==> key in old(hashes) && Alive(old(hashes)[key].expireAt, now)
      ensures hashes == if ok then old(hashes)[key := HashEntry(old(hashes)[key].fields, Some(now + seconds))]
                        else old(hashes)
    {
      ok := key in hashes && Alive(hashes[key].expireAt, now);
      if ok {
        hashes := hashes[key := HashEntry(hashes[key].fields, Some(now + seconds))];
      }
    }

    // ----- sets -----

    /** `SMEMBERS key` */
    function Members(key: string): set<string>
      reads this
    {
      if key in sets then sets[key] else {}
    }

    /** `SADD key member` */
    method SetAdd(key: string, member: string)
      modifies this`sets
      ensures sets == old(sets)[key := old(Members(key)) + {member}]
    {
      sets := sets[key := Members(key) + {member}];
    }

    /** `SREM key member` */
    method SetRemove(key: string, member: string)
      modifies this`sets
      ensures sets == old(sets)[key := old(Members(key)) - {member}]
    {
      sets := sets[key := Members(key) - {member}];
    }

    /** `SINTER key1 key2` */
    function Intersect(key1: string, key2: string): set<string>
      reads this
    {
      Members(key1) * Members(key2)
    }

    // ----- sorted sets -----

    /** The sorted set at `key` (empty when absent). */
    function ZSetAt(key: string): ZSet
      reads this
    {
      if key in zsets then zsets[key] else map[]
    }

    /** `ZSCORE key member` */
    function Score(key: string, member: string): Option<int>
      reads this
    {
      if member in ZSetAt(key) then Some(ZSetAt(key)[member]) else None
    }

    /** `ZADD key score member` (a present member gets the new score). */
    method ZAdd(key: string, member: string, score: int)
      modifies this`zsets
      ensures zsets == old(zsets)[key := old(ZSetAt(key))[member := score]]
    {
      zsets := zsets[key := ZSetAt(key)[member := score]];
    }

    /** `ZREM key member` */
    method ZRemove(key: string, member: string)
      modifies this`zsets
      ensures zsets == old(zsets)[key := old(ZSetAt(key)) - {member}]
    {
      zsets := zsets[key := ZSetAt(key) - {member}];
    }

    // ----- the order stream -----

    /** `XREADGROUP GROUP g1 c1 COUNT 1 STREAMS stream.orders >`: the next undelivered record, now pending. */
    method ReadNew() returns (r: Option<StreamRecord>)
      modifies this`delivered, this`pending
      ensures old(delivered) < |stream| ==>
                r == Some(stream[old(delivered)]) && delivered == old(delivered) + 1
                && pending == old(pending) + [stream[old(delivered)]]
      ensures old(delivered) >= |stream| ==>
                r.None? && delivered == old(delivered) && pending == old(pending)
    {
      if delivered < |stream| {
        r := Some(stream[delivered]);
        pending := pending + [stream[delivered]];
        delivered := delivered + 1;
      } else {
        r := None;
      }
    }

    /** `XREADGROUP GROUP g1 c1 COUNT 1 STREAMS stream.orders 0`: the oldest pending record. */
    function FirstPending(): Option<StreamRecord>
      reads this
    {
      if pending == [] then None else Some(pending[0])
    }

    /** `XACK stream.orders g1 id` */
    method Ack(id: nat)
      modifies this`pending
      ensures pending == WithoutId(old(pending), id)
    {
      pending := WithoutId(pending, id);
    }
  }
}
