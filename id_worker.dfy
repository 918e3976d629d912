/**
 * Globally unique order ids (RedisIdWorker.java): the seconds elapsed since
 * 2022-01-01T00:00Z in the high bits, and a per-prefix, per-day counter kept
 * in the store in the low 32 bits. The composition is written with Java's
 * 64-bit `long` semantics: a left shift keeps the low 64 bits and the result
 * is read back as a two's-complement value.
 */
module IdWorker {
  import opened Common
  import opened Store

  /** Epoch second of 2022-01-01T00:00:00Z. */
  const BEGIN_TIMESTAMP: int := 1640995200
  /** Width of the counter part. */
  const COUNT_BITS: nat := 32

  const TWO_32: int := 0x1_0000_0000
  const TWO_63: int := 0x8000_0000_0000_0000
  const TWO_64: int := 0x1_0000_0000_0000_0000

  // ---------------------------------------------------------------------
  // Calendar: LocalDateTime and its epoch second at offset UTC
  // ---------------------------------------------------------------------

  datatype DateTime = DateTime(year: int, month: int, day: int, hour: int, minute: int, second: int)

  predicate IsLeapYear(y: int) {
    (y % 4 == 0 && y % 100 != 0) || y % 400 == 0
  }

  function DaysInMonth(y: int, m: int): int {
    if m == 2 then (if IsLeapYear(y) then 29 else 28)
    else if m == 4 || m == 6 || m == 9 || m == 11 then 30
    else 31
  }

  /** A date-time with calendar fields in range and a four-digit year. */
  predicate ValidDateTime(t: DateTime) {
    1 <= t.year <= 9999 && 1 <= t.month <= 12 && 1 <= t.day <= DaysInMonth(t.year, t.month)
    && 0 <= t.hour < 24 && 0 <= t.minute < 60 && 0 <= t.second < 60
  }

  /** Days from 1970-01-01 to the given proleptic Gregorian date. */
  function DaysFromCivil(y: int, m: int, d: int): int {
    var y1 := if m <= 2 then y - 1 else y;
    var era := y1 / 400;
    var yoe := y1 - era * 400;
    var doy := (153 * (if m > 2 then m - 3 else m + 9) + 2) / 5 + d - 1;
    var doe := yoe * 365 + yoe / 4 - yoe / 100 + doy;
    era * 146097 + doe - 719468
  }

  /** `LocalDateTime.toEpochSecond(ZoneOffset.UTC)` */
  function EpochSecond(t: DateTime): int {
    DaysFromCivil(t.year, t.month, t.day) * 86400 + t.hour * 3600 + t.minute * 60 + t.second
  }

  /** `nowSecond - BEGIN_TIMESTAMP`: the seconds from the begin timestamp to `t`. */
  function SinceBegin(t: DateTime): int {
    EpochSecond(t) - BEGIN_TIMESTAMP
  }

  /** The begin timestamp is the epoch second of 2022-01-01T00:00:00 read as UTC. */
  lemma BeginIsNewYear2022()
    ensures ValidDateTime(DateTime(2022, 1, 1, 0, 0, 0))
    ensures EpochSecond(DateTime(2022, 1, 1, 0, 0, 0)) == BEGIN_TIMESTAMP
  {
  }

  /** The decimal digits of `n`, left-padded with zeros to `width` characters. */
  function Padded(n: nat, width: nat): (s: string)
    ensures |s| >= width
  {
    var digits := NatString(n);
    if |digits| < width then seq(width - |digits|, _ => '0') + digits else digits
  }

  /** `now.format(DateTimeFormatter.ofPattern("yyyy:MM:dd"))` */
  function DateText(t: DateTime): string
    requires ValidDateTime(t)
  {
    Padded(t.year, 4) + ":" + Padded(t.month, 2) + ":" + Padded(t.day, 2)
  }

  predicate SameDay(t1: DateTime, t2: DateTime) {
    t1.year == t2.year && t1.month == t2.month && t1.day == t2.day
  }

  /** The store key of the counter for `keyPrefix` on the day of `t`. */
  function CounterKey(keyPrefix: string, t: DateTime): string
    requires ValidDateTime(t)
  {
    "icr:" + keyPrefix + ":" + DateText(t)
  }

  // ---------------------------------------------------------------------
  // 64-bit arithmetic of Java longs
  // ---------------------------------------------------------------------

  function Pow2(k: nat): (p: nat)
    ensures p >= 1
  {
    if k == 0 then 1 else 2 * Pow2(k - 1)
  }

  lemma {:induction false} Pow2Add(a: nat, b: nat)
    ensures Pow2(a + b) == Pow2(a) * Pow2(b)
    decreases a
  {
    if a > 0 {
      Pow2Add(a - 1, b);
      assert Pow2(a + b) == 2 * Pow2(a - 1 + b);
    }
  }

  lemma Pow2Of32()
    ensures Pow2(COUNT_BITS) == TWO_32
  {
    assert Pow2(4) == 16;
    Pow2Add(4, 4);
    Pow2Add(8, 8);
    Pow2Add(16, 16);
  }

  /** The low 64 bits of `x`, as an unsigned number. */
  function Unsigned(x: int): (u: nat)
    ensures u < TWO_64
  {
    x % TWO_64
  }

  /** The two's-complement `long` whose low 64 bits are those of `x`. */
  function Wrap(x: int): (w: int)
    ensures -TWO_63 <= w < TWO_63
    ensures 0 <= x < TWO_63 ==> w == x
  {
    var u := Unsigned(x);
    if u >= TWO_63 then u - TWO_64 else u
  }

  /** Bitwise or of two naturals, bit by bit from the least significant. */
  function BitOr(a: nat, b: nat): nat
    decreases a + b
  {
    if a == 0 then b
    else if b == 0 then a
    else 2 * BitOr(a / 2, b / 2) + (if a % 2 == 1 || b % 2 == 1 then 1 else 0)
  }

  /** Or-ing a value below 2^k into a multiple of 2^k is addition. */
  lemma {:induction false} BitOrLowBits(a: nat, b: nat, k: nat)
    requires b < Pow2(k)
    ensures BitOr(a * Pow2(k), b) == a * Pow2(k) + b
    decreases k
  {
    if k > 0 && a != 0 && b != 0 {
      var q := Pow2(k - 1);
      assert a * Pow2(k) == 2 * (a * q);
      assert (a * Pow2(k)) / 2 == a * q && (a * Pow2(k)) % 2 == 0;
      BitOrLowBits(a, b / 2, k - 1);
    }
  }

  lemma {:induction false} BitOrSelf(a: nat)
    ensures BitOr(a, a) == a
    decreases a
  {
    if a > 0 {
      BitOrSelf(a / 2);
    }
  }

  /** `timestamp << COUNT_BITS` on a long. */
  function ShiftLeft(x: int): int {
    Wrap(Unsigned(x) * TWO_32)
  }

  /** `x | y` on longs. */
  function Or(x: int, y: int): int {
    Wrap(BitOr(Unsigned(x), Unsigned(y)))
  }

  /** `timestamp << COUNT_BITS | count` */
  function ComposeId(timestamp: int, count: int): int {
    Or(ShiftLeft(timestamp), count)
  }

  /** `id >> COUNT_BITS` (an arithmetic shift is a floor division). */
  function TimestampOf(id: int): int {
    id / TWO_32
  }

  /** `id & 0xFFFFFFFFL` */
  function CountOf(id: int): int {
    id % TWO_32
  }

  /** Timestamps the composition can carry without touching the sign bit (until 2090). */
  predicate TimestampInRange(timestamp: int) {
    0 <= timestamp < TWO_63 / TWO_32
  }

  predicate CountInRange(count: int) {
    0 <= count < TWO_32
  }

  /** Within range the composition is exact: timestamp * 2^32 + count. */
  lemma ComposeExact(timestamp: int, count: int)
    requires TimestampInRange(timestamp) && CountInRange(count)
    ensures ComposeId(timestamp, count) == timestamp * TWO_32 + count
  {
    var shifted := timestamp * TWO_32;
    assert 0 <= shifted < TWO_63;
    assert ShiftLeft(timestamp) == shifted;
    Pow2Of32();
    BitOrLowBits(timestamp, count, COUNT_BITS);
    assert BitOr(shifted, count) == shifted + count;
  }

  /** The high bits give back the timestamp, the low 32 bits the count. */
  lemma DecodeId(timestamp: int, count: int)
    requires TimestampInRange(timestamp) && CountInRange(count)
    ensures ComposeId(timestamp, count) >= 0
    ensures TimestampOf(ComposeId(timestamp, count)) == timestamp
    ensures CountOf(ComposeId(timestamp, count)) == count
  {
    ComposeExact(timestamp, count);
  }

  /** Distinct (timestamp, count) pairs in range give distinct ids. */
  lemma ComposeInjective(t1: int, c1: int, t2: int, c2: int)
    requires TimestampInRange(t1) && CountInRange(c1) && TimestampInRange(t2) && CountInRange(c2)
    requires ComposeId(t1, c1) == ComposeId(t2, c2)
    ensures t1 == t2 && c1 == c2
  {
    DecodeId(t1, c1);
    DecodeId(t2, c2);
  }

  /** Ids order by timestamp first, then by count. */
  lemma ComposeOrdered(t1: int, c1: int, t2: int, c2: int)
    requires TimestampInRange(t1) && CountInRange(c1) && TimestampInRange(t2) && CountInRange(c2)
    ensures t1 < t2 ==> ComposeId(t1, c1) < ComposeId(t2, c2)
    ensures t1 == t2 && c1 < c2 ==> ComposeId(t1, c1) < ComposeId(t2, c2)
  {
    ComposeExact(t1, c1);
    ComposeExact(t2, c2);
    if t1 < t2 {
      assert t1 * TWO_32 + TWO_32 <= t2 * TWO_32;
    }
  }

  /** A count of 2^32 spills into the timestamp bits: different timestamps, same id. */
  lemma CountOverflowCorruptsTimestamp()
    ensures ComposeId(0, TWO_32) == ComposeId(1, TWO_32) == TWO_32
    ensures TimestampOf(ComposeId(0, TWO_32)) != 0
  {
    BitOrSelf(TWO_32);
    assert ShiftLeft(1) == TWO_32;
    assert ShiftLeft(0) == 0;
  }

  /**
   * Any count from 2^32 up (and below the sign bit) spills into the
   * timestamp bits: composed with timestamp 0 it reads back as timestamp
   * count / 2^32, and that timestamp composed with the same count gives the
   * same id.
   */
  lemma CountOverflowSpills(count: int)
    requires TWO_32 <= count < TWO_63
    ensures ComposeId(0, count) == count
    ensures TimestampOf(ComposeId(0, count)) == count / TWO_32 > 0
    ensures ComposeId(count / TWO_32, count) == ComposeId(0, count)
  {
    var t := count / TWO_32;
    var r := count % TWO_32;
    var high := t * TWO_32;
    assert high + r == count;
    assert 0 < high <= count;
    assert Unsigned(0) == 0 && ShiftLeft(0) == 0;
    assert Unsigned(count) == count;
    assert Unsigned(t) == t;
    assert ShiftLeft(t) == high;
    assert Unsigned(high) == high;
    Pow2Of32();
    BitOrHighBits(t, r, COUNT_BITS);
  }

  /** Or-ing a multiple of 2^k into itself plus a value below 2^k changes nothing. */
  lemma {:induction false} BitOrHighBits(a: nat, r: nat, k: nat)
    requires r < Pow2(k)
    ensures BitOr(a * Pow2(k), a * Pow2(k) + r) == a * Pow2(k) + r
    decreases k
  {
    if k == 0 {
      BitOrSelf(a);
    } else if a != 0 {
      var q := Pow2(k - 1);
      var x := a * Pow2(k);
      assert x == 2 * (a * q);
      assert x / 2 == a * q && x % 2 == 0;
      assert (x + r) / 2 == a * q + r / 2 && (x + r) % 2 == r % 2;
      BitOrHighBits(a, r / 2, k - 1);
    }
  }

  // ---------------------------------------------------------------------
  // nextId
  // ---------------------------------------------------------------------

  /** The counter value `v` is absent or a number in [0, bound). */
  predicate CounterBelow(v: Option<string>, bound: int) {
    v.None? || (ParseDecimal(v.value).Some? && 0 <= ParseDecimal(v.value).value < bound)
  }

  /**
   * The id `nextId` replies when the day's counter holds `counter` and
   * `timestamp` seconds have passed since the begin timestamp.
   */
  function NextIdOf(counter: Option<string>, timestamp: int): Option<int> {
    var count := IncrementOf(counter);
    if count.Some? then Some(ComposeId(timestamp, count.value)) else None
  }

  /**
   * `nextId(keyPrefix)` at local time `now`; `clock` is the store's clock.
   * The reply is None when the store's increment fails.
   */
  method NextId(kv: KeyValueStore, keyPrefix: string, now: DateTime, clock: int) returns (id: Option<int>)
    requires ValidDateTime(now)
    modifies kv`strings
    ensures var key := CounterKey(keyPrefix, now);
            var count := IncrementOf(old(kv.Get(key, clock)));
            && id == NextIdOf(old(kv.Get(key, clock)), SinceBegin(now))
            && kv.strings == (if count.Some?
                              then old(kv.strings)[key := Entry(DecimalString(count.value),
                                     if old(kv.Get(key, clock)).Some? then old(kv.strings)[key].expireAt else None)]
                              else old(kv.strings))
    ensures var count := IncrementOf(old(kv.Get(CounterKey(keyPrefix, now), clock)));
            count.Some? ==> kv.Get(CounterKey(keyPrefix, now), clock) == Some(DecimalString(count.value))
  {
    var timestamp := SinceBegin(now);
    ghost var counter := kv.Get(CounterKey(keyPrefix, now), clock);
    var count := kv.Increment(CounterKey(keyPrefix, now), clock);
    assert count == IncrementOf(counter);
    if count.Some? {
      id := Some(ComposeId(timestamp, count.value));
    } else {
      id := None;
    }
  }

  /** A counter below the bound increments twice without error, by one each time. */
  lemma CounterSteps(v: Option<string>) returns (c: int)
    requires CounterBelow(v, TWO_32 - 2)
    ensures IncrementOf(v) == Some(c) && 1 <= c < TWO_32 - 1
    ensures IncrementOf(Some(DecimalString(c))) == Some(c + 1)
  {
    c := IncrementOf(v).value;
    DecimalRoundTrip(c);
  }

  /** Two date-times on the same day share their counter key. */
  lemma SameDayKey(keyPrefix: string, t1: DateTime, t2: DateTime)
    requires ValidDateTime(t1) && ValidDateTime(t2) && SameDay(t1, t2)
    ensures CounterKey(keyPrefix, t1) == CounterKey(keyPrefix, t2)
  {
  }

  /**
   * Replies of two consecutive calls on one counter: the second sees the count
   * the first stored, and its id is strictly larger when the clock has not
   * gone back.
   */
  lemma SecondIdLarger(counter: Option<string>, t1: int, t2: int)
    requires TimestampInRange(t1) && TimestampInRange(t2) && t1 <= t2
    requires CounterBelow(counter, TWO_32 - 2)
    ensures IncrementOf(counter).Some?
    ensures var stored := Some(DecimalString(IncrementOf(counter).value));
            && NextIdOf(counter, t1).Some? && NextIdOf(stored, t2).Some?
            && NextIdOf(counter, t1).value < NextIdOf(stored, t2).value
  {
    var c := CounterSteps(counter);
    NextCountLarger(t1, t2, c);
  }

  /** One more on the count, and no earlier timestamp, gives a larger id. */
  lemma NextCountLarger(t1: int, t2: int, c: int)
    requires TimestampInRange(t1) && TimestampInRange(t2) && t1 <= t2
    requires 0 <= c < TWO_32 - 1
    ensures ComposeId(t1, c) < ComposeId(t2, c + 1)
  {
    ComposeOrdered(t1, c, t2, c + 1);
    ComposeOrdered(t1, c, t1, c + 1);
  }

  /**
   * Two calls with the same prefix on the same day, the second no earlier than
   * the first, give two ids, the second strictly larger.
   */
  method NextIdTwice(kv: KeyValueStore, keyPrefix: string, first: DateTime, second: DateTime, clock: int)
      returns (id1: Option<int>, id2: Option<int>)
    requires ValidDateTime(first) && ValidDateTime(second) && SameDay(first, second)
    requires TimestampInRange(SinceBegin(first))
    requires TimestampInRange(SinceBegin(second))
    requires SinceBegin(first) <= SinceBegin(second)
    requires CounterBelow(kv.Get(CounterKey(keyPrefix, first), clock), TWO_32 - 2)
    modifies kv`strings
    ensures id1.Some? && id2.Some? && id1.value < id2.value
  {
    var key := CounterKey(keyPrefix, first);
    SameDayKey(keyPrefix, first, second);
    ghost var counter := kv.Get(key, clock);
    SecondIdLarger(counter, SinceBegin(first), SinceBegin(second));
    id1 := NextId(kv, keyPrefix, first, clock);
    id2 := NextId(kv, keyPrefix, second, clock);
  }
}
