/**
 * The flash-sale order path (VoucherOrderServiceImpl.java).
 *
 * The admission script checks the fast stock counter and the buyer's earlier
 * purchase, and queues admitted orders on the order stream; its text is not
 * part of this model, so `SeckillVoucher` takes its reply as given. A single
 * consumer drains the stream: it takes the buyer's order lock, writes the
 * order under the durable rule of `createVoucherOrder` (one order per buyer
 * and voucher, a conditional decrement of the stock row) and acknowledges the
 * record; when handling fails the record stays pending and the recovery loop
 * replays the pending list.
 */
module SeckillOrders {
  import opened Common
  import opened Entities
  import opened Store
  import opened Database
  import opened IdWorker

  const STOCK_EMPTY := "库存不足"
  const DUPLICATE_ORDER := "不能重复下单"
  const ORDER_LOCK_PREFIX := "lock:order:"

  // ---------------------------------------------------------------------
  // The durable rule of createVoucherOrder, on table values
  // ---------------------------------------------------------------------

  /** A condition on order rows, as the queries of the service filter them. */
  datatype Filter = ByBuyer(userId: int, voucherId: int) | ByVoucher(voucherId: int)

  predicate Matches(f: Filter, o: VoucherOrder) {
    match f
    case ByBuyer(u, v) => o.userId == u && o.voucherId == v
    case ByVoucher(v) => o.voucherId == v
  }

  /** Orders satisfying `f`, counted. */
  function CountWhere(orders: seq<VoucherOrder>, f: Filter): (n: nat)
    ensures n <= |orders|
    decreases |orders|
  {
    if orders == [] then 0
    else CountWhere(orders[..|orders| - 1], f) + (if Matches(f, orders[|orders| - 1]) then 1 else 0)
  }

  lemma {:induction false} CountWhereZero(orders: seq<VoucherOrder>, f: Filter)
    ensures CountWhere(orders, f) == 0 <==> forall i :: 0 <= i < |orders| ==> !Matches(f, orders[i])
    decreases |orders|
  {
    if orders != [] {
      var init := orders[..|orders| - 1];
      CountWhereZero(init, f);
      assert forall i :: 0 <= i < |init| ==> init[i] == orders[i];
    }
  }

  lemma CountWhereAppend(orders: seq<VoucherOrder>, o: VoucherOrder, f: Filter)
    ensures CountWhere(orders + [o], f) == CountWhere(orders, f) + (if Matches(f, o) then 1 else 0)
  {
    assert (orders + [o])[..|orders|] == orders;
  }

  /** `query().eq("user_id", userId).eq("voucher_id", voucherId).count()` */
  function CountOrders(orders: seq<VoucherOrder>, userId: int, voucherId: int): nat {
    CountWhere(orders, ByBuyer(userId, voucherId))
  }

  /** Orders sold for a voucher. */
  function Sold(orders: seq<VoucherOrder>, voucherId: int): nat {
    CountWhere(orders, ByVoucher(voucherId))
  }

  /** An order with this id is already saved (its insert would violate the primary key). */
  predicate IdTaken(orders: seq<VoucherOrder>, id: int) {
    exists i :: 0 <= i < |orders| && orders[i].id == id
  }

  /** How `createVoucherOrder` ends. */
  datatype CreateOutcome =
    | AlreadyOrdered   // the buyer already has an order for the voucher: nothing written
    | OutOfStock       // the conditional decrement matched no row: nothing written
    | Saved            // stock decremented and order inserted
    | SaveFailed       // the insert threw; the transaction undid the decrement

  function CreateOutcomeOf(seckill: map<int, SeckillVoucher>, orders: seq<VoucherOrder>, o: VoucherOrder): CreateOutcome {
    if CountOrders(orders, o.userId, o.voucherId) > 0 then AlreadyOrdered
    else if !(o.voucherId in seckill && seckill[o.voucherId].stock > 0) then OutOfStock
    else if IdTaken(orders, o.id) then SaveFailed
    else Saved
  }

  /** The stock rows after `createVoucherOrder(o)`. */
  function StockAfter(seckill: map<int, SeckillVoucher>, orders: seq<VoucherOrder>, o: VoucherOrder): (r: map<int, SeckillVoucher>)
    ensures r.Keys == seckill.Keys
  {
    if CreateOutcomeOf(seckill, orders, o) == Saved
    then seckill[o.voucherId := seckill[o.voucherId].(stock := seckill[o.voucherId].stock - 1)]
    else seckill
  }

  /** The order rows after `createVoucherOrder(o)`. */
  function OrdersAfter(seckill: map<int, SeckillVoucher>, orders: seq<VoucherOrder>, o: VoucherOrder): seq<VoucherOrder> {
    if CreateOutcomeOf(seckill, orders, o) == Saved then orders + [o] else orders
  }

  /** No stock row is negative. */
  predicate StockNonNegative(seckill: map<int, SeckillVoucher>) {
    forall v :: v in seckill ==> seckill[v].stock >= 0
  }

  /** At most one order per (buyer, voucher). */
  predicate OnePerBuyer(orders: seq<VoucherOrder>) {
    forall i, j :: 0 <= i < j < |orders| ==>
      !(orders[i].userId == orders[j].userId && orders[i].voucherId == orders[j].voucherId)
  }

  /** Order ids are distinct. */
  predicate DistinctIds(orders: seq<VoucherOrder>) {
    forall i, j :: 0 <= i < j < |orders| ==> orders[i].id != orders[j].id
  }

  predicate OrdersValid(seckill: map<int, SeckillVoucher>, orders: seq<VoucherOrder>) {
    StockNonNegative(seckill) && OnePerBuyer(orders) && DistinctIds(orders)
  }

  /** A buyer with an order already changes nothing. */
  lemma DuplicateChangesNothing(seckill: map<int, SeckillVoucher>, orders: seq<VoucherOrder>, o: VoucherOrder)
    requires exists i :: 0 <= i < |orders| && orders[i].userId == o.userId && orders[i].voucherId == o.voucherId
    ensures CreateOutcomeOf(seckill, orders, o) == AlreadyOrdered
    ensures StockAfter(seckill, orders, o) == seckill && OrdersAfter(seckill, orders, o) == orders
  {
    CountWhereZero(orders, ByBuyer(o.userId, o.voucherId));
  }

  /** Stock moves by exactly one, only down, only from a positive row, and only with a saved order. */
  lemma DecrementOnlyFromPositive(seckill: map<int, SeckillVoucher>, orders: seq<VoucherOrder>, o: VoucherOrder)
    ensures var after := StockAfter(seckill, orders, o);
            forall v :: v in seckill ==>
              after[v].stock == seckill[v].stock - (if v == o.voucherId && CreateOutcomeOf(seckill, orders, o) == Saved then 1 else 0)
    ensures CreateOutcomeOf(seckill, orders, o) == Saved ==> seckill[o.voucherId].stock > 0
    ensures |OrdersAfter(seckill, orders, o)| == |orders| + (if CreateOutcomeOf(seckill, orders, o) == Saved then 1 else 0)
  {
  }

  /** The invariants hold after every call. */
  lemma CreatePreservesValid(seckill: map<int, SeckillVoucher>, orders: seq<VoucherOrder>, o: VoucherOrder)
    requires OrdersValid(seckill, orders)
    ensures OrdersValid(StockAfter(seckill, orders, o), OrdersAfter(seckill, orders, o))
  {
    if CreateOutcomeOf(seckill, orders, o) == Saved {
      CountWhereZero(orders, ByBuyer(o.userId, o.voucherId));
      var after := orders + [o];
      forall i, j | 0 <= i < j < |after|
        ensures !(after[i].userId == after[j].userId && after[i].voucherId == after[j].voucherId)
        ensures after[i].id != after[j].id
      {
        if j == |orders| {
          assert after[i] == orders[i];
        }
      }
    }
  }

  /** Stock plus orders sold is the same before and after, for every voucher. */
  lemma CreateConservesStock(seckill: map<int, SeckillVoucher>, orders: seq<VoucherOrder>, o: VoucherOrder)
    ensures var after := StockAfter(seckill, orders, o);
            var ordersAfter := OrdersAfter(seckill, orders, o);
            forall v :: v in seckill ==> after[v].stock + Sold(ordersAfter, v) == seckill[v].stock + Sold(orders, v)
  {
    if CreateOutcomeOf(seckill, orders, o) == Saved {
      forall v | v in seckill
        ensures Sold(orders + [o], v) == Sold(orders, v) + (if v == o.voucherId then 1 else 0)
      {
        CountWhereAppend(orders, o, ByVoucher(v));
      }
    }
  }

  /** The tables after handling a batch of orders one after the other. */
  function ProcessAll(seckill: map<int, SeckillVoucher>, orders: seq<VoucherOrder>, batch: seq<VoucherOrder>)
    : (map<int, SeckillVoucher>, seq<VoucherOrder>)
    decreases |batch|
  {
    if batch == [] then (seckill, orders)
    else ProcessAll(StockAfter(seckill, orders, batch[0]), OrdersAfter(seckill, orders, batch[0]), batch[1..])
  }

  /**
   * No overselling: whatever orders arrive, the invariants hold and every
   * voucher's orders never exceed its starting stock plus what it had sold.
   */
  lemma {:induction false} ProcessAllNeverOversells(seckill: map<int, SeckillVoucher>, orders: seq<VoucherOrder>,
                                                    batch: seq<VoucherOrder>)
    requires OrdersValid(seckill, orders)
    ensures var (s, os) := ProcessAll(seckill, orders, batch);
            && OrdersValid(s, os)
            && s.Keys == seckill.Keys
            && (forall v :: v in seckill ==> s[v].stock + Sold(os, v) == seckill[v].stock + Sold(orders, v))
            && (forall v :: v in seckill ==> Sold(os, v) <= seckill[v].stock + Sold(orders, v))
    decreases |batch|
  {
    if batch != [] {
      var o := batch[0];
      CreatePreservesValid(seckill, orders, o);
      CreateConservesStock(seckill, orders, o);
      ProcessAllNeverOversells(StockAfter(seckill, orders, o), OrdersAfter(seckill, orders, o), batch[1..]);
    }
  }

  // ---------------------------------------------------------------------
  // The admission reply
  // ---------------------------------------------------------------------

  /** `Long.intValue()`: the low 32 bits, read as a signed int. */
  function IntValue(x: int): int {
    var u := x % TWO_32;
    if u >= TWO_32 / 2 then u - TWO_32 else u
  }

  /** The reply of `seckillVoucher` to a script reply `code` for order `orderId`. */
  function SeckillReply(code: int, orderId: int): Result<int> {
    var r := IntValue(code);
    if r != 0 then Fail(if r == 1 then STOCK_EMPTY else DUPLICATE_ORDER) else Ok(orderId)
  }

  /** 0 admits with the pre-generated id, 1 is sold out, any other int reply is a repeat purchase. */
  lemma SeckillReplyCodes(code: int, orderId: int)
    requires -TWO_32 / 2 <= code < TWO_32 / 2
    ensures code == 0 ==> SeckillReply(code, orderId) == Ok(orderId)
    ensures code == 1 ==> SeckillReply(code, orderId) == Fail(STOCK_EMPTY)
    ensures code != 0 && code != 1 ==> SeckillReply(code, orderId) == Fail(DUPLICATE_ORDER)
  {
  }

  /** Replies beyond the int range are truncated first: 2^32 admits, 2^32 + 1 is sold out. */
  lemma SeckillReplyTruncates(orderId: int)
    ensures SeckillReply(TWO_32, orderId) == Ok(orderId)
    ensures SeckillReply(TWO_32 + 1, orderId) == Fail(STOCK_EMPTY)
  {
  }

  /** The lock key serialising one buyer's orders. */
  function OrderLockKey(userId: int): string {
    ORDER_LOCK_PREFIX + DecimalString(userId)
  }

  // ---------------------------------------------------------------------
  // The order consumer, on values
  // ---------------------------------------------------------------------

  /** The tables and the pending list the order consumer reads and writes. */
  datatype OrderState = OrderState(seckill: map<int, SeckillVoucher>, orders: seq<VoucherOrder>,
                                   pending: seq<StreamRecord>)

  /** Nobody holds the lock of the buyer of `o` in the string table `locks`. */
  predicate LockFree(locks: map<string, Entry>, o: VoucherOrder, now: int) {
    Lookup(locks, OrderLockKey(o.userId), now).None?
  }

  /** Two string tables agree on every live value: only dead entries differ. */
  ghost predicate SameLive(a: map<string, Entry>, b: map<string, Entry>, now: int) {
    forall k :: Lookup(a, k, now) == Lookup(b, k, now)
  }

  /** Taking a free lock and releasing it leaves every live entry as it was. */
  lemma ReleaseKeepsLive(locks: map<string, Entry>, key: string, now: int)
    requires Lookup(locks, key, now).None?
    ensures SameLive(locks - {key}, locks, now)
  {
  }

  lemma SameLiveTrans(a: map<string, Entry>, b: map<string, Entry>, c: map<string, Entry>, now: int)
    requires SameLive(a, b, now) && SameLive(b, c, now)
    ensures SameLive(a, c, now)
  {
  }

  /** `handleVoucherOrder(o)` throws: it got the lock and the insert failed. */
  predicate HandleThrows(s: OrderState, locks: map<string, Entry>, o: VoucherOrder, now: int) {
    LockFree(locks, o, now) && CreateOutcomeOf(s.seckill, s.orders, o) == SaveFailed
  }

  /** The tables after `handleVoucherOrder(o)`: a busy lock changes nothing; otherwise the order is created. */
  function AfterHandle(s: OrderState, locks: map<string, Entry>, o: VoucherOrder, now: int): OrderState {
    if !LockFree(locks, o, now) then s
    else s.(seckill := StockAfter(s.seckill, s.orders, o), orders := OrdersAfter(s.seckill, s.orders, o))
  }

  /**
   * One turn of `handlePendingList()`: the oldest pending record is handled
   * and acknowledged, unless the handler threw, in which case it stays at the
   * head. Acknowledging drops every pending record with that id.
   */
  function Turn(s: OrderState, locks: map<string, Entry>, now: int): (t: OrderState)
    requires s.pending != []
    ensures |t.pending| <= |s.pending|
    ensures !HandleThrows(s, locks, s.pending[0].order, now) ==> |t.pending| < |s.pending|
    ensures t.seckill.Keys == s.seckill.Keys
  {
    var head := s.pending[0];
    var t := AfterHandle(s, locks, head.order, now);
    if HandleThrows(s, locks, head.order, now) then t
    else
      assert WithoutId(s.pending, head.id) == WithoutId(s.pending[1..], head.id);
      t.(pending := WithoutId(t.pending, head.id))
  }

  /** Where the recovery loop stops, and whether it stopped because the pending list was empty. */
  datatype Recovery = Recovery(state: OrderState, drained: bool)

  /**
   * `handlePendingList()`, run for at most `rounds` turns against the lock
   * table `locks`: each turn handles the oldest pending record and
   * acknowledges it unless the handler threw; a throwing record stays at the
   * head and is retried on the next turn. `r.drained`: the loop met an
   * empty pending list.
   */
  function Recover(s: OrderState, locks: map<string, Entry>, now: int, rounds: nat): (r: Recovery)
    ensures r.drained ==> r.state.pending == []
    ensures |r.state.pending| <= |s.pending|
    ensures r.state.seckill.Keys == s.seckill.Keys
    decreases rounds
  {
    if rounds == 0 then Recovery(s, false)
    else if s.pending == [] then Recovery(s, true)
    else Recover(Turn(s, locks, now), locks, now, rounds - 1)
  }

  /** One step of recovery, unfolded. */
  lemma RecoverStep(s: OrderState, locks: map<string, Entry>, now: int, rounds: nat)
    requires rounds > 0 && s.pending != []
    ensures Recover(s, locks, now, rounds) == Recover(Turn(s, locks, now), locks, now, rounds - 1)
  {
  }

  /** The handler sees only live lock entries: tables that agree on them give the same outcome. */
  lemma HandleSameLive(s: OrderState, a: map<string, Entry>, b: map<string, Entry>, o: VoucherOrder, now: int)
    requires SameLive(a, b, now)
    ensures AfterHandle(s, a, o, now) == AfterHandle(s, b, o, now)
    ensures HandleThrows(s, a, o, now) == HandleThrows(s, b, o, now)
  {
    assert Lookup(a, OrderLockKey(o.userId), now) == Lookup(b, OrderLockKey(o.userId), now);
  }

  /** A turn is decided by the handler's outcome and the acknowledgement it leads to. */
  lemma TurnFromParts(before: OrderState, live: map<string, Entry>, locks: map<string, Entry>, now: int,
                      thrown: bool, mid: OrderState, after: OrderState)
    requires before.pending != [] && SameLive(live, locks, now)
    requires thrown == HandleThrows(before, live, before.pending[0].order, now)
    requires mid == AfterHandle(before, live, before.pending[0].order, now)
    requires after == if thrown then mid else mid.(pending := WithoutId(mid.pending, before.pending[0].id))
    ensures after == Turn(before, locks, now)
  {
    HandleSameLive(before, live, locks, before.pending[0].order, now);
  }

  lemma RecoverSameLiveStep(s: OrderState, t: OrderState, a: map<string, Entry>, b: map<string, Entry>, now: int,
                            rounds: nat)
    requires rounds > 0 && s.pending != [] && t == Turn(s, a, now) && t == Turn(s, b, now)
    requires Recover(t, a, now, rounds - 1) == Recover(t, b, now, rounds - 1)
    ensures Recover(s, a, now, rounds) == Recover(s, b, now, rounds)
  {
    RecoverStep(s, a, now, rounds);
    RecoverStep(s, b, now, rounds);
  }

  /** Recovery against tables that agree on live entries ends in the same place. */
  lemma {:induction false} RecoverSameLive(s: OrderState, a: map<string, Entry>, b: map<string, Entry>, now: int, rounds: nat)
    requires SameLive(a, b, now)
    ensures Recover(s, a, now, rounds) == Recover(s, b, now, rounds)
    decreases rounds
  {
    if rounds > 0 && s.pending != [] {
      var h := s.pending[0];
      var t := Turn(s, a, now);
      HandleSameLive(s, a, b, h.order, now);
      TurnFromParts(s, a, b, now, HandleThrows(s, a, h.order, now), AfterHandle(s, a, h.order, now), t);
      RecoverSameLive(t, a, b, now, rounds - 1);
      RecoverSameLiveStep(s, t, a, b, now, rounds);
    }
  }

  /** Stock plus orders sold is unchanged for every voucher, and no voucher appears or disappears. */
  predicate StockConserved(s: OrderState, t: OrderState) {
    && t.seckill.Keys == s.seckill.Keys
    && forall v :: v in s.seckill ==> t.seckill[v].stock + Sold(t.orders, v) == s.seckill[v].stock + Sold(s.orders, v)
  }

  /**
   * `t` is reachable from `s` by handling orders: pending records are only
   * removed, order rows only appended, stock is conserved, and valid tables
   * stay valid.
   */
  predicate Advances(s: OrderState, t: OrderState) {
    && (forall x :: x in t.pending ==> x in s.pending)
    && s.orders <= t.orders
    && StockConserved(s, t)
    && (OrdersValid(s.seckill, s.orders) ==> OrdersValid(t.seckill, t.orders))
  }

  lemma PrefixTrans(a: seq<VoucherOrder>, b: seq<VoucherOrder>, c: seq<VoucherOrder>)
    requires a <= b && b <= c
    ensures a <= c
  {
    assert a == b[..|a|] && b == c[..|b|];
    assert c[..|b|][..|a|] == c[..|a|];
  }

  lemma AdvancesTrans(a: OrderState, b: OrderState, c: OrderState)
    requires Advances(a, b) && Advances(b, c)
    ensures Advances(a, c)
  {
    PrefixTrans(a.orders, b.orders, c.orders);
    forall v | v in a.seckill
      ensures c.seckill[v].stock + Sold(c.orders, v) == a.seckill[v].stock + Sold(a.orders, v)
    {
      assert v in b.seckill;
    }
  }

  /** Handling one order advances the state; the pending list is untouched. */
  lemma AfterHandleAdvances(s: OrderState, locks: map<string, Entry>, o: VoucherOrder, now: int)
    ensures var t := AfterHandle(s, locks, o, now);
            Advances(s, t) && t.pending == s.pending
  {
    if LockFree(locks, o, now) {
      if OrdersValid(s.seckill, s.orders) {
        CreatePreservesValid(s.seckill, s.orders, o);
      }
      CreateConservesStock(s.seckill, s.orders, o);
    }
  }

  lemma TurnAdvances(s: OrderState, locks: map<string, Entry>, now: int)
    requires s.pending != []
    ensures Advances(s, Turn(s, locks, now))
  {
    var o := s.pending[0].order;
    AfterHandleAdvances(s, locks, o, now);
    WithoutIdKeeps(s.pending, s.pending[0].id);
  }

  /**
   * Recovery only removes pending records and only appends order rows; it
   * keeps the table invariants and never creates or loses stock.
   */
  lemma {:induction false} RecoverAdvances(s: OrderState, locks: map<string, Entry>, now: int, rounds: nat)
    ensures Advances(s, Recover(s, locks, now, rounds).state)
    decreases rounds
  {
    if rounds == 0 || s.pending == [] {
      AdvancesRefl(s);
    } else {
      var t := Turn(s, locks, now);
      TurnAdvances(s, locks, now);
      RecoverAdvances(t, locks, now, rounds - 1);
      AdvancesStep(s, t, locks, now, rounds);
    }
  }

  lemma AdvancesRefl(s: OrderState)
    ensures Advances(s, s)
  {
  }

  /** A turn followed by the rest of recovery advances the state. */
  lemma AdvancesStep(s: OrderState, t: OrderState, locks: map<string, Entry>, now: int, rounds: nat)
    requires rounds > 0 && s.pending != [] && t == Turn(s, locks, now)
    requires Advances(s, t) && Advances(t, Recover(t, locks, now, rounds - 1).state)
    ensures Advances(s, Recover(s, locks, now, rounds).state)
  {
    RecoverStep(s, locks, now, rounds);
    AdvancesTrans(s, t, Recover(t, locks, now, rounds - 1).state);
  }

  /**
   * A head record whose handling throws blocks the list for good: the loop
   * never drains, no record is acknowledged and no table changes.
   */
  lemma {:induction false} RecoverStuck(s: OrderState, locks: map<string, Entry>, now: int, rounds: nat)
    requires s.pending != [] && HandleThrows(s, locks, s.pending[0].order, now)
    ensures Recover(s, locks, now, rounds) == Recovery(s, false)
    decreases rounds
  {
    if rounds > 0 {
      var t := Turn(s, locks, now);
      TurnStuck(s, locks, now);
      RecoverStuck(t, locks, now, rounds - 1);
      RecoverStep(s, locks, now, rounds);
    }
  }

  /** A throwing head changes nothing: the insert's transaction is undone and the record stays. */
  lemma TurnStuck(s: OrderState, locks: map<string, Entry>, now: int)
    requires s.pending != [] && HandleThrows(s, locks, s.pending[0].order, now)
    ensures Turn(s, locks, now) == s
  {
  }

  /** What recovery guarantees, gathered for its callers. */
  lemma RecoverFacts(s: OrderState, locks: map<string, Entry>, now: int, rounds: nat)
    ensures Advances(s, Recover(s, locks, now, rounds).state)
    ensures s.pending != [] && HandleThrows(s, locks, s.pending[0].order, now) ==> Recover(s, locks, now, rounds) == Recovery(s, false)
  {
    RecoverAdvances(s, locks, now, rounds);
    if s.pending != [] && HandleThrows(s, locks, s.pending[0].order, now) {
      RecoverStuck(s, locks, now, rounds);
    }
  }

  /** If the saved order at `i` reuses `p`'s order id, it belongs to `p`'s buyer and voucher. */
  predicate ReplayableAt(orders: seq<VoucherOrder>, p: StreamRecord, i: int) {
    0 <= i < |orders| && orders[i].id == p.order.id ==>
      orders[i].userId == p.order.userId && orders[i].voucherId == p.order.voucherId
  }

  /** Any saved order whose id a pending record reuses belongs to that record's buyer and voucher. */
  predicate Replayable(orders: seq<VoucherOrder>, pending: seq<StreamRecord>) {
    forall p, i {:trigger ReplayableAt(orders, p, i)} :: p in pending && 0 <= i < |orders| ==> ReplayableAt(orders, p, i)
  }

  /** Two records carrying the same order id carry the same buyer and voucher. */
  predicate SameIdSameOrder(p: StreamRecord, q: StreamRecord) {
    p.order.id == q.order.id ==> p.order.userId == q.order.userId && p.order.voucherId == q.order.voucherId
  }

  /** Records carrying the same order id carry the same buyer and voucher. */
  predicate ConsistentIds(pending: seq<StreamRecord>) {
    forall p, q {:trigger SameIdSameOrder(p, q)} :: p in pending && q in pending ==> SameIdSameOrder(p, q)
  }

  /** Under `Replayable` the insert cannot fail: the buyer's earlier order is found first. */
  lemma ReplayNeverThrows(s: OrderState, locks: map<string, Entry>, p: StreamRecord, now: int)
    requires Replayable(s.orders, s.pending) && p in s.pending
    ensures !HandleThrows(s, locks, p.order, now)
  {
    if CreateOutcomeOf(s.seckill, s.orders, p.order) == SaveFailed {
      var i :| 0 <= i < |s.orders| && s.orders[i].id == p.order.id;
      assert ReplayableAt(s.orders, p, i);
      CountWhereZero(s.orders, ByBuyer(p.order.userId, p.order.voucherId));
    }
  }

  /** Creating the order of a pending record keeps the replay conditions. */
  lemma ReplayAfterCreate(seckill: map<int, SeckillVoucher>, orders: seq<VoucherOrder>, r: StreamRecord,
                          pending: seq<StreamRecord>)
    requires Replayable(orders, pending) && ConsistentIds(pending) && r in pending
    ensures Replayable(OrdersAfter(seckill, orders, r.order), pending)
  {
    var after := OrdersAfter(seckill, orders, r.order);
    forall p, i | p in pending && 0 <= i < |after| ensures ReplayableAt(after, p, i) {
      if 0 <= i < |orders| {
        assert ReplayableAt(orders, p, i);
      } else {
        assert SameIdSameOrder(p, r);
      }
    }
  }

  /** The replay conditions hold for every part of a list they hold for. */
  lemma ReplaySubset(orders: seq<VoucherOrder>, a: seq<StreamRecord>, b: seq<StreamRecord>)
    requires Replayable(orders, a) && ConsistentIds(a)
    requires forall x :: x in b ==> x in a
    ensures Replayable(orders, b) && ConsistentIds(b)
  {
    forall p, i | p in b && 0 <= i < |orders| ensures ReplayableAt(orders, p, i) {
      assert ReplayableAt(orders, p, i);
    }
    forall p, q | p in b && q in b ensures SameIdSameOrder(p, q) {
      assert SameIdSameOrder(p, q);
    }
  }

  /** Under the replay conditions a turn acknowledges its record and keeps the conditions. */
  lemma ReplayStep(s: OrderState, t: OrderState, locks: map<string, Entry>, now: int)
    requires s.pending != [] && Replayable(s.orders, s.pending) && ConsistentIds(s.pending)
    requires t == Turn(s, locks, now)
    ensures Replayable(t.orders, t.pending) && ConsistentIds(t.pending) && |t.pending| < |s.pending|
  {
    ReplayNeverThrows(s, locks, s.pending[0], now);
    TurnAdvances(s, locks, now);
    ReplayAfterCreate(s.seckill, s.orders, s.pending[0], s.pending);
    assert t.orders == s.orders || t.orders == OrdersAfter(s.seckill, s.orders, s.pending[0].order);
    ReplaySubset(t.orders, s.pending, t.pending);
  }

  /**
   * When no pending record can make the handler throw, the recovery loop
   * acknowledges every record and drains the list within one more turn than
   * there are records.
   */
  lemma {:induction false} RecoverDrains(s: OrderState, locks: map<string, Entry>, now: int, rounds: nat)
    requires Replayable(s.orders, s.pending) && ConsistentIds(s.pending)
    requires rounds > |s.pending|
    ensures Recover(s, locks, now, rounds).drained
    decreases |s.pending|
  {
    if s.pending != [] {
      var t := Turn(s, locks, now);
      ReplayStep(s, t, locks, now);
      var k := rounds - 1;
      RecoverDrains(t, locks, now, k);
      DrainStep(s, t, locks, now, rounds, k);
    } else {
      RecoverEmpty(s, locks, now, rounds);
    }
  }

  /** Recovery on an empty pending list stops at once and reports it drained. */
  lemma RecoverEmpty(s: OrderState, locks: map<string, Entry>, now: int, rounds: nat)
    requires rounds > 0 && s.pending == []
    ensures Recover(s, locks, now, rounds) == Recovery(s, true)
  {
  }

  /**
   * The Java loop has no round bound: it runs until the pending read comes
   * back empty. Once the bounded loop has drained, more rounds change
   * nothing, so its result is the unbounded loop's.
   */
  lemma {:induction false} RecoverDrainedStable(s: OrderState, locks: map<string, Entry>, now: int, rounds: nat, more: nat)
    requires rounds <= more && Recover(s, locks, now, rounds).drained
    ensures Recover(s, locks, now, more) == Recover(s, locks, now, rounds)
    decreases rounds
  {
    if s.pending == [] {
      RecoverEmpty(s, locks, now, rounds);
      RecoverEmpty(s, locks, now, more);
    } else {
      var t := Turn(s, locks, now);
      RecoverStep(s, locks, now, rounds);
      RecoverStep(s, locks, now, more);
      RecoverDrainedStable(t, locks, now, rounds - 1, more - 1);
    }
  }

  /** Recovery reports success when the list is empty, or when the rest of it drains after one turn. */
  lemma DrainStep(s: OrderState, t: OrderState, locks: map<string, Entry>, now: int, rounds: nat, k: nat)
    requires s.pending != [] && t == Turn(s, locks, now) && rounds == k + 1
    requires Recover(t, locks, now, k).drained
    ensures Recover(s, locks, now, rounds).drained
  {
    RecoverStep(s, locks, now, rounds);
  }

  /**
   * One turn of the consumer loop on a record `r` read from the stream: the
   * record joins the pending list and is handled; without an exception it is
   * acknowledged, otherwise the recovery loop runs for at most `rounds` turns.
   */
  function ConsumeOne(s: OrderState, locks: map<string, Entry>, r: StreamRecord, now: int, rounds: nat): (t: OrderState)
    ensures Advances(s.(pending := s.pending + [r]), t)
    ensures !HandleThrows(s, locks, r.order, now) ==> forall x :: x in t.pending ==> x.id != r.id && x in s.pending
  {
    var s1 := s.(pending := s.pending + [r]);
    var h := AfterHandle(s1, locks, r.order, now);
    AfterHandleAdvances(s1, locks, r.order, now);
    if HandleThrows(s, locks, r.order, now) then
      RecoverAdvances(h, locks, now, rounds);
      AdvancesTrans(s1, h, Recover(h, locks, now, rounds).state);
      Recover(h, locks, now, rounds).state
    else
      WithoutIdKeeps(h.pending, r.id);
      h.(pending := WithoutId(h.pending, r.id))
  }

  /** A consumer turn is decided by the handler's outcome and what follows it. */
  lemma ConsumeOneFromParts(s: OrderState, locks: map<string, Entry>, r: StreamRecord, now: int, rounds: nat,
                            thrown: bool, live: map<string, Entry>, after: OrderState)
    requires SameLive(live, locks, now)
    requires thrown == HandleThrows(s.(pending := s.pending + [r]), locks, r.order, now)
    requires var h := AfterHandle(s.(pending := s.pending + [r]), locks, r.order, now);
             after == if thrown then Recover(h, live, now, rounds).state else h.(pending := WithoutId(h.pending, r.id))
    ensures after == ConsumeOne(s, locks, r, now, rounds)
  {
    if thrown {
      RecoverSameLive(AfterHandle(s.(pending := s.pending + [r]), locks, r.order, now), live, locks, now, rounds);
    }
  }

  /** The orders carried by a run of records. */
  function OrdersOf(records: seq<StreamRecord>): (batch: seq<VoucherOrder>)
    ensures |batch| == |records|
    ensures forall i :: 0 <= i < |records| ==> batch[i] == records[i].order
  {
    if records == [] then [] else [records[0].order] + OrdersOf(records[1..])
  }

  /** The consumer loop over a run of records read one after the other. */
  function ConsumeAll(s: OrderState, locks: map<string, Entry>, records: seq<StreamRecord>, now: int, rounds: nat): OrderState
    decreases |records|
  {
    if records == [] then s else ConsumeAll(ConsumeOne(s, locks, records[0], now, rounds), locks, records[1..], now, rounds)
  }

  /**
   * With no buyer lock held and no record able to make the handler throw,
   * the consumer writes exactly the tables of creating the orders one after
   * the other, and acknowledges every record it read.
   */
  lemma {:induction false} ConsumeAllIsProcessAll(s: OrderState, locks: map<string, Entry>, records: seq<StreamRecord>,
                                                  now: int, rounds: nat)
    requires forall i :: 0 <= i < |records| ==> LockFree(locks, records[i].order, now)
    requires Replayable(s.orders, records) && ConsistentIds(records)
    ensures var t := ConsumeAll(s, locks, records, now, rounds);
            && (t.seckill, t.orders) == ProcessAll(s.seckill, s.orders, OrdersOf(records))
            && forall i, j :: 0 <= i < |t.pending| && 0 <= j < |records| ==>
                 t.pending[i] in s.pending && t.pending[i].id != records[j].id
    decreases |records|
  {
    if records != [] {
      var r := records[0];
      ReplayNeverThrows(s.(pending := records), locks, r, now);
      var t := ConsumeOne(s, locks, r, now, rounds);
      assert t.seckill == StockAfter(s.seckill, s.orders, r.order);
      assert t.orders == OrdersAfter(s.seckill, s.orders, r.order);
      var rest := records[1..];
      ReplayAfterCreate(s.seckill, s.orders, r, records);
      ReplaySubset(t.orders, records, rest);
      assert OrdersOf(records)[1..] == OrdersOf(rest);
      ConsumeAllIsProcessAll(t, locks, rest, now, rounds);
      var u := ConsumeAll(t, locks, rest, now, rounds);
      forall i, j | 0 <= i < |u.pending| && 0 <= j < |records|
        ensures u.pending[i] in s.pending && u.pending[i].id != records[j].id
      {
        if j > 0 {
          assert records[j] == rest[j - 1];
        }
      }
    }
  }

  // ---------------------------------------------------------------------
  // The service
  // ---------------------------------------------------------------------

  class VoucherOrderServiceImpl {
    const store: KeyValueStore
    const db: Tables
    /** The lock-owner identity of the consumer thread. */
    const consumer: string

    constructor (store: KeyValueStore, db: Tables, consumer: string)
      ensures this.store == store && this.db == db && this.consumer == consumer
    {
      this.store := store;
      this.db := db;
      this.consumer := consumer;
    }

    /** The tables and the pending list the order consumer works on. */
    function State(): OrderState
      reads store, db
    {
      OrderState(db.seckill, db.orders, store.pending)
    }

    /**
     * `seckillVoucher(voucherId)` for buyer `userId`: an order id is drawn
     * first, then the admission script runs on (voucher id, buyer id, order
     * id) and its reply decides the answer. None: drawing the id threw.
     */
    method SeckillVoucher(voucherId: int, userId: int, now: DateTime, clock: int,
                          script: (string, string, string) -> int) returns (r: Option<Result<int>>)
      requires ValidDateTime(now)
      modifies store`strings
      ensures var key := CounterKey("order", now);
              var count := IncrementOf(old(store.Get(key, clock)));
              && (count.None? ==> r.None? && store.strings == old(store.strings))
              && (count.Some? ==>
                    var orderId := ComposeId(SinceBegin(now), count.value);
                    && r == Some(SeckillReply(script(DecimalString(voucherId), DecimalString(userId), DecimalString(orderId)), orderId))
                    && key in store.strings && store.strings[key].value == DecimalString(count.value)
                    && store.strings == old(store.strings)[key := store.strings[key]])
    {
      var orderId := NextId(store, "order", now, clock);
      if orderId.None? {
        return None;
      }
      var code := script(DecimalString(voucherId), DecimalString(userId), DecimalString(orderId.value));
      return Some(SeckillReply(code, orderId.value));
    }

    /** `createVoucherOrder(o)`, one transaction. */
    method CreateVoucherOrder(o: VoucherOrder) returns (outcome: CreateOutcome)
      modifies db`seckill, db`orders
      ensures outcome == CreateOutcomeOf(old(db.seckill), old(db.orders), o)
      ensures db.seckill == StockAfter(old(db.seckill), old(db.orders), o)
      ensures db.orders == OrdersAfter(old(db.seckill), old(db.orders), o)
    {
      var count := CountOrders(db.orders, o.userId, o.voucherId);
      if count > 0 {
        return AlreadyOrdered;
      }
      if !(o.voucherId in db.seckill && db.seckill[o.voucherId].stock > 0) {
        return OutOfStock;
      }
      var row := db.seckill[o.voucherId];
      db.seckill := db.seckill[o.voucherId := row.(stock := row.stock - 1)];
      if IdTaken(db.orders, o.id) {
        // the insert throws and the transaction restores the row
        db.seckill := db.seckill[o.voucherId := row];
        return SaveFailed;
      }
      db.orders := db.orders + [o];
      return Saved;
    }

    /**
     * `handleVoucherOrder(o)`: gives up quietly when the buyer's lock is
     * held; otherwise creates the order and releases the lock whatever
     * happened. `thrown`: the creation threw, and the exception propagates.
     */
    method HandleVoucherOrder(o: VoucherOrder, now: int) returns (thrown: bool)
      modifies store`strings, db`seckill, db`orders
      ensures old(store.Get(OrderLockKey(o.userId), now)).Some? ==>
                !thrown && store.strings == old(store.strings)
                && db.seckill == old(db.seckill) && db.orders == old(db.orders)
      ensures old(store.Get(OrderLockKey(o.userId), now)).None? ==>
                && thrown == (CreateOutcomeOf(old(db.seckill), old(db.orders), o) == SaveFailed)
                && store.strings == old(store.strings) - {OrderLockKey(o.userId)}
                && db.seckill == StockAfter(old(db.seckill), old(db.orders), o)
                && db.orders == OrdersAfter(old(db.seckill), old(db.orders), o)
      ensures thrown == HandleThrows(old(State()), old(store.strings), o, now)
      ensures State() == AfterHandle(old(State()), old(store.strings), o, now)
      ensures SameLive(store.strings, old(store.strings), now)
    {
      var lockKey := OrderLockKey(o.userId);
      var isLock := store.SetIfAbsent(lockKey, consumer, None, now);
      if !isLock {
        return false;
      }
      var outcome := CreateVoucherOrder(o);
      thrown := outcome == SaveFailed;
      var _ := store.CompareAndDelete(lockKey, consumer, now);
      ReleaseKeepsLive(old(store.strings), lockKey, now);
    }

    /** The pending record at the head would make the handler throw. */
    predicate HeadThrows(now: int)
      reads store, db
    {
      store.pending != [] && HandleThrows(State(), store.strings, store.pending[0].order, now)
    }

    /**
     * One turn of the loop in `handlePendingList()`: read the oldest pending
     * record; none means the list is drained; otherwise handle it and
     * acknowledge it unless the handler threw. `locks`: a lock table that
     * agrees with the current one on every live entry.
     */
    method HandleHead(ghost locks: map<string, Entry>, now: int) returns (empty: bool)
      requires SameLive(store.strings, locks, now)
      modifies store`strings, store`pending, db`seckill, db`orders
      ensures SameLive(store.strings, locks, now)
      ensures empty == (old(store.pending) == [])
      ensures empty ==> State() == old(State())
      ensures !empty ==> State() == Turn(old(State()), locks, now)
    {
      ghost var before := State();
      ghost var live := store.strings;
      var head := store.FirstPending();
      if head.None? {
        return true;
      }
      var record := head.value;
      var thrown := HandleVoucherOrder(record.order, now);
      ghost var mid := State();
      if !thrown {
        store.Ack(record.id);
      }
      TurnFromParts(before, live, locks, now, thrown, mid, State());
      SameLiveTrans(store.strings, live, locks, now);
      empty := false;
    }

    /**
     * `handlePendingList()`, with at most `rounds` turns of its loop. Each
     * turn takes the oldest pending record; a record handled without an
     * exception is acknowledged, one whose handling throws stays at the head.
     * `drained`: the loop ended because the pending list was empty.
     */
    method HandlePendingList(rounds: nat, now: int) returns (drained: bool)
      modifies store`strings, store`pending, db`seckill, db`orders
      ensures Recovery(State(), drained) == Recover(old(State()), old(store.strings), now, rounds)
      ensures SameLive(store.strings, old(store.strings), now)
      ensures old(OrdersValid(db.seckill, db.orders)) ==> OrdersValid(db.seckill, db.orders)
      ensures StockConserved(old(State()), State())
      ensures drained ==> store.pending == []
      ensures |store.pending| <= |old(store.pending)|
      ensures forall x :: x in store.pending ==> x in old(store.pending)
      ensures old(db.orders) <= db.orders
      ensures old(HeadThrows(now)) ==>
                !drained && store.pending == old(store.pending)
                && db.seckill == old(db.seckill) && db.orders == old(db.orders)
    {
      ghost var start := State();
      ghost var locks := store.strings;
      var round := 0;
      drained := false;
      while round < rounds && !drained
        invariant round <= rounds
        invariant SameLive(store.strings, locks, now)
        invariant Recover(start, locks, now, rounds) ==
                  if drained then Recovery(State(), true) else Recover(State(), locks, now, rounds - round)
        decreases rounds - round, if drained then 0 else 1
      {
        ghost var before := State();
        drained := HandleHead(locks, now);
        if !drained {
          RecoverStep(before, locks, now, rounds - round);
          round := round + 1;
        }
      }
      RecoverFacts(start, locks, now, rounds);
    }

    /**
     * One turn of the consumer loop in `VoucherOrderHandler.run`: read the
     * next record; nothing to read changes nothing; otherwise the record is
     * handled and acknowledged, or, when handling throws, left pending while
     * the recovery loop runs (at most `rounds` turns).
     */
    method ConsumerStep(now: int, rounds: nat) returns (record: Option<StreamRecord>, thrown: bool)
      modifies store`strings, store`delivered, store`pending, db`seckill, db`orders
      ensures old(OrdersValid(db.seckill, db.orders)) ==> OrdersValid(db.seckill, db.orders)
      ensures StockConserved(old(State()), State())
      ensures SameLive(store.strings, old(store.strings), now)
      ensures old(store.delivered) >= |store.stream| ==>
                record.None? && !thrown && store.delivered == old(store.delivered) && State() == old(State())
      ensures old(store.delivered) < |store.stream| ==>
                && record == Some(store.stream[old(store.delivered)]) && store.delivered == old(store.delivered) + 1
                && thrown == HandleThrows(old(State()), old(store.strings), record.value.order, now)
                && State() == ConsumeOne(old(State()), old(store.strings), record.value, now, rounds)
      ensures record.Some? && !thrown ==>
                store.pending == WithoutId(old(store.pending) + [record.value], record.value.id)
      ensures old(db.orders) <= db.orders
    {
      ghost var s := State();
      ghost var locks := store.strings;
      record := store.ReadNew();
      if record.None? {
        return None, false;
      }
      var r := record.value;
      ghost var s1 := State();
      thrown := HandleVoucherOrder(r.order, now);
      ghost var live := store.strings;
      AfterHandleAdvances(s1, locks, r.order, now);
      if !thrown {
        store.Ack(r.id);
      } else {
        var drained := HandlePendingList(rounds, now);
        SameLiveTrans(store.strings, live, locks, now);
      }
      ConsumeOneFromParts(s, locks, r, now, rounds, thrown, live, State());
    }
  }
}
