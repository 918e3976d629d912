/**
 * Creating a flash-sale voucher (VoucherServiceImpl.java): one transaction
 * inserts the voucher row and its stock row, then the fast stock counter of
 * the admission script is seeded in the store.
 */
module VoucherService {
  import opened Common
  import opened Entities
  import opened Store
  import opened Database
  import opened RedisConstants

  /** The store key of a voucher's fast stock counter. */
  function StockKey(voucherId: int): string {
    SECKILL_STOCK_KEY + DecimalString(voucherId)
  }

  /** The `tb_voucher` row stored for a request: its assigned id, without the non-column fields. */
  function VoucherRow(voucher: Voucher, id: int): Voucher {
    voucher.(id := Some(id), stock := None, beginTime := None, endTime := None)
  }

  class VoucherServiceImpl {
    const store: KeyValueStore
    const db: Tables

    constructor (store: KeyValueStore, db: Tables)
      ensures this.store == store && this.db == db
    {
      this.store := store;
      this.db := db;
    }

    /**
     * `addSeckillVoucher(voucher)`. The voucher gets the next auto-increment
     * id; the stock row copies its id, stock and sale window; the counter
     * holds the stock as decimal text, with no expiry. A missing stock, or an
     * id whose rows already exist, throws and the transaction leaves the
     * tables as they were. Some(id): the id the voucher was given.
     */
    method AddSeckillVoucher(voucher: Voucher, now: int) returns (r: Option<int>)
      modifies db`vouchers, db`nextVoucherId, db`seckill, store`strings
      ensures var id := old(db.nextVoucherId);
              r.Some? <==> voucher.stock.Some? && id !in old(db.vouchers) && id !in old(db.seckill)
      ensures r.None? ==>
                db.vouchers == old(db.vouchers) && db.nextVoucherId == old(db.nextVoucherId)
                && db.seckill == old(db.seckill) && store.strings == old(store.strings)
      ensures r.Some? ==>
                var id := r.value;
                var stock := voucher.stock.value;
                && id == old(db.nextVoucherId) && db.nextVoucherId == id + 1
                && db.vouchers == old(db.vouchers)[id := VoucherRow(voucher, id)]
                && db.seckill == old(db.seckill)[id := SeckillVoucher(id, stock, voucher.beginTime, voucher.endTime)]
                && store.strings == old(store.strings)[StockKey(id) := Entry(DecimalString(stock), None)]
                && ParseDecimal(store.Get(StockKey(id), now).value) == Some(stock)
    {
      var id := db.nextVoucherId;
      if voucher.stock.None? || id in db.vouchers || id in db.seckill {
        return None;
      }
      db.vouchers := db.vouchers[id := VoucherRow(voucher, id)];
      db.nextVoucherId := id + 1;
      var stock := voucher.stock.value;
      db.seckill := db.seckill[id := SeckillVoucher(id, stock, voucher.beginTime, voucher.endTime)];
      store.Set(StockKey(id), DecimalString(stock), None, now);
      DecimalRoundTrip(stock);
      return Some(id);
    }
  }

  /** Distinct vouchers have distinct counter keys. */
  lemma StockKeysDistinct(v1: int, v2: int)
    requires v1 != v2
    ensures StockKey(v1) != StockKey(v2)
  {
    if StockKey(v1) == StockKey(v2) {
      assert DecimalString(v1) == StockKey(v1)[|SECKILL_STOCK_KEY|..];
      assert DecimalString(v2) == StockKey(v2)[|SECKILL_STOCK_KEY|..];
      DecimalInjective(v1, v2);
    }
  }
}
