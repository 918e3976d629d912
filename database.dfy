/**
 * The relational tables the services use, as in-memory state. Each field is
 * one table; `nextVoucherId`, `nextBlogId` and `nextUserId` are the
 * auto-increment counters that assign the ids of inserted rows.
 */
module Database {
  import opened Entities

  class Tables {
    /** `tb_voucher`, by id. */
    var vouchers: map<int, Voucher>
    var nextVoucherId: int
    /** `tb_seckill_voucher`, by voucher id. */
    var seckill: map<int, SeckillVoucher>
    /** `tb_voucher_order`, in insertion order. */
    var orders: seq<VoucherOrder>
    /** `tb_shop`, by id. */
    var shops: map<int, Shop>
    /** `tb_blog`, by id. */
    var blogs: map<int, Blog>
    var nextBlogId: int
    /** `tb_follow`, in insertion order. */
    var follows: seq<Follow>
    /** `tb_user`, by id. */
    var users: map<int, User>
    var nextUserId: int

    constructor ()
      ensures vouchers == map[] && seckill == map[] && orders == [] && shops == map[]
      ensures blogs == map[] && follows == [] && users == map[]
      ensures nextVoucherId == 1 && nextBlogId == 1 && nextUserId == 1
    {
      vouchers, seckill, orders, shops := map[], map[], [], map[];
      blogs, follows, users := map[], [], map[];
      nextVoucherId, nextBlogId, nextUserId := 1, 1, 1;
    }
  }
}
