/**
 * The records the services read and write: rows of the relational tables,
 * the DTOs handed back to callers, and the `Result` envelope every service
 * method returns. Nullable Java fields are `Option`s; times are integer
 * seconds of the one clock the model is given.
 */
module Entities {
  import opened Common

  /** A `tb_voucher` row, or the request that creates one. `stock`, `beginTime`
      and `endTime` travel with the request but are not columns of `tb_voucher`. */
  datatype Voucher = Voucher(
    id: Option<int>,
    shopId: Option<int>,
    title: string,
    payValue: Option<int>,
    actualValue: Option<int>,
    stock: Option<int>,
    beginTime: Option<int>,
    endTime: Option<int>)

  /** A `tb_seckill_voucher` row: the durable stock of one flash-sale voucher. */
  datatype SeckillVoucher = SeckillVoucher(voucherId: int, stock: int, beginTime: Option<int>, endTime: Option<int>)

  /** A `tb_voucher_order` row; also the payload of a stream record. */
  datatype VoucherOrder = VoucherOrder(id: int, userId: int, voucherId: int)

  /** A `tb_shop` row, reduced to its id and the rest of its columns. */
  datatype Shop = Shop(id: Option<int>, details: string)

  /** A `tb_blog` row with the transient `isLike` flag. */
  datatype Blog = Blog(id: int, userId: Option<int>, title: string, liked: int, isLike: Option<bool>)

  /** A `tb_follow` row: `userId` follows `followUserId`. */
  datatype Follow = Follow(userId: int, followUserId: int)

  /** A `tb_user` row. */
  datatype User = User(id: int, phone: string, nickName: Option<string>, icon: Option<string>)

  /** The part of a user that is handed out (UserDTO.java). */
  datatype UserDTO = UserDTO(id: int, nickName: Option<string>, icon: Option<string>)

  function ToDTO(u: User): UserDTO {
    UserDTO(u.id, u.nickName, u.icon)
  }

  /** One page of the follow feed (ScrollResult.java). */
  datatype ScrollResult = ScrollResult(list: seq<Blog>, minTime: int, offset: int)

  /** The reply of a service call: `Result.ok(data)` or `Result.fail(message)`. */
  datatype Result<+T> = Ok(data: T) | Fail(errorMsg: string)
}
