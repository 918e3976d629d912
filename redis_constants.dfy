/**
 * Key prefixes and time-to-live settings shared by the services. Their
 * defining file is not part of this model, so each is a constant whose value
 * the model does not fix; what the model relies on is stated with them.
 */
module RedisConstants {
  /** A positive duration. */
  type Pos = x: int | x > 0 witness 1

  /** Prefix of a cached shop, followed by the shop id. */
  const CACHE_SHOP_KEY: string
  /** Prefix of the rebuild lock of a cached shop, followed by the shop id. */
  const LOCK_SHOP_KEY: string
  /** Prefix of a pending login code, followed by the phone number. */
  const LOGIN_CODE_KEY: string
  /** Prefix of a login session hash, followed by the token. */
  const LOGIN_USER_KEY: string
  /** Prefix of the flash-sale stock counter, followed by the voucher id. */
  const SECKILL_STOCK_KEY: string
  /** Prefix of a blog's sorted set of likers, followed by the blog id. */
  const BLOG_LIKED_KEY: string
  /** Prefix of a user's feed (sorted set of blog ids), followed by the user id. */
  const FEED_KEY: string

  /** Minutes an empty marker for a missing row stays cached. */
  const CACHE_NULL_TTL: Pos
  /** Minutes a cached shop stays cached. */
  const CACHE_SHOP_TTL: Pos
  /** Seconds a shop rebuild lock is held at most. */
  const LOCK_SHOP_TTL: Pos
  /** Minutes a login code stays valid. */
  const LOGIN_CODE_TTL: Pos
  /** Minutes a login session lives after login. */
  const LOGIN_USER_TTL: Pos

  /** Seconds in `n` minutes (`TimeUnit.MINUTES`). */
  function Minutes(n: int): int {
    n * 60
  }
}
