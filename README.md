# A verified model of the dianping commerce back end

This project models the service layer of a Spring/Redis local-commerce back end
(package `com.shyx`). The model covers these parts:

- shop lookups through a read-through cache;
- flash-sale vouchers with an asynchronous order pipeline;
- globally unique order ids;
- a key-value distributed lock;
- blog likes and a follow feed with scroll paging;
- following and common follows;
- phone-code login with a token session;
- salted password hashing;
- the input validators.

The model is written in Dafny. The shared key-value store (Redis) is the class
`Store.KeyValueStore`. Its state is:

- string values and hashes, each with an optional expiry instant;
- sets and sorted sets;
- the order stream, with its group's delivery cursor and its consumer's pending list.

The relational tables are the class `Database.Tables`, with one field per table
and one auto-increment counter per table that needs it. Each service is a class
holding references to both. Its methods change them as the Java code does and
state the whole new state. Pure parts are functions over values: id composition,
the feed cursor, regular expressions, password encoding, and the rules of order
creation. The lemmas about those functions carry the properties.

| file | models |
|---|---|
| `common.dfy` | nullable values, `Long.toString`/`Long.valueOf`, `StrUtil.isBlank`, the JSON codec |
| `entities.dfy` | entity rows, DTOs, `ScrollResult`, the `Result` envelope |
| `store.dfy` | the key-value store and the commands the services use |
| `database.dfy` | the tables |
| `redis_constants.dfy` | key prefixes and time-to-live settings |
| `sorted_set.dfy` | sorted-set order, `ZRANGE`, `ZREVRANGEBYSCORE ... LIMIT` |
| `id_worker.dfy` | `RedisIdWorker` |
| `simple_lock.dfy` | `SimpleRedisLock` |
| `cache_client.dfy` | `CacheClient`, `RedisData` |
| `shop_service.dfy` | `ShopServiceImpl` |
| `voucher_service.dfy` | `VoucherServiceImpl.addSeckillVoucher` |
| `seckill_orders.dfy` | `VoucherOrderServiceImpl` |
| `feed_cursor.dfy` | the scroll cursor of the follow feed |
| `blog_service.dfy` | `BlogServiceImpl` |
| `follow_service.dfy` | `FollowServiceImpl` |
| `user_service.dfy` | `UserServiceImpl` |
| `password.dfy` | `PasswordEncoder` |
| `regex.dfy` | `RegexUtils`, `RegexPatterns` |

### Assumptions the model states

These assumptions appear as `requires` clauses or as the types of constants:

- The defining file of the key prefixes and time-to-live settings is not part of
  this model. Those values are left open, and every time-to-live is taken to be
  positive (`RedisConstants.Pos`).
- `isBlogLiked` builds its key from the literal `"blog:liked:"`, while `likeBlog`
  uses `BLOG_LIKED_KEY`. `BlogServiceImpl.IsBlogLikedAgrees` holds only where the
  two are equal.
- A user row's id equals its table key (`KeyedById`).
- Set and sorted-set members that stand for users or blogs are their decimal ids.
- The JSON codec reads back what it writes (`Common.RoundTrips`), and MD5 yields
  32 hexadecimal characters (`Password.HexDigest`). Each is required only where
  it is used.
- User.java is not part of this model. A new user's fields other than phone and
  nickname are taken to be unset.

## Model

| member | source | states |
|---|---|---|
| Common.DecimalRoundTrip | src/main/java/com/shyx/service/impl/BlogServiceImpl.java:187 | `Long.valueOf` of an id's decimal text gives the id back |
| Common.DecimalInjective | src/main/java/com/shyx/service/impl/BlogServiceImpl.java:146 | distinct ids have distinct decimal texts, so `prefix + id` keys never collide |
| SortedSet.RangeByRank | src/main/java/com/shyx/service/impl/BlogServiceImpl.java:182 | `ZRANGE key start stop` returns the entries at ranks start..stop of the ascending order, each a member with its own score; from rank 0 it returns exactly min(size, stop + 1) entries, so `ZRANGE key 0 4` gives five when the set has five or more |
| SortedSet.AscendingInOrder | src/main/java/com/shyx/service/impl/BlogServiceImpl.java:182 | the rank order puts lower scores first and breaks ties by member text |
| SortedSet.AscendingComplete | src/main/java/com/shyx/service/impl/BlogServiceImpl.java:182 | every member of the sorted set has a rank |
| SortedSet.RangeByRankDistinct | src/main/java/com/shyx/service/impl/BlogServiceImpl.java:182 | a rank range lists no member twice |
| SortedSet.RangeByRankEarliest | src/main/java/com/shyx/service/impl/BlogServiceImpl.java:182 | a member left out of ranks 0..stop comes after every listed member |
| SortedSet.RangeByRankAll | src/main/java/com/shyx/service/impl/BlogServiceImpl.java:182 | when the set has at most stop+1 members, the range is the whole set in order |
| SortedSet.Descending | src/main/java/com/shyx/service/impl/BlogServiceImpl.java:249-250 | the reverse order lists every member once (as many entries as members, no member twice), with its score, scores never increasing |
| SortedSet.RevRangeByScore | src/main/java/com/shyx/service/impl/BlogServiceImpl.java:249-250 | `ZREVRANGEBYSCORE key max 0 LIMIT offset 3` returns at most 3 entries, all scored in [0, max], in descending order |
| SortedSet.ScoreBetweenDescends | src/main/java/com/shyx/service/impl/BlogServiceImpl.java:249-250 | filtering by score keeps the descending order |
| IdWorker.BeginIsNewYear2022 | src/main/java/com/shyx/utils/RedisIdWorker.java:22 | the begin timestamp is the epoch second of 2022-01-01T00:00:00 UTC |
| IdWorker.ComposeExact | src/main/java/com/shyx/utils/RedisIdWorker.java:51 | within range, the 64-bit `timestamp << 32 \| count` equals timestamp·2^32 + count |
| IdWorker.DecodeId | src/main/java/com/shyx/utils/RedisIdWorker.java:51 | an id is non-negative; its high bits give back the timestamp and its low 32 bits the count |
| IdWorker.ComposeInjective | src/main/java/com/shyx/utils/RedisIdWorker.java:51 | distinct (timestamp, count) pairs give distinct ids |
| IdWorker.ComposeOrdered | src/main/java/com/shyx/utils/RedisIdWorker.java:51 | ids order by timestamp, then by count |
| IdWorker.CountOverflowCorruptsTimestamp | src/main/java/com/shyx/utils/RedisIdWorker.java:51 | a count of exactly 2^32 spills into the timestamp bits: timestamps 0 and 1 give one id, and it reads back as timestamp 1 |
| IdWorker.CountOverflowSpills | src/main/java/com/shyx/utils/RedisIdWorker.java:51 | every count from 2^32 up to the sign bit spills: with timestamp 0 the id reads back as timestamp count / 2^32, and that timestamp with the same count gives the same id |
| IdWorker.NextId | src/main/java/com/shyx/utils/RedisIdWorker.java:38-53 | increments the day's counter `icr:prefix:yyyy:MM:dd` and returns the id composed from the seconds since the begin timestamp and the new count; a failed increment changes nothing |
| IdWorker.SecondIdLarger | src/main/java/com/shyx/utils/RedisIdWorker.java:38-53 | for a counter below 2^32 - 2, the reply of the next call (which sees the count the first call stored) is an id strictly larger than the first reply, whenever the timestamp has not gone back |
| IdWorker.NextCountLarger | src/main/java/com/shyx/utils/RedisIdWorker.java:51 | one more on the count with a timestamp no earlier gives a strictly larger composed id |
| IdWorker.NextIdTwice | src/main/java/com/shyx/utils/RedisIdWorker.java:38-53 | two calls on one day, the clock not going back, return strictly increasing ids |
| SimpleLock.SimpleRedisLock.constructor | src/main/java/com/shyx/utils/SimpleRedisLock.java:25-28 | the lock keeps its store and name |
| SimpleLock.SimpleRedisLock.TryLock | src/main/java/com/shyx/utils/SimpleRedisLock.java:48-55 | succeeds exactly when nobody holds `lock:name`, and then stores the caller's token with the timeout; a non-positive timeout throws (None) and changes nothing |
| SimpleLock.SimpleRedisLock.UnLock | src/main/java/com/shyx/utils/SimpleRedisLock.java:58-64 | deletes the key only when it holds the caller's own token |
| SimpleLock.SimpleRedisLock.TokenInjective | src/main/java/com/shyx/utils/SimpleRedisLock.java:50 | different threads have different tokens |
| SimpleLock.SimpleRedisLock.HandOver | src/main/java/com/shyx/utils/SimpleRedisLock.java:48-64 | another thread's release leaves the owner's lock in place, and after the owner's release the next thread gets the lock |
| Cache.CacheClient.Set | src/main/java/com/shyx/utils/CacheClient.java:44-49 | stores the value's JSON with the time-to-live; a non-positive time-to-live throws and stores nothing |
| Cache.CacheClient.SetWithLogicalExpire | src/main/java/com/shyx/utils/CacheClient.java:59-65 | stores an envelope carrying now + time, with no store expiry |
| Cache.CacheClient.QueryWithPassThrough | src/main/java/com/shyx/utils/CacheClient.java:78-107 | a live non-blank entry answers decoded; a blank entry answers null; a miss consults the loader and caches the row, or an empty marker for CACHE_NULL_TTL; caching a loaded row with a non-positive time-to-live throws and stores nothing |
| Cache.CacheClient.QueryTwice | src/main/java/com/shyx/utils/CacheClient.java:78-107 | with a positive time-to-live, an immediate second lookup never consults the loader and answers the same |
| ShopService.ShopServiceImpl.QueryWithPassThrough | src/main/java/com/shyx/service/impl/ShopServiceImpl.java:243-270 | the pass-through lookup of a shop: the cached answer, or the row, with the cache updated as above |
| ShopService.ShopServiceImpl.QueryById | src/main/java/com/shyx/service/impl/ShopServiceImpl.java:94-122 | the shop found through the cache, or a failure "店铺不存在" |
| ShopService.ShopServiceImpl.TryLock | src/main/java/com/shyx/service/impl/ShopServiceImpl.java:279-285 | sets the key to "1" for LOCK_SHOP_TTL seconds exactly when it is absent |
| ShopService.ShopServiceImpl.UnLock | src/main/java/com/shyx/service/impl/ShopServiceImpl.java:293-296 | deletes the key whoever holds it |
| ShopService.ShopServiceImpl.SaveShop2Redis | src/main/java/com/shyx/service/impl/ShopServiceImpl.java:305-316 | stores the row in an envelope expiring logically at now + expireSeconds, kept forever |
| ShopService.ShopServiceImpl.QueryWithLogicalExpire | src/main/java/com/shyx/service/impl/ShopServiceImpl.java:137-178 | blank or absent answers null; a live envelope answers its payload; an expired one answers its stale payload and, only if the lock was free, takes the lock and schedules one rebuild |
| ShopService.ShopServiceImpl.RunRebuild | src/main/java/com/shyx/service/impl/ShopServiceImpl.java:162-172 | the scheduled rebuild refreshes the envelope for 20 seconds, then deletes the lock |
| ShopService.ShopServiceImpl.FirstSettling | src/main/java/com/shyx/service/impl/ShopServiceImpl.java:206-211 | the first attempt that finds a cached entry or a free lock; every earlier attempt found neither |
| ShopService.ShopServiceImpl.MutexAttempt | src/main/java/com/shyx/service/impl/ShopServiceImpl.java:187-234 | one attempt: a cache hit answers; a taken lock changes nothing; otherwise the row is loaded, cached, and the lock key deleted in the `finally` |
| ShopService.ShopServiceImpl.QueryWithMutex | src/main/java/com/shyx/service/impl/ShopServiceImpl.java:187-234 | the retrying lookup settles at the first settling attempt and answers as that attempt does; the lock key is gone afterwards whenever a `finally` ran |
| ShopService.ShopServiceImpl.Update | src/main/java/com/shyx/service/impl/ShopServiceImpl.java:320-331 | a shop without id fails "店铺id不能为空"; otherwise the row is replaced and its cache entry deleted |
| ShopService.ShopServiceImpl.UpdateThenQuery | src/main/java/com/shyx/service/impl/ShopServiceImpl.java:320-331 | after an update, the next lookup answers the new row and caches it |
| VoucherService.VoucherServiceImpl.AddSeckillVoucher | src/main/java/com/shyx/service/impl/VoucherServiceImpl.java:55-67 | inserts the voucher row and its stock row under one new id and seeds the stock counter with the stock as decimal text; a missing stock or a taken id leaves everything unchanged |
| VoucherService.StockKeysDistinct | src/main/java/com/shyx/service/impl/VoucherServiceImpl.java:66 | distinct vouchers have distinct stock counters |
| SeckillOrders.CountWhereZero | src/main/java/com/shyx/service/impl/VoucherOrderServiceImpl.java:375-377 | the order count is zero exactly when no order matches |
| SeckillOrders.StockAfter | src/main/java/com/shyx/service/impl/VoucherOrderServiceImpl.java:384-388 | the conditional decrement never adds or removes a stock row |
| SeckillOrders.DuplicateChangesNothing | src/main/java/com/shyx/service/impl/VoucherOrderServiceImpl.java:375-382 | a buyer who already ordered the voucher changes nothing |
| SeckillOrders.DecrementOnlyFromPositive | src/main/java/com/shyx/service/impl/VoucherOrderServiceImpl.java:384-404 | stock drops by exactly one, only from a positive row, and only when an order is saved |
| SeckillOrders.CreatePreservesValid | src/main/java/com/shyx/service/impl/VoucherOrderServiceImpl.java:370-408 | non-negative stock, one order per buyer and voucher, and distinct order ids all survive every call |
| SeckillOrders.CreateConservesStock | src/main/java/com/shyx/service/impl/VoucherOrderServiceImpl.java:384-404 | stock plus orders sold stays constant for every voucher |
| SeckillOrders.ProcessAllNeverOversells | src/main/java/com/shyx/service/impl/VoucherOrderServiceImpl.java:370-408 | over any sequence of orders the invariants hold, and no voucher sells more than its starting stock |
| SeckillOrders.SeckillReplyCodes | src/main/java/com/shyx/service/impl/VoucherOrderServiceImpl.java:267-275 | script reply 0 admits with the drawn order id, 1 fails "库存不足", any other int fails "不能重复下单" |
| SeckillOrders.SeckillReplyTruncates | src/main/java/com/shyx/service/impl/VoucherOrderServiceImpl.java:267 | `intValue` truncates first: 2^32 admits and 2^32+1 is sold out |
| SeckillOrders.VoucherOrderServiceImpl.SeckillVoucher | src/main/java/com/shyx/service/impl/VoucherOrderServiceImpl.java:247-276 | draws an order id, runs the script on (voucher, buyer, order id), and answers by its reply; only the id counter changes |
| SeckillOrders.VoucherOrderServiceImpl.CreateVoucherOrder | src/main/java/com/shyx/service/impl/VoucherOrderServiceImpl.java:370-408 | the tables after one transactional call are those of the order-creation rule |
| SeckillOrders.ReleaseKeepsLive | src/main/java/com/shyx/service/impl/VoucherOrderServiceImpl.java:228-233 | taking a free buyer lock and deleting it in the `finally` leaves every live lock entry as it was |
| SeckillOrders.Turn | src/main/java/com/shyx/service/impl/VoucherOrderServiceImpl.java:136-163 | one turn of the recovery loop never lengthens the pending list, shortens it when the handler does not throw, and keeps the stock rows' vouchers |
| SeckillOrders.TurnAdvances | src/main/java/com/shyx/service/impl/VoucherOrderServiceImpl.java:136-163 | a turn keeps the table invariants and the stock balance, only appends orders, and leaves only records that were pending |
| SeckillOrders.Recover | src/main/java/com/shyx/service/impl/VoucherOrderServiceImpl.java:134-165 | the recovery loop over at most `rounds` turns: a drained result has an empty pending list, and the list never grows |
| SeckillOrders.RecoverAdvances | src/main/java/com/shyx/service/impl/VoucherOrderServiceImpl.java:134-165 | recovery keeps the invariants and the stock balance, only appends orders and only removes pending records |
| SeckillOrders.RecoverStuck | src/main/java/com/shyx/service/impl/VoucherOrderServiceImpl.java:153-163 | a head record whose handling throws is retried forever: recovery never drains and changes nothing |
| SeckillOrders.ReplayNeverThrows | src/main/java/com/shyx/service/impl/VoucherOrderServiceImpl.java:375-382 | a pending record whose order id is taken only by its own buyer's order is found as a duplicate, so its handling cannot throw |
| SeckillOrders.RecoverDrains | src/main/java/com/shyx/service/impl/VoucherOrderServiceImpl.java:134-165 | when no pending record can make the handler throw, the loop drains the list within one more round than there are records |
| SeckillOrders.RecoverDrainedStable | src/main/java/com/shyx/service/impl/VoucherOrderServiceImpl.java:135-147 | once the bounded loop has drained, more rounds give the same result, so the unbounded loop ends in the same state |
| SeckillOrders.HandleSameLive | src/main/java/com/shyx/service/impl/VoucherOrderServiceImpl.java:215 | the handler reads only live lock entries: lock tables that agree on them give the same outcome |
| SeckillOrders.RecoverSameLive | src/main/java/com/shyx/service/impl/VoucherOrderServiceImpl.java:134-165 | recovery against lock tables that agree on every live entry gives the same result |
| SeckillOrders.ConsumeOne | src/main/java/com/shyx/service/impl/VoucherOrderServiceImpl.java:98-127 | one consumer turn on a record keeps the invariants and the stock balance and only appends orders; without an exception the record and every record sharing its id leave the pending list |
| SeckillOrders.ConsumeAllIsProcessAll | src/main/java/com/shyx/service/impl/VoucherOrderServiceImpl.java:98-127 | with no buyer lock held and replayable records, consuming a run of records writes exactly the tables of creating their orders in turn, and acknowledges each of them |
| Store.WithoutIdKeeps | src/main/java/com/shyx/service/impl/VoucherOrderServiceImpl.java:120 | acknowledging a record only removes records: what is left was pending before |
| SeckillOrders.VoucherOrderServiceImpl.HandleVoucherOrder | src/main/java/com/shyx/service/impl/VoucherOrderServiceImpl.java:207-235 | a held buyer lock changes nothing; otherwise the order is created and the lock released, and only a failed insert throws; the new tables and the thrown flag are those of the handling rule |
| SeckillOrders.VoucherOrderServiceImpl.HandleHead | src/main/java/com/shyx/service/impl/VoucherOrderServiceImpl.java:136-163 | one loop turn: an empty pending list reports empty and changes nothing; otherwise the tables and the pending list become those of one recovery turn |
| SeckillOrders.VoucherOrderServiceImpl.HandlePendingList | src/main/java/com/shyx/service/impl/VoucherOrderServiceImpl.java:134-165 | the final tables, pending list and drained flag are exactly those of the recovery loop; on any tables, a negative stock row included; the invariants hold afterwards when they held before, the list only shrinks, orders are only appended, and a head record that throws leaves everything unchanged |
| SeckillOrders.VoucherOrderServiceImpl.ConsumerStep | src/main/java/com/shyx/service/impl/VoucherOrderServiceImpl.java:98-127 | one consumer turn: nothing to read changes nothing; otherwise the record is delivered, `thrown` is exactly whether its handling throws, and the final tables and pending list are those of one consumer turn; it runs on any tables, and keeps the invariants when they held before |
| FeedCursor.RunLengthMaximal | src/main/java/com/shyx/service/impl/BlogServiceImpl.java:259-272 | the counted run holds only the last score, and the entry before it differs |
| FeedCursor.CursorOffsetPositive | src/main/java/com/shyx/service/impl/BlogServiceImpl.java:256-272 | on a page whose last score is positive, `os` is the length of the page's trailing run of that score |
| FeedCursor.AboveSplit | src/main/java/com/shyx/service/impl/BlogServiceImpl.java:249-250 | in a descending feed, the entries scored above max come first and all the others follow |
| FeedCursor.ScoreBetweenSuffix | src/main/java/com/shyx/service/impl/BlogServiceImpl.java:249-250 | in a feed of positive descending scores, the entries scored in [0, max] are exactly those after the ones above max |
| FeedCursor.FirstCursor | src/main/java/com/shyx/service/impl/BlogServiceImpl.java:249-250 | the first page, offset 0, starts at the first entry not above max |
| FeedCursor.PageAtCursor | src/main/java/com/shyx/service/impl/BlogServiceImpl.java:249-250 | a read at a cursor standing at position p returns entries p..p+3 of the feed |
| FeedCursor.PageFacts | src/main/java/com/shyx/service/impl/BlogServiceImpl.java:256-272 | a page's trailing run holds its smallest score, everything before it scores higher, and nothing scores above max |
| FeedCursor.IntendedCursorAdvances | src/main/java/com/shyx/service/impl/BlogServiceImpl.java:256-286 | with the corrected offset, the cursor handed back stands exactly after the page just read |
| FeedCursor.FeedPagesAdvance | src/main/java/com/shyx/service/impl/BlogServiceImpl.java:249-286 | reading at a cursor returns the next non-empty page, and the corrected cursor moves past it: pages neither skip nor repeat |
| FeedCursor.AsWrittenCursorRepeats | src/main/java/com/shyx/service/impl/BlogServiceImpl.java:256-272 | as written, when a page read with a positive offset ends on the max score, the next cursor lands `offset` entries too early |
| FeedCursor.AsWrittenCursorExample | src/main/java/com/shyx/service/impl/BlogServiceImpl.java:256-284 | four blogs with one timestamp: the cursor (100, 3) is handed back as (100, 1), so two blogs are shown again |
| BlogService.ParseIds | src/main/java/com/shyx/service/impl/BlogServiceImpl.java:261-263 | each member parses to the id at the same position; on failure, some member is not a number |
| BlogService.ScrollCursor | src/main/java/com/shyx/service/impl/BlogServiceImpl.java:256-272 | the loop collects the parsed ids in page order, `minTime` is the last score, and `os` is the trailing-run count |
| BlogService.OrderByFieldAll | src/main/java/com/shyx/service/impl/BlogServiceImpl.java:275 | `ORDER BY FIELD` with distinct ids that all exist yields one row per id, in id order |
| BlogService.DTOs | src/main/java/com/shyx/service/impl/BlogServiceImpl.java:197-199 | one DTO per user, in the same order |
| BlogService.Followers | src/main/java/com/shyx/service/impl/BlogServiceImpl.java:221 | a user is listed exactly when a follow row makes them a follower of the author |
| BlogService.ParseRowIds | src/main/java/com/shyx/service/impl/BlogServiceImpl.java:187 | members that are decimal user ids parse back to those ids |
| BlogService.TopLikers | src/main/java/com/shyx/service/impl/BlogServiceImpl.java:182-199 | at most five likers are returned |
| BlogService.TopLikersExact | src/main/java/com/shyx/service/impl/BlogServiceImpl.java:182-199 | one DTO per liker ranked in the top five, in rank order; all likers when there are at most five |
| BlogService.TopLikersEarliest | src/main/java/com/shyx/service/impl/BlogServiceImpl.java:182 | a liker left out liked no earlier than any liker shown |
| BlogService.BlogServiceImpl.IsBlogLiked | src/main/java/com/shyx/service/impl/BlogServiceImpl.java:100-115 | only `isLike` changes; with no viewer nothing changes; otherwise `isLike` says whether the viewer has a score under `blog:liked:<id>` |
| BlogService.BlogServiceImpl.IsBlogLikedAgrees | src/main/java/com/shyx/service/impl/BlogServiceImpl.java:109 | when BLOG_LIKED_KEY is "blog:liked:", `isLike` agrees with the likers `likeBlog` keeps |
| BlogService.BlogServiceImpl.LikeBlog | src/main/java/com/shyx/service/impl/BlogServiceImpl.java:142-170 | toggles: not yet liked ⇒ count + 1 and the viewer added with the time; liked ⇒ count − 1 and the viewer removed; a missing blog changes nothing |
| BlogService.BlogServiceImpl.LikeTwice | src/main/java/com/shyx/service/impl/BlogServiceImpl.java:142-170 | liking twice restores the like count and the set of likers and touches no other sorted set |
| BlogService.BlogServiceImpl.QueryBlogLikes | src/main/java/com/shyx/service/impl/BlogServiceImpl.java:178-202 | returns at most five likers |
| BlogService.BlogServiceImpl.SaveBlog | src/main/java/com/shyx/service/impl/BlogServiceImpl.java:210-232 | a failed insert changes nothing and fails "保存失败"; otherwise the blog is stored under a new id with the author set, and the id is pushed into every follower's feed, each push scored with the clock reading of its own loop iteration |
| BlogService.BlogServiceImpl.PushToFeeds | src/main/java/com/shyx/service/impl/BlogServiceImpl.java:223-229 | the loop adds the member to each follower's feed in turn, the i-th push scored with the i-th clock reading |
| BlogService.BlogServiceImpl.SavedBlogInEveryFeed | src/main/java/com/shyx/service/impl/BlogServiceImpl.java:223-229 | every follower's feed holds the new blog, scored with the clock reading of an iteration that pushed to that follower; every other sorted set is unchanged |
| BlogService.FeedKeyInjective | src/main/java/com/shyx/service/impl/BlogServiceImpl.java:227 | distinct followers have distinct feed keys |
| BlogService.PushedReachesFollowers | src/main/java/com/shyx/service/impl/BlogServiceImpl.java:223-229 | after the fan-out, each follower's feed holds the member with the clock reading of an iteration that pushed to that follower |
| BlogService.PushedOthersUnchanged | src/main/java/com/shyx/service/impl/BlogServiceImpl.java:223-229 | the fan-out leaves every sorted set that is no follower's feed as it was |
| BlogService.BlogServiceImpl.FeedPage | src/main/java/com/shyx/service/impl/BlogServiceImpl.java:249-250 | a feed read returns at most three entries |
| BlogService.BlogServiceImpl.QueryBlogOfFollow | src/main/java/com/shyx/service/impl/BlogServiceImpl.java:242-288 | an empty page answers an empty result; otherwise the blogs of the page in page order with `isLike` set, minTime the last score, and offset `os`, the length of the page's trailing run of that score, as written (line 285) |
| BlogService.BlogServiceImpl.QueryBlogOfFollowIntended | src/main/java/com/shyx/service/impl/BlogServiceImpl.java:242-288 | corrected: the same answer, except that the offset adds the incoming offset when the last score equals max |
| FollowService.FollowsKeyInjective | src/main/java/com/shyx/service/impl/FollowServiceImpl.java:48 | distinct users have distinct follow-set keys |
| FollowService.CountRowsPositive | src/main/java/com/shyx/service/impl/FollowServiceImpl.java:86-88 | the count is positive exactly when a row records the follow |
| FollowService.Unfollowed | src/main/java/com/shyx/service/impl/FollowServiceImpl.java:66-67 | the delete keeps exactly the other rows and removes as many rows as matched |
| FollowService.ParseIdSet | src/main/java/com/shyx/service/impl/FollowServiceImpl.java:111 | the ids parse exactly when every member is a number |
| FollowService.ParseCanonical | src/main/java/com/shyx/service/impl/FollowServiceImpl.java:111 | members that are decimal ids parse to exactly those ids |
| FollowService.UserDTOsOfExact | src/main/java/com/shyx/service/impl/FollowServiceImpl.java:113-116 | a user's DTO is listed exactly when its id was asked for |
| FollowService.FollowServiceImpl.Follow | src/main/java/com/shyx/service/impl/FollowServiceImpl.java:45-74 | following oneself fails "不能关注自己" and changes nothing; a follow appends a row and adds to the follow set; an unfollow deletes the rows and removes from the set only when a row was deleted; the set keeps mirroring the rows |
| FollowService.FollowServiceImpl.IsFollow | src/main/java/com/shyx/service/impl/FollowServiceImpl.java:82-89 | true exactly when a row records the follow |
| FollowService.FollowServiceImpl.FollowCommons | src/main/java/com/shyx/service/impl/FollowServiceImpl.java:98-118 | as written: the listed users are users of the table |
| FollowService.FollowServiceImpl.FollowCommonsAsWritten | src/main/java/com/shyx/service/impl/FollowServiceImpl.java:102-106 | as written, a user is listed exactly when the caller follows them, whoever the other user is |
| FollowService.FollowServiceImpl.FollowCommonsIntended | src/main/java/com/shyx/service/impl/FollowServiceImpl.java:98-118 | corrected: the listed users are users of the table |
| FollowService.FollowServiceImpl.FollowCommonsIntendedExact | src/main/java/com/shyx/service/impl/FollowServiceImpl.java:98-118 | corrected: a user is listed exactly when both the caller and the other user follow them |
| FollowService.CommonUsers | src/main/java/com/shyx/service/impl/FollowServiceImpl.java:106-116 | the users of an intersection are users of the table |
| FollowService.CommonUsersExact | src/main/java/com/shyx/service/impl/FollowServiceImpl.java:106-116 | a user is listed exactly when its id is in both sets |
| FollowService.CommonIds | src/main/java/com/shyx/service/impl/FollowServiceImpl.java:106-111 | the intersection of id sets parses to the ids in both |
| FollowService.FollowingAppend | src/main/java/com/shyx/service/impl/FollowServiceImpl.java:56-59 | after appending a row, a follow holds exactly when it held before or is the new row |
| FollowService.FollowingUnfollowed | src/main/java/com/shyx/service/impl/FollowServiceImpl.java:66-67 | after the delete, a follow holds exactly when it held before and is not the deleted pair |
| FollowService.AddKeepsMirrored | src/main/java/com/shyx/service/impl/FollowServiceImpl.java:59-63 | adding a row and its set member keeps the follow sets mirroring the rows |
| FollowService.RemoveKeepsMirrored | src/main/java/com/shyx/service/impl/FollowServiceImpl.java:66-71 | deleting rows and the member keeps the follow sets mirroring the rows |
| UserService.UserHash | src/main/java/com/shyx/service/impl/UserServiceImpl.java:119-121 | the session hash always holds "id" |
| UserService.UserHashRoundTrip | src/main/java/com/shyx/service/impl/UserServiceImpl.java:117-121 | reading the session hash back gives the DTO |
| UserService.SessionReadsBack | src/main/java/com/shyx/service/impl/UserServiceImpl.java:169-173 | after `putAll` over an older session, the id and every non-null field read back as the new DTO's |
| UserService.CreatedUserIsOnly | src/main/java/com/shyx/service/impl/UserServiceImpl.java:107-112 | after creating the user for a new phone, it is the only user with that phone |
| UserService.UserServiceImpl.SendCode | src/main/java/com/shyx/service/impl/UserServiceImpl.java:55-73 | a phone refused by PHONE_REGEX as written fails "手机号格式错误！" and stores nothing; otherwise the code is stored under the phone for LOGIN_CODE_TTL minutes |
| UserService.UserServiceImpl.CreateUserWithPhone | src/main/java/com/shyx/service/impl/UserServiceImpl.java:209-221 | inserts a user with the phone and nickname "user_" + suffix under the next id; a taken id inserts nothing |
| UserService.UserServiceImpl.Login | src/main/java/com/shyx/service/impl/UserServiceImpl.java:84-179 | a phone refused by PHONE_REGEX as written, or a wrong or missing code, fails and changes nothing; more than one user with the phone throws; otherwise the user is found or created, their DTO is stored under the token for LOGIN_USER_TTL minutes, and the token is answered |
| UserService.UserServiceImpl.SaveSession | src/main/java/com/shyx/service/impl/UserServiceImpl.java:169-173 | the token's hash becomes the live session merged with the user's DTO fields, expiring LOGIN_USER_TTL minutes from now; no other hash changes |
| UserService.UserServiceImpl.Logout | src/main/java/com/shyx/service/impl/UserServiceImpl.java:188-200 | deletes the token's session if it exists; afterwards it does not exist |
| UserService.UserServiceImpl.SendThenLogin | src/main/java/com/shyx/service/impl/UserServiceImpl.java:100-105 | a login with the code just sent, within its lifetime, succeeds, and the code stays stored |
| Password.Encode | src/main/java/com/shyx/utils/PasswordEncoder.java:25-28 | the encoding starts with the salt followed by '@' |
| Password.SaltOf | src/main/java/com/shyx/utils/PasswordEncoder.java:47-49 | the salt read back holds no '@' |
| Password.Matches | src/main/java/com/shyx/utils/PasswordEncoder.java:37-52 | a null argument answers false; an encoding without '@' throws |
| Password.SaltOfEncode | src/main/java/com/shyx/utils/PasswordEncoder.java:47-49 | splitting an encoding at '@' gives back its salt |
| Password.EncodeThenMatches | src/main/java/com/shyx/utils/PasswordEncoder.java:37-52 | a password matches its own encoding |
| Password.MatchesIff | src/main/java/com/shyx/utils/PasswordEncoder.java:37-52 | a password matches an encoding exactly when the encoding is that password's encoding under some salt without '@' |
| Regex.PhoneAcceptsComma | src/main/java/com/shyx/utils/RegexPatterns.java:13 | as written, the phone pattern accepts "15,12345678" |
| Regex.PhoneMatchesDigits | src/main/java/com/shyx/utils/RegexPatterns.java:13 | corrected, a phone number is eleven digits; the corrected pattern is the written one minus inputs holding ',' |
| Regex.EmailAccepts | src/main/java/com/shyx/utils/RegexPatterns.java:19 | a local part, '@' and a dotted domain match |
| Regex.EmailNeedsDottedDomain | src/main/java/com/shyx/utils/RegexPatterns.java:19 | a domain without a dot does not match |
| Regex.PasswordExamples | src/main/java/com/shyx/utils/RegexPatterns.java:23 | four word characters match; three, a '-', or thirty-three do not |
| Regex.CodeExamples | src/main/java/com/shyx/utils/RegexPatterns.java:27 | six letters or digits match; five, or a '_', do not |
| Regex.NoBlankMatch | src/main/java/com/shyx/utils/RegexUtils.java:37-42 | no pattern matches a blank string |
| Regex.Mismatch | src/main/java/com/shyx/utils/RegexUtils.java:37-42 | answers true exactly when the input is null or does not fully match the pattern (a blank input never matches) |
| Regex.IsPhoneInvalid | src/main/java/com/shyx/utils/RegexUtils.java:15-17 | true exactly when the phone is null or PHONE_REGEX as written does not match it, so "15,12345678" passes |
| Regex.IsEmailInvalid | src/main/java/com/shyx/utils/RegexUtils.java:23-25 | true exactly when the address is null or EMAIL_REGEX does not match it |
| Regex.IsCodeInvalid | src/main/java/com/shyx/utils/RegexUtils.java:32-34 | true exactly when the code is null or VERIFY_CODE_REGEX does not match it |
| Regex.PhoneAsWrittenShape | src/main/java/com/shyx/utils/RegexPatterns.java:13 | every phone PHONE_REGEX accepts has eleven characters, all digits except the third, which may be ',' |
| Regex.DomainShape | src/main/java/com/shyx/utils/RegexPatterns.java:19 | a domain EMAIL_REGEX accepts holds no '@' and at least three characters |
| Regex.EmailSingleAt | src/main/java/com/shyx/utils/RegexPatterns.java:19 | every address EMAIL_REGEX accepts holds exactly one '@', with one character or more before it and three or more after it |
| Regex.PhoneIsNotEmail | src/main/java/com/shyx/utils/RegexPatterns.java:13-19 | no input PHONE_REGEX accepts is accepted by EMAIL_REGEX |
| Regex.CodeIsPasswordShaped | src/main/java/com/shyx/utils/RegexPatterns.java:23-27 | every input VERIFY_CODE_REGEX accepts is accepted by PASSWORD_REGEX |
| Regex.DigitCodeValid | src/main/java/com/shyx/service/impl/UserServiceImpl.java:62 | a generated six-digit code passes the code validator |

## Left out

- Controllers, configuration classes, the login interceptors and `UserHolder` are left out: they only route requests and wire the framework. The current user is an explicit argument.
- Session attributes (`session.removeAttribute`, `session.invalidate`) are left out.
- Concurrency is left out: thread pools, `Thread.sleep`, blocking stream reads and the liveness of the `while (true)` loops. Each loop turn is one sequential step, and the loops run for a bounded number of rounds given as an argument.
- The admission script `seckill.lua` is a parameter that returns a reply code. The model claims nothing about its checks or its writes, so the order stream is not fed by `SeckillVoucher`.
- The unlock script is the store's compare-and-delete command.
- Redisson's reentrant lock is an owner-tagged store entry without a lease. Reentrancy and the watchdog are not modelled.
- JSON and bean mapping are an abstract codec. MD5 is a function parameter. Random codes, salts, nicknames, UUID tokens and the clock are arguments. The length of the random nickname suffix is not constrained.
- Sorted-set scores are doubles in the source and integers here.
- The AOP proxy field, the commented-out alternatives, `queryHotBlog`, `queryBlogById` and `queryBlogUser` are left out. `queryBlogUser` decorates feed blogs with the author's name and icon.
- `Long.valueOf` is modelled without a leading '+' and without its 64-bit range check.
- A null `Boolean` reply from the store is not modelled.
- Auto-increment gaps are left out: an insert takes the table's next id. The model replaces the whole row where `updateById` writes only the non-null fields.
- `addSeckillVoucher` ignores any id the caller supplies, because the table assigns it.
- Redis removing a key whose set becomes empty is not modelled. An empty set or sorted set is treated as absent where that matters (`Exists`).
- hutool's list of blank characters is taken from one library version.
- The calendar covers years 1 to 9999. Id timestamps must stay below 2^31 seconds after 2022 for the exactness lemmas.
- ShopService.ShopServiceImpl.QueryWithMutex: a chain of retries deletes the lock key once per finished attempt. The model records only the net effect, that the key is gone.
- SeckillOrders.VoucherOrderServiceImpl.HandlePendingList: the Java loop retries without bound, sleeping 20 ms after each exception. The model bounds it by a round count; a record whose handling always throws keeps it spinning (SeckillOrders.RecoverStuck), and a drained run ends as the unbounded loop would (SeckillOrders.RecoverDrainedStable).
- SeckillOrders.Recover and SeckillOrders.ConsumeOne read the lock table once, as fixed. The methods relate the store's string table to it only up to expired entries (`SameLive`), which no lookup can see.
- Store.KeyValueStore.Set and Store.KeyValueStore.SetIfAbsent require a positive time-to-live, because Redis refuses `EX 0` and negative values. The callers that pass a caller-chosen time (Cache.CacheClient.Set, SimpleLock.SimpleRedisLock.TryLock) check it and model the refusal as an exception.
- `listByIds` in `followCommons` returns rows in no promised order. The model returns a set.
- `one()` throws when more than one user has the phone. `Login` answers None in that case.
- PASSWORD_REGEX and `isEmailInvalid` are modelled but no service calls them.
- BlogService.BlogServiceImpl.LikeTwice: the liker's score after a re-like is the second like's time, so the contract restores the set of likers and not their scores.
- BlogService.BlogServiceImpl.QueryBlogLikes: its own contract bounds only the length. The link to the ranked likers is in BlogService.TopLikersExact, which needs likers that are decimal user ids.
- FollowService.FollowServiceImpl.FollowCommons: its own contract states only that the result is drawn from the user table. Its exact content is FollowCommonsAsWritten, which needs mirrored follow sets.

## Findings

| source | as written | input that shows it | evidently intended | confidence | as-written member | corrected member |
|---|---|---|---|---|---|---|
| src/main/java/com/shyx/service/impl/FollowServiceImpl.java:102-103 | both intersection keys are the caller's follow set, so "common follows" is everything the caller follows | user 1 follows 2 and 3, user 4 follows 3: common follows of 1 and 4 lists 2 and 3 | intersect the caller's set with `follows:<id>`, giving only 3 | high (not executed) | FollowService.FollowServiceImpl.FollowCommonsAsWritten | FollowService.FollowServiceImpl.FollowCommonsIntendedExact |
| src/main/java/com/shyx/service/impl/BlogServiceImpl.java:256-284 | the next offset counts only the trailing run within the page, dropping the incoming offset when the whole run still has score max | four feed entries d, c, b, a, all at time 100: page 1 shows d, c, b and hands back (100, 3); page 2 shows a and hands back (100, 1); page 3 shows c, b, a again | add the incoming offset when the page's last score equals max | high (not executed) | FeedCursor.AsWrittenCursorRepeats | FeedCursor.IntendedCursorAdvances |
| src/main/java/com/shyx/utils/RegexPatterns.java:13 | the class `[0-3,5-9]` also admits a literal ',' | "15,12345678" is accepted as a phone number | the digits 0-3 and 5-9 only | high (not executed) | Regex.PhoneAcceptsComma | Regex.PhoneMatchesDigits |
