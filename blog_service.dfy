/**
 * Blog likes and the follow feed (BlogServiceImpl.java). A blog's likers are
 * a sorted set keyed by the blog id, scored by the millisecond clock of the
 * like; saving a blog pushes its id into the feed (a sorted set) of every
 * follower of the author, and a follower reads the feed a page of three at a
 * time, newest first, with a (max score, offset) cursor.
 */
module BlogService {
  import opened Common
  import opened Entities
  import opened Store
  import opened Database
  import opened RedisConstants
  import opened SortedSet
  import opened FeedCursor

  const SAVE_FAILED := "保存失败"
  /** The key prefix `isBlogLiked` spells out instead of using BLOG_LIKED_KEY. */
  const LIKED_KEY_LITERAL := "blog:liked:"
  const TOP_LIKES: nat := 5

  // ---------------------------------------------------------------------
  // Value helpers: id parsing and ORDER BY FIELD
  // ---------------------------------------------------------------------

  /** `Long.valueOf` over a list of members; None when one is not a number (the call throws). */
  function ParseIds(members: seq<string>): (r: Option<seq<int>>)
    ensures r.Some? ==> |r.value| == |members| && forall i :: 0 <= i < |members| ==> ParseDecimal(members[i]) == Some(r.value[i])
    ensures r.None? ==> exists i :: 0 <= i < |members| && ParseDecimal(members[i]).None?
    decreases |members|
  {
    if members == [] then Some([])
    else
      var init := members[..|members| - 1];
      match ParseIds(init)
      case None => None
      case Some(ids) =>
        match ParseDecimal(members[|members| - 1])
        case None => None
        case Some(n) => Some(ids + [n])
  }

  /**
   * `query().in("id", ids).last("ORDER BY FIELD(id, ...)")`: the rows whose id
   * is listed, each once, in the order of first mention.
   */
  function OrderByField<T>(ids: seq<int>, rows: map<int, T>): (r: seq<T>)
    ensures |r| <= |ids|
    decreases |ids|
  {
    if ids == [] then []
    else
      var init := ids[..|ids| - 1];
      var last := ids[|ids| - 1];
      if last in rows && last !in init then OrderByField(init, rows) + [rows[last]] else OrderByField(init, rows)
  }

  /** Listing distinct ids that all have rows gives exactly those rows, in that order. */
  lemma {:induction false} OrderByFieldAll<T>(ids: seq<int>, rows: map<int, T>)
    requires forall i, j :: 0 <= i < j < |ids| ==> ids[i] != ids[j]
    requires forall i :: 0 <= i < |ids| ==> ids[i] in rows
    ensures |OrderByField(ids, rows)| == |ids|
    ensures forall i :: 0 <= i < |ids| ==> OrderByField(ids, rows)[i] == rows[ids[i]]
    decreases |ids|
  {
    if ids != [] {
      var init := ids[..|ids| - 1];
      OrderByFieldAll(init, rows);
      assert ids[|ids| - 1] !in init by {
        forall k | 0 <= k < |init| ensures init[k] != ids[|ids| - 1] {
          assert init[k] == ids[k];
        }
      }
    }
  }

  /** The user DTOs of a list of users. */
  function DTOs(users: seq<User>): (r: seq<UserDTO>)
    ensures |r| == |users| && forall i :: 0 <= i < |users| ==> r[i] == ToDTO(users[i])
  {
    seq(|users|, i requires 0 <= i < |users| => ToDTO(users[i]))
  }

  // ---------------------------------------------------------------------
  // The scroll cursor of the feed
  // ---------------------------------------------------------------------

  /**
   * The loop of `queryBlogOfFollow` over a page: collects the ids, and
   * tracks the smallest score and how many entries carry it (the offset of
   * the next page). None: an id did not parse.
   */
  method ScrollCursor(tuples: seq<Scored>) returns (ids: Option<seq<int>>, minTime: int, os: int)
    ensures ids == ParseIds(MembersOf(tuples))
    ensures ids.Some? ==> minTime == (if tuples == [] then 0 else tuples[|tuples| - 1].1)
    ensures ids.Some? ==> os == CursorOffset(Scores(tuples))
  {
    var collected: seq<int> := [];
    minTime, os := 0, 1;
    var i := 0;
    while i < |tuples|
      invariant 0 <= i <= |tuples|
      invariant ParseIds(MembersOf(tuples[..i])) == Some(collected)
      invariant minTime == (if i == 0 then 0 else tuples[i - 1].1)
      invariant os == CursorOffset(Scores(tuples[..i]))
    {
      var id := ParseDecimal(tuples[i].0);
      if id.None? {
        return None, minTime, os;
      }
      ParseIdsStep(tuples, i);
      collected := collected + [id.value];
      var time := tuples[i].1;
      CursorOffsetStep(tuples, i, minTime);
      if time == minTime {
        os := os + 1;
      } else {
        minTime := time;
        os := 1;
      }
      i := i + 1;
    }
    assert tuples[..i] == tuples;
    ids := Some(collected);
  }

  /** One more parsed member extends the parsed prefix by its number. */
  lemma ParseIdsStep(tuples: seq<Scored>, i: nat)
    requires i < |tuples| && ParseIds(MembersOf(tuples[..i])).Some? && ParseDecimal(tuples[i].0).Some?
    ensures ParseIds(MembersOf(tuples[..i + 1]))
            == Some(ParseIds(MembersOf(tuples[..i])).value + [ParseDecimal(tuples[i].0).value])
  {
    assert MembersOf(tuples[..i + 1]) == MembersOf(tuples[..i]) + [tuples[i].0];
    assert MembersOf(tuples[..i + 1])[..i] == MembersOf(tuples[..i]);
  }

  /** The offset after one more entry: one more when its score repeats the last, else 1. */
  lemma CursorOffsetStep(tuples: seq<Scored>, i: nat, minTime: int)
    requires i < |tuples| && minTime == (if i == 0 then 0 else tuples[i - 1].1)
    ensures CursorOffset(Scores(tuples[..i + 1]))
            == if tuples[i].1 == minTime then CursorOffset(Scores(tuples[..i])) + 1 else 1
  {
    var time := tuples[i].1;
    assert Scores(tuples[..i + 1]) == Scores(tuples[..i]) + [time];
    RunLengthStep(Scores(tuples[..i]), time, time);
  }

  // ---------------------------------------------------------------------
  // Fan-out
  // ---------------------------------------------------------------------

  /** The followers of `author`, in the order of their follow rows. */
  function Followers(follows: seq<Follow>, author: int): (r: seq<int>)
    ensures forall x :: x in r <==> exists i :: 0 <= i < |follows| && follows[i].followUserId == author && follows[i].userId == x
    decreases |follows|
  {
    if follows == [] then []
    else
      var init := follows[..|follows| - 1];
      var last := follows[|follows| - 1];
      assert forall i :: 0 <= i < |init| ==> init[i] == follows[i];
      Followers(init, author) + (if last.followUserId == author then [last.userId] else [])
  }

  function FeedKey(userId: int): string {
    FEED_KEY + DecimalString(userId)
  }

  /** Distinct users have distinct feed keys. */
  lemma FeedKeyInjective(a: int, b: int)
    ensures FeedKey(a) == FeedKey(b) ==> a == b
  {
    if FeedKey(a) == FeedKey(b) {
      assert DecimalString(a) == FeedKey(a)[|FEED_KEY|..];
      assert DecimalString(b) == FeedKey(b)[|FEED_KEY|..];
      DecimalInjective(a, b);
    }
  }

  /** `ZADD key member score` on a map of sorted sets. */
  function ZAddTo(zsets: map<string, ZSet>, key: string, member: string, score: int): map<string, ZSet> {
    zsets[key := (if key in zsets then zsets[key] else map[])[member := score]]
  }

  /**
   * The sorted sets after the fan-out loop pushes `member` into the feed of
   * each of `followers` in turn; the push to `followers[i]` is scored with
   * `clock(i)`, the clock reading taken in that iteration.
   */
  function Pushed(zsets: map<string, ZSet>, followers: seq<int>, member: string, clock: nat -> int): map<string, ZSet>
    decreases |followers|
  {
    if followers == [] then zsets
    else
      var n := |followers| - 1;
      ZAddTo(Pushed(zsets, followers[..n], member, clock), FeedKey(followers[n]), member, clock(n))
  }

  lemma PushedStep(zsets: map<string, ZSet>, followers: seq<int>, i: nat, member: string, clock: nat -> int)
    requires i < |followers|
    ensures Pushed(zsets, followers[..i + 1], member, clock)
            == ZAddTo(Pushed(zsets, followers[..i], member, clock), FeedKey(followers[i]), member, clock(i))
  {
    assert followers[..i + 1][..i] == followers[..i];
  }

  /**
   * Each follower's feed holds the member, scored with the clock reading of
   * an iteration that pushed to that follower (the last one, when the
   * follower is listed twice).
   */
  lemma {:induction false} PushedReachesFollowers(zsets: map<string, ZSet>, followers: seq<int>, member: string,
                                                 clock: nat -> int, f: int)
    requires f in followers
    ensures var p := Pushed(zsets, followers, member, clock);
            && FeedKey(f) in p && member in p[FeedKey(f)]
            && exists k :: 0 <= k < |followers| && followers[k] == f && p[FeedKey(f)][member] == clock(k)
    decreases |followers|
  {
    var n := |followers| - 1;
    var init := followers[..n];
    if FeedKey(followers[n]) == FeedKey(f) {
      FeedKeyInjective(followers[n], f);
    } else {
      assert f in init by {
        var k :| 0 <= k < |followers| && followers[k] == f;
        assert k != n && init[k] == f;
      }
      PushedReachesFollowers(zsets, init, member, clock, f);
      var k :| 0 <= k < |init| && init[k] == f && Pushed(zsets, init, member, clock)[FeedKey(f)][member] == clock(k);
      assert followers[k] == f;
    }
  }

  /** The fan-out touches no sorted set other than the followers' feeds. */
  lemma {:induction false} PushedOthersUnchanged(zsets: map<string, ZSet>, followers: seq<int>, member: string,
                                                clock: nat -> int, key: string)
    requires forall f :: f in followers ==> FeedKey(f) != key
    ensures var p := Pushed(zsets, followers, member, clock);
            (key in p <==> key in zsets) && (key in zsets ==> p[key] == zsets[key])
    decreases |followers|
  {
    if followers != [] {
      var n := |followers| - 1;
      assert followers[n] in followers;
      PushedOthersUnchanged(zsets, followers[..n], member, clock, key);
    }
  }

  /** The ids of members that are the decimal ids of rows of `rows` parse back to those ids. */
  lemma ParseRowIds<T>(members: seq<string>, rows: map<int, T>)
    requires forall i :: 0 <= i < |members| ==> exists u :: u in rows && members[i] == DecimalString(u)
    ensures ParseIds(members).Some?
    ensures forall i :: 0 <= i < |members| ==>
              ParseIds(members).value[i] in rows && DecimalString(ParseIds(members).value[i]) == members[i]
  {
    forall i | 0 <= i < |members| ensures ParseDecimal(members[i]).Some? {
      var u :| u in rows && members[i] == DecimalString(u);
      DecimalRoundTrip(u);
    }
    var ids := ParseIds(members).value;
    forall i | 0 <= i < |members| ensures ids[i] in rows && DecimalString(ids[i]) == members[i] {
      var u :| u in rows && members[i] == DecimalString(u);
      DecimalRoundTrip(u);
    }
  }

  /** The answer of `queryBlogLikes` for the likers `z` and the user table `users`. */
  function TopLikers(z: ZSet, users: map<int, User>): (r: Option<seq<UserDTO>>)
    ensures r.Some? ==> |r.value| <= TOP_LIKES
  {
    var top := RangeByRank(z, 0, TOP_LIKES - 1);
    if top == [] then Some([])
    else match ParseIds(MembersOf(top))
      case None => None
      case Some(ids) => Some(DTOs(OrderByField(ids, users)))
  }

  /**
   * When every liker is the decimal id of a stored user, the answer is the
   * users of the earliest min(5, likers) likes, in like order.
   */
  lemma TopLikersExact(z: ZSet, users: map<int, User>)
    requires forall k :: k in users ==> users[k].id == k
    requires forall m :: m in z ==> exists u :: u in users && m == DecimalString(u)
    ensures var top := RangeByRank(z, 0, TOP_LIKES - 1);
            && TopLikers(z, users).Some?
            && |TopLikers(z, users).value| == |top|
            && (|z| <= TOP_LIKES ==> |top| == |z|)
            && forall i :: 0 <= i < |top| ==> DecimalString(TopLikers(z, users).value[i].id) == top[i].0
  {
    var top := RangeByRank(z, 0, TOP_LIKES - 1);
    var members := MembersOf(top);
    if |z| <= TOP_LIKES {
      RangeByRankAll(z, TOP_LIKES - 1);
    }
    if top != [] {
      forall i | 0 <= i < |members| ensures exists u :: u in users && members[i] == DecimalString(u) {
        assert members[i] == top[i].0 && top[i].0 in z;
      }
      ParseRowIds(members, users);
      var ids := ParseIds(members).value;
      RangeByRankDistinct(z, 0, TOP_LIKES - 1);
      DistinctIds(top, ids);
      OrderByFieldAll(ids, users);
      var us := OrderByField(ids, users);
      assert TopLikers(z, users) == Some(DTOs(us));
      forall i | 0 <= i < |top| ensures DecimalString(DTOs(us)[i].id) == top[i].0 {
        assert DTOs(us)[i].id == ids[i];
      }
    }
  }

  lemma DistinctIds(top: seq<Scored>, ids: seq<int>)
    requires |ids| == |top|
    requires forall i, j :: 0 <= i < j < |top| ==> top[i].0 != top[j].0
    requires forall i :: 0 <= i < |ids| ==> DecimalString(ids[i]) == top[i].0
    ensures forall i, j :: 0 <= i < j < |ids| ==> ids[i] != ids[j]
  {
  }

  /** Every liker `queryBlogLikes` leaves out liked no earlier than each one it lists. */
  lemma TopLikersEarliest(z: ZSet, x: string)
    requires x in z && x !in MembersOf(RangeByRank(z, 0, TOP_LIKES - 1))
    ensures var top := RangeByRank(z, 0, TOP_LIKES - 1);
            forall i :: 0 <= i < |top| ==> Before(top[i].0, top[i].1, x, z[x])
  {
    RangeByRankEarliest(z, TOP_LIKES - 1, x);
  }

  class BlogServiceImpl {
    const store: KeyValueStore
    const db: Tables

    constructor (store: KeyValueStore, db: Tables)
      ensures this.store == store && this.db == db
    {
      this.store := store;
      this.db := db;
    }

    function LikedKey(blogId: int): string {
      BLOG_LIKED_KEY + DecimalString(blogId)
    }

    /** `userId` is in the blog's likers. */
    predicate Liked(blogId: int, userId: int)
      reads store
    {
      store.Score(LikedKey(blogId), DecimalString(userId)).Some?
    }

    /**
     * `isBlogLiked(blog)` for the signed-in user `viewer`: with nobody signed
     * in the blog is left alone; otherwise `isLike` records whether the
     * viewer is among the likers under the literal "blog:liked:" key.
     */
    function IsBlogLiked(blog: Blog, viewer: Option<int>): (b: Blog)
      reads store
      ensures b == blog.(isLike := b.isLike)
      ensures viewer.None? ==> b == blog
      ensures viewer.Some? ==>
                b.isLike == Some(store.Score(LIKED_KEY_LITERAL + DecimalString(blog.id), DecimalString(viewer.value)).Some?)
    {
      if viewer.None? then blog
      else blog.(isLike := Some(store.Score(LIKED_KEY_LITERAL + DecimalString(blog.id), DecimalString(viewer.value)).Some?))
    }

    /**
     * `likeBlog(id)` by `userId` at millisecond clock `nowMillis`: a user not
     * among the likers raises the like count and joins them; a liker lowers
     * it and leaves. The likers change only when the row update succeeded.
     */
    method LikeBlog(id: int, userId: int, nowMillis: int) returns (r: Result<()>)
      modifies db`blogs, store`zsets
      ensures r == Ok(())
      ensures id !in old(db.blogs) ==> db.blogs == old(db.blogs) && store.zsets == old(store.zsets)
      ensures id in old(db.blogs) ==>
                var wasLiked := old(Liked(id, userId));
                var row := old(db.blogs)[id];
                && db.blogs == old(db.blogs)[id := row.(liked := row.liked + (if wasLiked then -1 else 1))]
                && store.zsets == old(store.zsets)[LikedKey(id) :=
                     if wasLiked then old(store.ZSetAt(LikedKey(id))) - {DecimalString(userId)}
                     else old(store.ZSetAt(LikedKey(id)))[DecimalString(userId) := nowMillis]]
    {
      var key := LikedKey(id);
      var score := store.Score(key, DecimalString(userId));
      var isSuccess := id in db.blogs;
      if score.None? {
        if isSuccess {
          db.blogs := db.blogs[id := db.blogs[id].(liked := db.blogs[id].liked + 1)];
          store.ZAdd(key, DecimalString(userId), nowMillis);
        }
      } else {
        if isSuccess {
          db.blogs := db.blogs[id := db.blogs[id].(liked := db.blogs[id].liked - 1)];
          store.ZRemove(key, DecimalString(userId));
        }
      }
      return Ok(());
    }

    /** Liking flips the liked state; liking twice restores the like count and the set of likers. */
    method LikeTwice(id: int, userId: int, t1: int, t2: int)
      requires id in db.blogs
      modifies db`blogs, store`zsets
      ensures db.blogs == old(db.blogs)
      ensures store.ZSetAt(LikedKey(id)).Keys == old(store.ZSetAt(LikedKey(id))).Keys
      ensures store.zsets - {LikedKey(id)} == old(store.zsets) - {LikedKey(id)}
    {
      var key := LikedKey(id);
      var r1 := LikeBlog(id, userId, t1);
      assert Liked(id, userId) == !old(Liked(id, userId));
      var r2 := LikeBlog(id, userId, t2);
      if old(Liked(id, userId)) {
        assert store.ZSetAt(key) == (old(store.ZSetAt(key)) - {DecimalString(userId)})[DecimalString(userId) := t2];
      } else {
        assert store.ZSetAt(key) == old(store.ZSetAt(key))[DecimalString(userId) := t1] - {DecimalString(userId)};
      }
    }

    /** With the literal prefix equal to BLOG_LIKED_KEY, `isBlogLiked` reports the state `likeBlog` toggles. */
    lemma IsBlogLikedAgrees(blog: Blog, userId: int)
      requires BLOG_LIKED_KEY == LIKED_KEY_LITERAL
      ensures IsBlogLiked(blog, Some(userId)).isLike == Some(Liked(blog.id, userId))
    {
    }

    /**
     * `queryBlogLikes(id)`: the users of the first five likers, earliest like
     * first, as DTOs. None: a liker did not parse as an id (the call throws).
     */
    function QueryBlogLikes(id: int): (r: Option<seq<UserDTO>>)
      reads store, db
      ensures r.Some? ==> |r.value| <= TOP_LIKES
    {
      TopLikers(store.ZSetAt(LikedKey(id)), db.users)
    }

    /**
     * `saveBlog(blog)` by `userId`: the blog is saved under the next id with
     * its author set, and its id is pushed into the feed of every follower of
     * the author, the i-th push scored with `clock(i)`, the millisecond clock
     * read in that iteration. A failed save changes nothing.
     */
    method SaveBlog(blog: Blog, userId: int, clock: nat -> int) returns (r: Result<int>)
      modifies db`blogs, db`nextBlogId, store`zsets
      ensures var id := old(db.nextBlogId);
              r == (if id in old(db.blogs) then Fail(SAVE_FAILED) else Ok(id))
      ensures r.Fail? ==> db.blogs == old(db.blogs) && db.nextBlogId == old(db.nextBlogId) && store.zsets == old(store.zsets)
      ensures r.Ok? ==>
                var id := r.data;
                && db.blogs == old(db.blogs)[id := blog.(id := id, userId := Some(userId))]
                && db.nextBlogId == id + 1
                && store.zsets == Pushed(old(store.zsets), Followers(db.follows, userId), DecimalString(id), clock)
    {
      var id := db.nextBlogId;
      if id in db.blogs {
        return Fail(SAVE_FAILED);
      }
      db.blogs := db.blogs[id := blog.(id := id, userId := Some(userId))];
      db.nextBlogId := id + 1;
      PushToFeeds(Followers(db.follows, userId), DecimalString(id), clock);
      return Ok(id);
    }

    /** The fan-out loop of `saveBlog`: adds `member` to the feed of each follower, reading the clock each time. */
    method PushToFeeds(followers: seq<int>, member: string, clock: nat -> int)
      modifies store`zsets
      ensures store.zsets == Pushed(old(store.zsets), followers, member, clock)
    {
      var i := 0;
      ghost var z0 := store.zsets;
      assert followers[..0] == [];
      while i < |followers|
        invariant 0 <= i <= |followers|
        invariant store.zsets == Pushed(z0, followers[..i], member, clock)
      {
        var key := FeedKey(followers[i]);
        PushedStep(z0, followers, i, member, clock);
        store.ZAdd(key, member, clock(i));
        i := i + 1;
      }
      assert followers[..i] == followers;
    }

    /**
     * After a save, each follower's feed holds the new blog, scored with a
     * clock reading taken while pushing to that follower, and every other
     * sorted set is as it was.
     */
    lemma SavedBlogInEveryFeed(zsets: map<string, ZSet>, followers: seq<int>, id: int, clock: nat -> int, f: int,
                               key: string)
      requires f in followers
      requires forall g :: g in followers ==> FeedKey(g) != key
      ensures var p := Pushed(zsets, followers, DecimalString(id), clock);
              && FeedKey(f) in p && DecimalString(id) in p[FeedKey(f)]
              && (exists k :: 0 <= k < |followers| && followers[k] == f && p[FeedKey(f)][DecimalString(id)] == clock(k))
              && (key in p <==> key in zsets) && (key in zsets ==> p[key] == zsets[key])
    {
      PushedReachesFollowers(zsets, followers, DecimalString(id), clock, f);
      PushedOthersUnchanged(zsets, followers, DecimalString(id), clock, key);
    }

    /** The page of the feed of `viewer` below score `max` after skipping `offset` entries. */
    function FeedPage(viewer: int, max: int, offset: int): (page: seq<Scored>)
      reads store
      ensures |page| <= PAGE
    {
      if offset < 0 then [] else RevRangeByScore(store.ZSetAt(FeedKey(viewer)), 0, max, offset, PAGE)
    }

    /**
     * `queryBlogOfFollow(max, offset)` for `viewer`: an empty page answers
     * ok without data; otherwise the page's blogs in feed order, each marked
     * with whether the viewer liked it, with the cursor of the next page: the
     * page's last score and the length of its trailing run of that score
     * (the incoming offset is not added; FeedCursor.AsWrittenCursorRepeats
     * shows what that does). A negative offset reads an empty page. None: a
     * feed entry did not parse as an id (the call throws).
     */
    method QueryBlogOfFollow(viewer: int, max: int, offset: int) returns (r: Option<Result<Option<ScrollResult>>>)
      ensures var page := FeedPage(viewer, max, offset);
              && (page == [] ==> r == Some(Ok(None)))
              && (page != [] ==>
                    match ParseIds(MembersOf(page))
                    case None => r.None?
                    case Some(ids) =>
                      r.Some? && r.value.Ok? && r.value.data.Some?
                      && var result := r.value.data.value;
                      && |result.list| <= PAGE
                      && |result.list| == |OrderByField(ids, db.blogs)|
                      && (forall i :: 0 <= i < |result.list| ==>
                            result.list[i] == IsBlogLiked(OrderByField(ids, db.blogs)[i], Some(viewer)))
                      && result.minTime == page[|page| - 1].1
                      && result.offset == CursorOffset(Scores(page)))
    {
      var page := FeedPage(viewer, max, offset);
      if page == [] {
        return Some(Ok(None));
      }
      var ids, minTime, os := ScrollCursor(page);
      if ids.None? {
        return None;
      }
      var blogs := OrderByField(ids.value, db.blogs);
      var decorated := seq(|blogs|, i requires 0 <= i < |blogs| reads store => IsBlogLiked(blogs[i], Some(viewer)));
      return Some(Ok(Some(ScrollResult(decorated, minTime, os))));
    }

    /**
     * The feed query with the corrected cursor: the same answer, except that
     * when the page's last score is `max` the incoming offset is added, so
     * the next page starts right after this one (FeedCursor.FeedPagesAdvance).
     */
    method QueryBlogOfFollowIntended(viewer: int, max: int, offset: int) returns (r: Option<Result<Option<ScrollResult>>>)
      ensures var page := FeedPage(viewer, max, offset);
              && (page == [] ==> r == Some(Ok(None)))
              && (page != [] ==>
                    match ParseIds(MembersOf(page))
                    case None => r.None?
                    case Some(ids) =>
                      r.Some? && r.value.Ok? && r.value.data.Some?
                      && var result := r.value.data.value;
                      && |result.list| == |OrderByField(ids, db.blogs)|
                      && (forall i :: 0 <= i < |result.list| ==>
                            result.list[i] == IsBlogLiked(OrderByField(ids, db.blogs)[i], Some(viewer)))
                      && result.minTime == page[|page| - 1].1
                      && result.offset == IntendedOffset(Scores(page), max, offset))
    {
      r := QueryBlogOfFollow(viewer, max, offset);
      ghost var page := FeedPage(viewer, max, offset);
      if r.Some? && r.value.Ok? && r.value.data.Some? {
        var result := r.value.data.value;
        assert page != [] && Scores(page)[|page| - 1] == result.minTime;
        if result.minTime == max {
          r := Some(Ok(Some(result.(offset := offset + result.offset))));
        }
      }
    }
  }
}
