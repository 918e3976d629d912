/**
 * Following other users (FollowServiceImpl.java). The follow rows are the
 * record; the set at "follows:<user id>" mirrors, as decimal strings, the
 * ids that user follows, and is what common-follow queries intersect.
 */
module FollowService {
  import opened Common
  import opened Entities
  import opened Store
  import opened Database

  const SELF_FOLLOW := "不能关注自己"
  const FOLLOWS_PREFIX := "follows:"

  function FollowsKey(userId: int): string {
    FOLLOWS_PREFIX + DecimalString(userId)
  }

  lemma FollowsKeyInjective(a: int, b: int)
    ensures FollowsKey(a) == FollowsKey(b) ==> a == b
  {
    if FollowsKey(a) == FollowsKey(b) {
      assert DecimalString(a) == FollowsKey(a)[|FOLLOWS_PREFIX|..];
      assert DecimalString(b) == FollowsKey(b)[|FOLLOWS_PREFIX|..];
      DecimalInjective(a, b);
    }
  }

  /** Some row records that `userId` follows `followUserId`. */
  predicate Following(follows: seq<Follow>, userId: int, followUserId: int) {
    exists i :: 0 <= i < |follows| && follows[i] == Follow(userId, followUserId)
  }

  /** How many rows record that `userId` follows `followUserId`. */
  function CountRows(follows: seq<Follow>, userId: int, followUserId: int): (n: nat)
    ensures n <= |follows|
    decreases |follows|
  {
    if follows == [] then 0
    else CountRows(follows[..|follows| - 1], userId, followUserId)
         + (if follows[|follows| - 1] == Follow(userId, followUserId) then 1 else 0)
  }

  /** The count `isFollow` takes is positive exactly when such a row exists. */
  lemma {:induction false} CountRowsPositive(follows: seq<Follow>, userId: int, followUserId: int)
    ensures CountRows(follows, userId, followUserId) > 0 <==> Following(follows, userId, followUserId)
    decreases |follows|
  {
    if follows != [] {
      var init := follows[..|follows| - 1];
      CountRowsPositive(init, userId, followUserId);
      if Following(init, userId, followUserId) {
        var i :| 0 <= i < |init| && init[i] == Follow(userId, followUserId);
        assert follows[i] == init[i];
      }
      if Following(follows, userId, followUserId) && follows[|follows| - 1] != Follow(userId, followUserId) {
        var i :| 0 <= i < |follows| && follows[i] == Follow(userId, followUserId);
        assert init[i] == follows[i];
      }
    }
  }

  /** The rows left after deleting those where `userId` follows `followUserId`. */
  function Unfollowed(follows: seq<Follow>, userId: int, followUserId: int): (r: seq<Follow>)
    ensures forall x :: x in r <==> x in follows && x != Follow(userId, followUserId)
    ensures |r| + CountRows(follows, userId, followUserId) == |follows|
    decreases |follows|
  {
    if follows == [] then []
    else
      var init := follows[..|follows| - 1];
      var last := follows[|follows| - 1];
      assert follows == init + [last];
      Unfollowed(init, userId, followUserId) + (if last == Follow(userId, followUserId) then [] else [last])
  }

  /** Every member of a set of ids parsed; None when one is not a number (the call throws). */
  function ParseIdSet(members: set<string>): (r: Option<set<int>>)
    ensures r.Some? <==> forall m :: m in members ==> ParseDecimal(m).Some?
  {
    if forall m :: m in members ==> ParseDecimal(m).Some? then
      Some(set m | m in members :: ParseDecimal(m).value)
    else None
  }

  /** Members that are all decimal ids parse to exactly the ids they spell. */
  lemma ParseCanonical(members: set<string>)
    requires Canonical(members)
    ensures ParseIdSet(members).Some?
    ensures forall k :: k in ParseIdSet(members).value <==> DecimalString(k) in members
  {
    forall m | m in members ensures ParseDecimal(m).Some? {
      var k :| m == DecimalString(k);
      DecimalRoundTrip(k);
    }
    var ids := ParseIdSet(members).value;
    forall k ensures k in ids <==> DecimalString(k) in members {
      if DecimalString(k) in members {
        DecimalRoundTrip(k);
      }
      if k in ids {
        var m :| m in members && ParseDecimal(m).value == k;
        var j :| m == DecimalString(j);
        DecimalRoundTrip(j);
      }
    }
  }

  /** `userService.listByIds(ids)` mapped to DTOs. */
  function UserDTOsOf(ids: set<int>, users: map<int, User>): set<UserDTO> {
    set k | k in ids && k in users :: ToDTO(users[k])
  }

  /** Rows of the user table carry their own key as id. */
  predicate KeyedById(users: map<int, User>) {
    forall k :: k in users ==> users[k].id == k
  }

  lemma UserDTOsOfExact(ids: set<int>, users: map<int, User>, k: int)
    requires KeyedById(users) && k in users
    ensures ToDTO(users[k]) in UserDTOsOf(ids, users) <==> k in ids
  {
  }

  class FollowServiceImpl {
    const store: KeyValueStore
    const db: Tables

    constructor (store: KeyValueStore, db: Tables)
      ensures this.store == store && this.db == db
    {
      this.store := store;
      this.db := db;
    }

    /**
     * The follow sets mirror the follow rows: each holds decimal ids only,
     * and holds an id exactly when a row says its owner follows that user.
     */
    ghost predicate Mirrored()
      reads store, db
    {
      MirroredIn(store.sets, db.follows)
    }

    /**
     * `follow(followUserId, isFollow)` by `userId`: following oneself fails
     * and changes nothing; following adds a row and the id to the follow set;
     * unfollowing deletes the matching rows and, when there were any, removes
     * the id from the set.
     */
    method Follow(userId: int, followUserId: int, isFollow: bool) returns (r: Result<()>)
      modifies db`follows, store`sets
      ensures r == if userId == followUserId then Fail(SELF_FOLLOW) else Ok(())
      ensures userId == followUserId ==> db.follows == old(db.follows) && store.sets == old(store.sets)
      ensures userId != followUserId && isFollow ==>
                && db.follows == old(db.follows) + [Entities.Follow(userId, followUserId)]
                && store.sets == old(store.sets)[FollowsKey(userId) :=
                     old(store.Members(FollowsKey(userId))) + {DecimalString(followUserId)}]
      ensures userId != followUserId && !isFollow ==>
                && db.follows == Unfollowed(old(db.follows), userId, followUserId)
                && store.sets == if CountRows(old(db.follows), userId, followUserId) > 0
                                 then old(store.sets)[FollowsKey(userId) :=
                                        old(store.Members(FollowsKey(userId))) - {DecimalString(followUserId)}]
                                 else old(store.sets)
      ensures old(Mirrored()) ==> Mirrored()
    {
      var key := FollowsKey(userId);
      if userId == followUserId {
        return Fail(SELF_FOLLOW);
      }
      ghost var wasMirrored := Mirrored();
      ghost var rows := db.follows;
      ghost var sets := store.sets;
      if isFollow {
        db.follows := db.follows + [Entities.Follow(userId, followUserId)];
        store.SetAdd(key, DecimalString(followUserId));
        if wasMirrored {
          AddKeepsMirrored(rows, sets, userId, followUserId);
        }
      } else {
        var removed := CountRows(db.follows, userId, followUserId);
        db.follows := Unfollowed(db.follows, userId, followUserId);
        if removed > 0 {
          store.SetRemove(key, DecimalString(followUserId));
        }
        if wasMirrored {
          RemoveKeepsMirrored(rows, sets, userId, followUserId);
        }
      }
      return Ok(());
    }

    /** `isFollow(followUserId)` for `userId`: whether a row records the follow. */
    function IsFollow(userId: int, followUserId: int): (r: Result<bool>)
      reads db
      ensures r == Ok(Following(db.follows, userId, followUserId))
    {
      CountRowsPositive(db.follows, userId, followUserId);
      Ok(CountRows(db.follows, userId, followUserId) > 0)
    }

    /**
     * `followCommons(id)` for `userId` as written: both keys of the
     * intersection are the caller's own follow set, so the answer is everyone
     * the caller follows, whoever `id` is. None: a member did not parse.
     */
    function FollowCommons(userId: int, id: int): (r: Option<set<UserDTO>>)
      reads store, db
      ensures r.Some? ==> r.value <= set k | k in db.users :: ToDTO(db.users[k])
    {
      var key1 := FollowsKey(userId);
      var key2 := FollowsKey(userId);
      CommonUsers(store.Members(key1), store.Members(key2), db.users)
    }

    /** The common follows as intended: those both `userId` and `id` follow. */
    function FollowCommonsIntended(userId: int, id: int): (r: Option<set<UserDTO>>)
      reads store, db
      ensures r.Some? ==> r.value <= set k | k in db.users :: ToDTO(db.users[k])
    {
      CommonUsers(store.Members(FollowsKey(userId)), store.Members(FollowsKey(id)), db.users)
    }

    /** While the sets mirror the rows, the intended answer lists exactly the users both follow. */
    lemma FollowCommonsIntendedExact(userId: int, id: int)
      requires Mirrored() && KeyedById(db.users)
      ensures FollowCommonsIntended(userId, id).Some?
      ensures forall k :: k in db.users ==>
                (ToDTO(db.users[k]) in FollowCommonsIntended(userId, id).value
                 <==> Following(db.follows, userId, k) && Following(db.follows, id, k))
    {
      var s1, s2 := store.Members(FollowsKey(userId)), store.Members(FollowsKey(id));
      MirroredAt(store.sets, db.follows, userId, 0);
      CommonUsersExact(s1, s2, db.users);
      forall k | k in db.users
        ensures DecimalString(k) in s1 <==> Following(db.follows, userId, k)
        ensures DecimalString(k) in s2 <==> Following(db.follows, id, k)
      {
        MirroredAt(store.sets, db.follows, userId, k);
        MirroredAt(store.sets, db.follows, id, k);
      }
    }

    /**
     * While the sets mirror the rows, the answer as written lists exactly the
     * users the caller follows, so it lists a user `id` does not follow.
     */
    lemma FollowCommonsAsWritten(userId: int, id: int)
      requires Mirrored() && KeyedById(db.users)
      ensures FollowCommons(userId, id).Some?
      ensures forall k :: k in db.users ==>
                (ToDTO(db.users[k]) in FollowCommons(userId, id).value <==> Following(db.follows, userId, k))
    {
      var s1 := store.Members(FollowsKey(userId));
      MirroredAt(store.sets, db.follows, userId, 0);
      CommonUsersExact(s1, s1, db.users);
      forall k | k in db.users ensures DecimalString(k) in s1 <==> Following(db.follows, userId, k) {
        MirroredAt(store.sets, db.follows, userId, k);
      }
    }
  }

  /** Every member of the set is the decimal form of some id. */
  ghost predicate Canonical(members: set<string>) {
    forall m :: m in members ==> exists k :: m == DecimalString(k)
  }

  /** The follow sets in `sets` mirror the follow rows `rows`. */
  ghost predicate MirroredIn(sets: map<string, set<string>>, rows: seq<Follow>) {
    && (forall u :: Canonical(MembersIn(sets, FollowsKey(u))))
    && (forall u, f :: DecimalString(f) in MembersIn(sets, FollowsKey(u)) <==> Following(rows, u, f))
  }

  lemma MirroredAt(sets: map<string, set<string>>, rows: seq<Follow>, u: int, f: int)
    requires MirroredIn(sets, rows)
    ensures Canonical(MembersIn(sets, FollowsKey(u)))
    ensures DecimalString(f) in MembersIn(sets, FollowsKey(u)) <==> Following(rows, u, f)
  {
  }

  /**
   * The users listed for two follow sets: the intersection's ids parsed
   * and looked up (`listByIds`); an empty intersection lists nobody. None:
   * a member did not parse.
   */
  function CommonUsers(s1: set<string>, s2: set<string>, users: map<int, User>): (r: Option<set<UserDTO>>)
    ensures r.Some? ==> r.value <= set k | k in users :: ToDTO(users[k])
  {
    var common := s1 * s2;
    if common == {} then Some({})
    else match ParseIdSet(common)
      case None => None
      case Some(ids) => Some(UserDTOsOf(ids, users))
  }

  /** For sets of decimal ids, a user is listed exactly when both sets hold their id. */
  lemma CommonUsersExact(s1: set<string>, s2: set<string>, users: map<int, User>)
    requires Canonical(s1) && KeyedById(users)
    ensures CommonUsers(s1, s2, users).Some?
    ensures forall k :: k in users ==>
              (ToDTO(users[k]) in CommonUsers(s1, s2, users).value <==> DecimalString(k) in s1 && DecimalString(k) in s2)
  {
    CommonIds(s1, s2);
    var ids := ParseIdSet(s1 * s2).value;
    forall k | k in users
      ensures ToDTO(users[k]) in CommonUsers(s1, s2, users).value <==> DecimalString(k) in s1 && DecimalString(k) in s2
    {
      UserDTOsOfExact(ids, users, k);
      if s1 * s2 == {} {
        assert DecimalString(k) !in s1 * s2;
      }
    }
  }

  /** The ids in the intersection of two sets of decimal ids. */
  lemma CommonIds(s1: set<string>, s2: set<string>)
    requires Canonical(s1)
    ensures ParseIdSet(s1 * s2).Some?
    ensures forall k :: k in ParseIdSet(s1 * s2).value <==> DecimalString(k) in s1 && DecimalString(k) in s2
  {
    ParseCanonical(s1 * s2);
  }

  lemma FollowingAppend(rows: seq<Follow>, row: Follow, u: int, f: int)
    ensures Following(rows + [row], u, f) <==> Following(rows, u, f) || row == Entities.Follow(u, f)
  {
    var rows' := rows + [row];
    if Following(rows, u, f) {
      var i :| 0 <= i < |rows| && rows[i] == Entities.Follow(u, f);
      assert rows'[i] == rows[i];
    }
    if row == Entities.Follow(u, f) {
      assert rows'[|rows|] == row;
    }
    if Following(rows', u, f) && row != Entities.Follow(u, f) {
      var i :| 0 <= i < |rows'| && rows'[i] == Entities.Follow(u, f);
      assert rows[i] == rows'[i];
    }
  }

  lemma FollowingUnfollowed(rows: seq<Follow>, a: int, b: int, u: int, f: int)
    ensures Following(Unfollowed(rows, a, b), u, f) <==> Following(rows, u, f) && Entities.Follow(u, f) != Entities.Follow(a, b)
  {
    var rows' := Unfollowed(rows, a, b);
    var row := Entities.Follow(u, f);
    if Following(rows, u, f) && row != Entities.Follow(a, b) {
      var i :| 0 <= i < |rows| && rows[i] == row;
      assert row in rows';
      var j :| 0 <= j < |rows'| && rows'[j] == row;
    }
    if Following(rows', u, f) {
      var j :| 0 <= j < |rows'| && rows'[j] == row;
      assert row in rows;
      var i :| 0 <= i < |rows| && rows[i] == row;
    }
  }

  /** Adding a row and the matching set member keeps the sets mirroring the rows. */
  lemma AddKeepsMirrored(rows: seq<Follow>, sets: map<string, set<string>>, userId: int, followUserId: int)
    requires MirroredIn(sets, rows)
    ensures MirroredIn(sets[FollowsKey(userId) := MembersIn(sets, FollowsKey(userId)) + {DecimalString(followUserId)}],
                       rows + [Entities.Follow(userId, followUserId)])
  {
    var sets' := sets[FollowsKey(userId) := MembersIn(sets, FollowsKey(userId)) + {DecimalString(followUserId)}];
    var rows' := rows + [Entities.Follow(userId, followUserId)];
    forall u ensures Canonical(MembersIn(sets', FollowsKey(u))) {
      FollowsKeyInjective(u, userId);
      MirroredAt(sets, rows, u, 0);
    }
    forall u, f ensures DecimalString(f) in MembersIn(sets', FollowsKey(u)) <==> Following(rows', u, f) {
      FollowsKeyInjective(u, userId);
      MirroredAt(sets, rows, u, f);
      FollowingAppend(rows, Entities.Follow(userId, followUserId), u, f);
      if DecimalString(f) == DecimalString(followUserId) {
        DecimalInjective(f, followUserId);
      }
    }
  }

  /** Deleting the rows and, if there were any, the set member keeps the sets mirroring the rows. */
  lemma RemoveKeepsMirrored(rows: seq<Follow>, sets: map<string, set<string>>, userId: int, followUserId: int)
    requires MirroredIn(sets, rows)
    ensures MirroredIn(if CountRows(rows, userId, followUserId) > 0
                       then sets[FollowsKey(userId) := MembersIn(sets, FollowsKey(userId)) - {DecimalString(followUserId)}]
                       else sets,
                       Unfollowed(rows, userId, followUserId))
  {
    var sets' := if CountRows(rows, userId, followUserId) > 0
                 then sets[FollowsKey(userId) := MembersIn(sets, FollowsKey(userId)) - {DecimalString(followUserId)}]
                 else sets;
    var rows' := Unfollowed(rows, userId, followUserId);
    CountRowsPositive(rows, userId, followUserId);
    forall u ensures Canonical(MembersIn(sets', FollowsKey(u))) {
      FollowsKeyInjective(u, userId);
      MirroredAt(sets, rows, u, 0);
    }
    forall u, f ensures DecimalString(f) in MembersIn(sets', FollowsKey(u)) <==> Following(rows', u, f) {
      FollowsKeyInjective(u, userId);
      MirroredAt(sets, rows, u, f);
      MirroredAt(sets, rows, userId, followUserId);
      FollowingUnfollowed(rows, userId, followUserId, u, f);
      if DecimalString(f) == DecimalString(followUserId) {
        DecimalInjective(f, followUserId);
      }
    }
  }

  /** `SMEMBERS` on a raw set table. */
  function MembersIn(sets: map<string, set<string>>, key: string): set<string> {
    if key in sets then sets[key] else {}
  }
}
