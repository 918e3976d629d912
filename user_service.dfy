/**
 * Sign-in by phone (UserServiceImpl.java): a six-digit code is stored under
 * the phone with a time-to-live; logging in with the stored code finds or
 * creates the user and stores the user's DTO, as string fields, in a session
 * hash under the token; logging out deletes that hash. The code generator,
 * the token generator and the random nickname are arguments.
 */
module UserService {
  import opened Common
  import opened Entities
  import opened Store
  import opened Database
  import opened RedisConstants
  import opened Regex

  const PHONE_FORMAT_ERROR := "手机号格式错误！"
  const CODE_ERROR := "验证码错误！"
  const NICK_PREFIX := "user_"
  /** What `"prefix" + null` yields in Java. */
  const NULL_TEXT := "null"

  /**
   * The session hash of a user: the DTO's non-null fields, each as a string
   * (`beanToMap` ignoring nulls, every value through `toString`).
   */
  function UserHash(dto: UserDTO): (h: map<string, string>)
    ensures "id" in h
  {
    map["id" := DecimalString(dto.id)]
    + (if dto.nickName.Some? then map["nickName" := dto.nickName.value] else map[])
    + (if dto.icon.Some? then map["icon" := dto.icon.value] else map[])
  }

  /** Reading a session hash back into a DTO (None: no numeric id). */
  function DTOOfHash(h: map<string, string>): Option<UserDTO> {
    if "id" !in h then None
    else match ParseDecimal(h["id"])
      case None => None
      case Some(id) =>
        Some(UserDTO(id,
                     if "nickName" in h then Some(h["nickName"]) else None,
                     if "icon" in h then Some(h["icon"]) else None))
  }

  /** The session hash holds the whole DTO: reading it back gives the DTO. */
  lemma UserHashRoundTrip(dto: UserDTO)
    ensures DTOOfHash(UserHash(dto)) == Some(dto)
  {
    DecimalRoundTrip(dto.id);
    var h := UserHash(dto);
    assert "nickName" in h <==> dto.nickName.Some?;
    assert "icon" in h <==> dto.icon.Some?;
  }

  /**
   * Whatever a session hash held before, once a login merges a DTO into it
   * the hash reads back as a DTO with that id, nickname and icon where present.
   */
  lemma SessionReadsBack(session: map<string, string>, dto: UserDTO)
    ensures DTOOfHash(session + UserHash(dto)).Some?
    ensures DTOOfHash(session + UserHash(dto)).value.id == dto.id
    ensures dto.nickName.Some? ==> DTOOfHash(session + UserHash(dto)).value.nickName == dto.nickName
    ensures dto.icon.Some? ==> DTOOfHash(session + UserHash(dto)).value.icon == dto.icon
  {
    DecimalRoundTrip(dto.id);
    var h := session + UserHash(dto);
    assert h["id"] == DecimalString(dto.id);
  }

  /** The keys of the user rows with this phone (`query().eq("phone", phone)`). */
  function UsersWithPhone(users: map<int, User>, phone: string): set<int> {
    set k | k in users && users[k].phone == phone
  }

  /** The user `createUserWithPhone` inserts. */
  function NewUser(id: int, phone: string, nickSuffix: string): User {
    User(id, phone, Some(NICK_PREFIX + nickSuffix), None)
  }

  /** After `createUserWithPhone` the new user is the only one with the phone, so a second login creates nobody. */
  lemma CreatedUserIsOnly(users: map<int, User>, id: int, phone: string, nickSuffix: string)
    requires UsersWithPhone(users, phone) == {} && id !in users
    ensures UsersWithPhone(users[id := NewUser(id, phone, nickSuffix)], phone) == {id}
  {
    var users' := users[id := NewUser(id, phone, nickSuffix)];
    forall k | k in UsersWithPhone(users', phone) ensures k == id {
      assert k != id ==> k in UsersWithPhone(users, phone);
    }
  }

  /** Some element of a non-empty set. */
  method Choose<T>(s: set<T>) returns (x: T)
    requires |s| > 0
    ensures x in s
  {
    x :| x in s;
  }

  lemma OnlyElement(s: set<int>, a: int, b: int)
    requires |s| == 1 && a in s && b in s
    ensures a == b
  {
    assert |s - {a}| == 0;
    assert b in s - {a} || b == a;
  }

  class UserServiceImpl {
    const store: KeyValueStore
    const db: Tables

    constructor (store: KeyValueStore, db: Tables)
      ensures this.store == store && this.db == db
    {
      this.store := store;
      this.db := db;
    }

    function CodeKey(phone: string): string {
      LOGIN_CODE_KEY + phone
    }

    function TokenKey(token: string): string {
      LOGIN_USER_KEY + token
    }

    /**
     * `sendCode(phone)` with the generated six-digit `code`: an invalid phone
     * fails and stores nothing; otherwise the code is stored under the phone
     * for LOGIN_CODE_TTL minutes.
     */
    method SendCode(phone: Option<string>, code: string, now: int) returns (r: Result<()>)
      requires |code| == 6 && forall i :: 0 <= i < 6 ==> Digit(code[i])
      modifies store`strings
      ensures IsPhoneInvalid(phone) ==> r == Fail(PHONE_FORMAT_ERROR) && store.strings == old(store.strings)
      ensures !IsPhoneInvalid(phone) ==>
                && r == Ok(())
                && store.strings == old(store.strings)[CodeKey(phone.value) := Entry(code, Some(now + Minutes(LOGIN_CODE_TTL)))]
    {
      if IsPhoneInvalid(phone) {
        return Fail(PHONE_FORMAT_ERROR);
      }
      store.Set(CodeKey(phone.value), code, Some(Minutes(LOGIN_CODE_TTL)), now);
      return Ok(());
    }

    /**
     * `createUserWithPhone(phone)` with the random ten-character `nickSuffix`:
     * inserts a user under the next id. None: the id is taken (the insert throws).
     */
    method CreateUserWithPhone(phone: string, nickSuffix: string) returns (u: Option<User>)
      modifies db`users, db`nextUserId
      ensures var id := old(db.nextUserId);
              && (id in old(db.users) ==> u.None? && db.users == old(db.users) && db.nextUserId == id)
              && (id !in old(db.users) ==>
                    && u == Some(NewUser(id, phone, nickSuffix))
                    && db.users == old(db.users)[id := NewUser(id, phone, nickSuffix)]
                    && db.nextUserId == id + 1)
    {
      var id := db.nextUserId;
      if id in db.users {
        return None;
      }
      var user := NewUser(id, phone, nickSuffix);
      db.users := db.users[id := user];
      db.nextUserId := id + 1;
      return Some(user);
    }

    /**
     * `login(phone, code)` issuing `token`: an invalid phone, a missing
     * stored code or a different code fail and change nothing. Otherwise the
     * user with that phone is found, or created when there is none; their DTO
     * goes into the session hash under the token, which lives LOGIN_USER_TTL
     * minutes; the stored code stays. None: more than one user has the phone
     * (`one()` throws) or the new user's id is taken.
     */
    method Login(phone: Option<string>, code: Option<string>, token: string, nickSuffix: string, now: int)
      returns (r: Option<Result<string>>)
      modifies db`users, db`nextUserId, store`hashes
      ensures store.strings == old(store.strings)
      ensures r == if IsPhoneInvalid(phone) then Some(Fail(PHONE_FORMAT_ERROR))
                   else if old(store.Get(CodeKey(phone.value), now)).None? || old(store.Get(CodeKey(phone.value), now)) != code
                   then Some(Fail(CODE_ERROR))
                   else if |old(UsersWithPhone(db.users, phone.value))| > 1 then None
                   else if old(UsersWithPhone(db.users, phone.value)) == {} && old(db.nextUserId) in old(db.users) then None
                   else Some(Ok(token))
      ensures r.Some? && r.value.Fail? ==>
                db.users == old(db.users) && db.nextUserId == old(db.nextUserId) && store.hashes == old(store.hashes)
      ensures r.Some? && r.value.Ok? ==>
                && !IsPhoneInvalid(phone)
                && |old(UsersWithPhone(db.users, phone.value))| <= 1
                && var key := TokenKey(token);
                   var session := old(store.HashFields(key, now));
                   var expiry := Some(now + Minutes(LOGIN_USER_TTL));
                   && (old(UsersWithPhone(db.users, phone.value)) == {} ==>
                         var user := NewUser(old(db.nextUserId), phone.value, nickSuffix);
                         && user.id !in old(db.users)
                         && db.users == old(db.users)[user.id := user] && db.nextUserId == old(db.nextUserId) + 1
                         && store.hashes == old(store.hashes)[key := HashEntry(session + UserHash(ToDTO(user)), expiry)])
                   && (forall k :: k in old(UsersWithPhone(db.users, phone.value)) ==>
                         && db.users == old(db.users) && db.nextUserId == old(db.nextUserId)
                         && store.hashes == old(store.hashes)[key := HashEntry(session + UserHash(ToDTO(old(db.users)[k])), expiry)])
    {
      if IsPhoneInvalid(phone) {
        return Some(Fail(PHONE_FORMAT_ERROR));
      }
      var cacheCode := store.Get(CodeKey(phone.value), now);
      if cacheCode.None? || Some(cacheCode.value) != code {
        return Some(Fail(CODE_ERROR));
      }
      var matches := UsersWithPhone(db.users, phone.value);
      if |matches| > 1 {
        return None;
      }
      var user: User;
      if matches == {} {
        var created := CreateUserWithPhone(phone.value, nickSuffix);
        if created.None? {
          return None;
        }
        user := created.value;
      } else {
        var k := Choose(matches);
        user := db.users[k];
        forall k' | k' in matches ensures k' == k {
          OnlyElement(matches, k, k');
        }
      }
      SaveSession(token, user, now);
      return Some(Ok(token));
    }

    /** Stores the user's DTO under the token (merged over any live session) for LOGIN_USER_TTL minutes. */
    method SaveSession(token: string, user: User, now: int)
      modifies store`hashes
      ensures store.hashes == old(store.hashes)[TokenKey(token) :=
                HashEntry(old(store.HashFields(TokenKey(token), now)) + UserHash(ToDTO(user)), Some(now + Minutes(LOGIN_USER_TTL)))]
    {
      var key := TokenKey(token);
      store.HashPutAll(key, UserHash(ToDTO(user)), now);
      var ok := store.ExpireHash(key, Minutes(LOGIN_USER_TTL), now);
    }

    /**
     * `logout` with the `authorization` header (absent: the text "null" is
     * appended): deletes the session key when it exists; otherwise nothing
     * changes.
     */
    method Logout(header: Option<string>, now: int) returns (r: Result<()>)
      modifies store`strings, store`hashes, store`sets, store`zsets
      ensures r == Ok(())
      ensures var key := TokenKey(if header.Some? then header.value else NULL_TEXT);
              && (old(store.Exists(key, now)) ==> store.strings == old(store.strings) - {key} && store.OtherTablesLost({key}))
              && (!old(store.Exists(key, now)) ==> store.strings == old(store.strings) && store.OtherTablesLost({}))
              && !store.Exists(key, now)
    {
      var key := TokenKey(if header.Some? then header.value else NULL_TEXT);
      if store.Exists(key, now) {
        store.Delete(key);
      }
      return Ok(());
    }

    /** A code sent to a valid phone lets that phone log in before the code expires. */
    method SendThenLogin(phone: string, code: string, token: string, nickSuffix: string, t1: int, t2: int)
      returns (r: Option<Result<string>>)
      requires !IsPhoneInvalid(Some(phone)) && |code| == 6 && forall i :: 0 <= i < 6 ==> Digit(code[i])
      requires t1 <= t2 < t1 + Minutes(LOGIN_CODE_TTL)
      requires |UsersWithPhone(db.users, phone)| <= 1 && db.nextUserId !in db.users
      modifies db`users, db`nextUserId, store`strings, store`hashes
      ensures r == Some(Ok(token))
      ensures store.Get(CodeKey(phone), t2) == Some(code)
    {
      var sent := SendCode(Some(phone), code, t1);
      assert store.Get(CodeKey(phone), t2) == Some(code);
      r := Login(Some(phone), Some(code), token, nickSuffix, t2);
    }
  }
}
