/**
 * The password format (PasswordEncoder.java): a stored password is the salt,
 * an '@', and the hexadecimal MD5 digest of the password followed by the
 * salt. The digest is a function parameter; the random salt is an argument.
 */
module Password {
  import opened Common

  predicate HexChar(c: char) {
    '0' <= c <= '9' || 'a' <= c <= 'f'
  }

  /** `md5DigestAsHex` yields 32 lower-case hexadecimal characters. */
  ghost predicate HexDigest(md5: string -> string) {
    forall s :: |md5(s)| == 32 && forall i :: 0 <= i < 32 ==> HexChar(md5(s)[i])
  }

  /** `encode(password, salt)` */
  function Encode(password: string, salt: string, md5: string -> string): (e: string)
    ensures |e| > |salt| && e[..|salt|] == salt && e[|salt|] == '@'
  {
    salt + "@" + md5(password + salt)
  }

  /** The text before the first `c` (all of `s` when there is none). */
  function Before(s: string, c: char): (r: string)
    ensures |r| <= |s| && r == s[..|r|] && c !in r
    ensures |r| < |s| ==> s[|r|] == c
  {
    if s == [] || s[0] == c then [] else [s[0]] + Before(s[1..], c)
  }

  /**
   * `encodedPassword.split("@")[0]`: the text before the first '@'. A string
   * made of '@' only splits into no parts, so there is no first one (None).
   */
  function SaltOf(encoded: string): (r: Option<string>)
    ensures r.Some? ==> '@' !in r.value
  {
    if forall i :: 0 <= i < |encoded| ==> encoded[i] == '@' then None else Some(Before(encoded, '@'))
  }

  /**
   * `matches(encodedPassword, rawPassword)`: false when either is null; an
   * error (None) when the encoded form has no '@' or no first part;
   * otherwise whether re-encoding the raw password with the stored salt
   * gives the stored form.
   */
  function Matches(encoded: Option<string>, raw: Option<string>, md5: string -> string): (r: Option<bool>)
    ensures (encoded.None? || raw.None?) ==> r == Some(false)
    ensures encoded.Some? && raw.Some? && '@' !in encoded.value ==> r.None?
  {
    if encoded.None? || raw.None? then Some(false)
    else if '@' !in encoded.value then None
    else match SaltOf(encoded.value)
      case None => None
      case Some(salt) => Some(encoded.value == Encode(raw.value, salt, md5))
  }

  /** The salt of an encoded password is the salt it was encoded with. */
  lemma SaltOfEncode(password: string, salt: string, md5: string -> string)
    requires '@' !in salt && HexDigest(md5)
    ensures SaltOf(Encode(password, salt, md5)) == Some(salt)
  {
    var e := Encode(password, salt, md5);
    var d := md5(password + salt);
    assert e[|salt| + 1] == d[0] && HexChar(d[0]);
    BeforeFirst(salt, '@', d);
    assert e == salt + ['@'] + d;
  }

  lemma {:induction false} BeforeFirst(prefix: string, c: char, rest: string)
    requires c !in prefix
    ensures Before(prefix + [c] + rest, c) == prefix
    decreases |prefix|
  {
    if prefix != [] {
      BeforeFirst(prefix[1..], c, rest);
      assert (prefix + [c] + rest)[1..] == prefix[1..] + [c] + rest;
    }
  }

  /** Round trip: a password matches its own encoding under any salt without '@'. */
  lemma EncodeThenMatches(password: string, salt: string, md5: string -> string)
    requires '@' !in salt && HexDigest(md5)
    ensures Matches(Some(Encode(password, salt, md5)), Some(password), md5) == Some(true)
  {
    SaltOfEncode(password, salt, md5);
    assert '@' in Encode(password, salt, md5);
  }

  /**
   * For a well-formed stored password, `matches` holds exactly when the
   * stored form is the raw password encoded under some salt without '@'.
   */
  lemma MatchesIff(encoded: string, raw: string, md5: string -> string)
    requires HexDigest(md5) && '@' in encoded && SaltOf(encoded).Some?
    ensures Matches(Some(encoded), Some(raw), md5) == Some(true)
            <==> exists salt :: '@' !in salt && encoded == Encode(raw, salt, md5)
  {
    var salt := SaltOf(encoded).value;
    if Matches(Some(encoded), Some(raw), md5) == Some(true) {
      assert '@' !in salt && encoded == Encode(raw, salt, md5);
    }
    if exists s :: '@' !in s && encoded == Encode(raw, s, md5) {
      var s :| '@' !in s && encoded == Encode(raw, s, md5);
      SaltOfEncode(raw, s, md5);
    }
  }
}
