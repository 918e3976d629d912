/**
 * The input validators (RegexUtils.java) and their patterns
 * (RegexPatterns.java), each pattern written out as a predicate over the
 * whole string. A validator answers true when the input is INVALID: absent,
 * blank, or not a full match of its pattern.
 */
module Regex {
  import opened Common

  predicate Digit(c: char) {
    '0' <= c <= '9'
  }

  predicate Letter(c: char) {
    'a' <= c <= 'z' || 'A' <= c <= 'Z'
  }

  /** `\w` without the Unicode flag: a letter, a digit or '_'. */
  predicate WordChar(c: char) {
    Letter(c) || Digit(c) || c == '_'
  }

  /** `[a-zA-Z0-9_-]` */
  predicate EmailChar(c: char) {
    WordChar(c) || c == '-'
  }

  /**
   * The second and third digits PHONE_REGEX allows after the leading 1, as
   * written: the class `[0-3,5-9]` also admits a literal ','.
   */
  predicate PhonePrefixAsWritten(second: char, third: char) {
    || ((second == '3' || second == '8') && Digit(third))
    || (second == '4' && (third == '5' || third == '7' || third == '9'))
    || (second == '5' && (('0' <= third <= '3') || third == ',' || ('5' <= third <= '9')))
    || (second == '6' && third == '6')
    || (second == '7' && (third == '0' || third == '1' || third == '3' || third == '5' || third == '6' || third == '7' || third == '8'))
    || (second == '9' && (third == '8' || third == '9'))
  }

  /** The second and third digits as intended: the same ranges without the ','. */
  predicate PhonePrefix(second: char, third: char) {
    PhonePrefixAsWritten(second, third) && third != ','
  }

  /** `^1([38][0-9]|4[579]|5[0-3,5-9]|6[6]|7[0135678]|9[89])\d{8}$` as written. */
  predicate PhoneMatchesAsWritten(s: string) {
    |s| == 11 && s[0] == '1' && PhonePrefixAsWritten(s[1], s[2]) && forall i :: 3 <= i < 11 ==> Digit(s[i])
  }

  /** The phone pattern as intended: a '1', an allowed prefix, then eight digits. */
  predicate PhoneMatches(s: string) {
    |s| == 11 && s[0] == '1' && PhonePrefix(s[1], s[2]) && forall i :: 3 <= i < 11 ==> Digit(s[i])
  }

  /** As written, the pattern accepts a "phone number" holding a comma. */
  lemma PhoneAcceptsComma()
    ensures PhoneMatchesAsWritten("15,12345678") && !PhoneMatches("15,12345678")
  {
    var s := "15,12345678";
    assert s[0] == '1' && s[1] == '5' && s[2] == ',';
  }

  /** As intended, a phone number is eleven digits; otherwise both patterns agree. */
  lemma PhoneMatchesDigits(s: string)
    ensures PhoneMatches(s) ==> |s| == 11 && forall i :: 0 <= i < |s| ==> Digit(s[i])
    ensures PhoneMatches(s) <==> PhoneMatchesAsWritten(s) && ',' !in s
  {
    if PhoneMatchesAsWritten(s) && ',' !in s {
      assert s[2] in s;
    }
    if PhoneMatches(s) {
      forall i | 0 <= i < |s| ensures Digit(s[i]) {
        if i >= 3 {
          assert Digit(s[i]);
        }
      }
      forall i | 0 <= i < |s| ensures s[i] != ',' {
        if i >= 3 {
          assert Digit(s[i]);
        }
      }
    }
  }

  /** Labels of an e-mail domain: runs of `[a-zA-Z0-9_-]` joined by single dots. */
  predicate DottedLabels(d: string) {
    && |d| > 0 && d[0] != '.' && d[|d| - 1] != '.'
    && (forall i :: 0 <= i < |d| ==> EmailChar(d[i]) || d[i] == '.')
    && (forall i :: 0 <= i < |d| - 1 ==> !(d[i] == '.' && d[i + 1] == '.'))
  }

  /** `^[a-zA-Z0-9_-]+@[a-zA-Z0-9_-]+(\.[a-zA-Z0-9_-]+)+$`: a local part, '@', and a domain of two or more labels. */
  predicate EmailMatches(s: string) {
    exists k :: 0 < k < |s| && s[k] == '@'
      && (forall i :: 0 <= i < k ==> EmailChar(s[i]))
      && DottedLabels(s[k + 1..]) && '.' in s[k + 1..]
  }

  /** `^\w{4,32}$` */
  predicate PasswordMatches(s: string) {
    4 <= |s| <= 32 && forall i :: 0 <= i < |s| ==> WordChar(s[i])
  }

  /** `^[a-zA-Z\d]{6}$` */
  predicate CodeMatches(s: string) {
    |s| == 6 && forall i :: 0 <= i < |s| ==> Letter(s[i]) || Digit(s[i])
  }

  datatype Pattern = Phone | Email | Password | VerifyCode

  predicate FullMatch(p: Pattern, s: string) {
    match p
    case Phone => PhoneMatchesAsWritten(s)
    case Email => EmailMatches(s)
    case Password => PasswordMatches(s)
    case VerifyCode => CodeMatches(s)
  }

  /**
   * `mismatch(str, regex)`: absent or blank, or not a full match. Since no
   * pattern matches a blank string, a present input is refused exactly when
   * it does not match; "true" means the input does NOT conform.
   */
  function Mismatch(s: Option<string>, p: Pattern): (invalid: bool)
    ensures invalid <==> s.None? || !FullMatch(p, s.value)
  {
    if IsBlankOrNull(s) then
      if s.Some? then NoBlankMatch(p, s.value); true else true
    else !FullMatch(p, s.value)
  }

  /** `isPhoneInvalid(phone)`, against PHONE_REGEX as written. */
  function IsPhoneInvalid(phone: Option<string>): (invalid: bool)
    ensures invalid <==> phone.None? || !PhoneMatchesAsWritten(phone.value)
  {
    Mismatch(phone, Phone)
  }

  /** `isEmailInvalid(email)` */
  function IsEmailInvalid(email: Option<string>): (invalid: bool)
    ensures invalid <==> email.None? || !EmailMatches(email.value)
  {
    Mismatch(email, Email)
  }

  /** `isCodeInvalid(code)` */
  function IsCodeInvalid(code: Option<string>): (invalid: bool)
    ensures invalid <==> code.None? || !CodeMatches(code.value)
  {
    Mismatch(code, VerifyCode)
  }

  /** No pattern matches a blank string: each needs a first character no blank can be. */
  lemma NoBlankMatch(p: Pattern, t: string)
    ensures IsBlank(t) ==> !FullMatch(p, t)
  {
    if |t| > 0 {
      var c := t[0];
      assert IsBlankChar(c) ==> !EmailChar(c) && !Letter(c) && !Digit(c);
      if p.Email? && EmailMatches(t) {
        var k :| 0 < k < |t| && t[k] == '@' && (forall i :: 0 <= i < k ==> EmailChar(t[i]))
                 && DottedLabels(t[k + 1..]) && '.' in t[k + 1..];
        assert EmailChar(c);
      }
    }
  }

  /** A six-digit code, as `sendCode` generates, passes the code validator. */
  lemma DigitCodeValid(code: string)
    requires |code| == 6 && forall i :: 0 <= i < 6 ==> Digit(code[i])
    ensures !IsCodeInvalid(Some(code))
  {
    assert !IsBlankChar(code[0]);
  }

  /** The e-mail pattern accepts a local part, '@', and a dotted domain. */
  lemma EmailAccepts()
    ensures EmailMatches("a-b@x.cn")
  {
    var s := "a-b@x.cn";
    var d := s[4..];
    assert d == "x.cn";
    assert DottedLabels(d) && d[1] == '.';
    assert s[3] == '@' && (forall i :: 0 <= i < 3 ==> EmailChar(s[i]));
  }

  /** The e-mail pattern refuses a domain without a dot. */
  lemma EmailNeedsDottedDomain()
    ensures !EmailMatches("ab@cn")
  {
    var t := "ab@cn";
    forall k | 0 < k < |t| && t[k] == '@'
      ensures '.' !in t[k + 1..]
    {
      assert k == 2 && t[3..] == "cn";
    }
  }

  /** The password pattern: four to thirty-two word characters. */
  lemma PasswordExamples()
    ensures PasswordMatches("ab_1") && !PasswordMatches("ab1") && !PasswordMatches("ab-1")
    ensures !PasswordMatches(seq(33, _ => 'a'))
  {
    assert !WordChar("ab-1"[2]);
  }

  /** The code pattern: exactly six letters or digits. */
  lemma CodeExamples()
    ensures CodeMatches("a1B2c3") && !CodeMatches("12345") && !CodeMatches("12345_")
  {
    assert !Letter("12345_"[5]) && !Digit("12345_"[5]);
  }

  /** The phone pattern as written: eleven characters, all digits except that the third may be ','. */
  lemma PhoneAsWrittenShape(s: string)
    requires PhoneMatchesAsWritten(s)
    ensures |s| == 11 && (Digit(s[2]) || s[2] == ',')
    ensures forall i :: 0 <= i < |s| && i != 2 ==> Digit(s[i])
  {
    forall i | 0 <= i < |s| && i != 2 ensures Digit(s[i]) {
      if i >= 3 {
        assert Digit(s[i]);
      }
    }
  }

  /**
   * An address the e-mail pattern accepts holds exactly one '@', with at
   * least one character before it and at least three ("x.y") after it.
   */
  lemma EmailSingleAt(s: string)
    requires EmailMatches(s)
    ensures exists k :: 0 < k <= |s| - 4 && s[k] == '@' && forall j :: 0 <= j < |s| && j != k ==> s[j] != '@'
  {
    var k :| 0 < k < |s| && s[k] == '@' && (forall i :: 0 <= i < k ==> EmailChar(s[i]))
             && DottedLabels(s[k + 1..]) && '.' in s[k + 1..];
    var d := s[k + 1..];
    DomainShape(d);
    forall j | 0 <= j < |s| && j != k ensures s[j] != '@' {
      if j > k {
        assert s[j] == d[j - k - 1];
      } else {
        assert EmailChar(s[j]);
      }
    }
  }

  /** A dotted domain holds no '@' and, with a dot in it, at least three characters. */
  lemma DomainShape(d: string)
    requires DottedLabels(d) && '.' in d
    ensures |d| >= 3 && forall j :: 0 <= j < |d| ==> d[j] != '@'
  {
    var m :| 0 <= m < |d| && d[m] == '.';
    assert 0 < m < |d| - 1;
    forall j | 0 <= j < |d| ensures d[j] != '@' {
      assert EmailChar(d[j]) || d[j] == '.';
    }
  }

  /** A phone number, even as the written pattern admits it, is never an e-mail address. */
  lemma PhoneIsNotEmail(s: string)
    requires PhoneMatchesAsWritten(s)
    ensures !EmailMatches(s)
  {
    PhoneAsWrittenShape(s);
    if EmailMatches(s) {
      EmailSingleAt(s);
    }
  }

  /** Every well-formed verification code also has the shape of a password. */
  lemma CodeIsPasswordShaped(s: string)
    requires CodeMatches(s)
    ensures PasswordMatches(s)
  {
  }
}
