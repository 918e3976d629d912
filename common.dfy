/**
 * Shared vocabulary of the model: optional values (Java's nullable
 * references), the decimal text of a Java `long` (`Long.toString` /
 * `Long.valueOf`, also the text form the key-value store keeps counters in),
 * blank-string detection (hutool's `StrUtil.isBlank`) and the abstract JSON
 * codec used for cached objects.
 */
module Common {

  datatype Option<+T> = None | Some(value: T)

  // ---------------------------------------------------------------------
  // Decimal text of integers
  // ---------------------------------------------------------------------

  predicate IsDigit(c: char) {
    '0' <= c <= '9'
  }

  predicate AllDigits(s: string) {
    forall i :: 0 <= i < |s| ==> IsDigit(s[i])
  }

  function DigitChar(d: nat): (c: char)
    requires d < 10
  {
    (('0' as int) + d) as char
  }

  /** Decimal digits of a natural number, without leading zeros. */
  function NatString(n: nat): string
    decreases n
  {
    if n < 10 then [DigitChar(n)] else NatString(n / 10) + [DigitChar(n % 10)]
  }

  /** `Long.toString(n)`: an optional minus sign followed by the digits. */
  function DecimalString(n: int): string {
    if n < 0 then "-" + NatString(-n) else NatString(n)
  }

  /** Value of a run of decimal digits, most significant first. */
  function DigitsValue(s: string): nat
    requires AllDigits(s)
    decreases |s|
  {
    if s == [] then 0 else DigitsValue(s[..|s| - 1]) * 10 + ((s[|s| - 1] as int) - ('0' as int))
  }

  /**
   * Integer parsing of a decimal text (`Long.valueOf`, and the store's own
   * reading of a counter): an optional '-' followed by at least one digit;
   * anything else is not a number.
   */
  function ParseDecimal(s: string): Option<int> {
    if |s| > 0 && s[0] == '-' then
      if |s| > 1 && AllDigits(s[1..]) then Some(0 - DigitsValue(s[1..]) as int) else None
    else if |s| > 0 && AllDigits(s) then Some(DigitsValue(s))
    else None
  }

  lemma {:induction false} NatStringParses(n: nat)
    ensures |NatString(n)| > 0 && AllDigits(NatString(n))
    ensures DigitsValue(NatString(n)) == n
    decreases n
  {
    if n >= 10 {
      NatStringParses(n / 10);
      var s := NatString(n);
      assert s[..|s| - 1] == NatString(n / 10);
    }
  }

  /** Printing an integer and reading it back gives the integer. */
  lemma DecimalRoundTrip(n: int)
    ensures ParseDecimal(DecimalString(n)) == Some(n)
  {
    NatStringParses(if n < 0 then -n else n);
    if n < 0 {
      assert DecimalString(n)[1..] == NatString(-n);
    }
  }

  /** Distinct integers have distinct decimal texts (so keys built from ids never collide). */
  lemma DecimalInjective(m: int, n: int)
    requires DecimalString(m) == DecimalString(n)
    ensures m == n
  {
    DecimalRoundTrip(m);
    DecimalRoundTrip(n);
  }

  // ---------------------------------------------------------------------
  // Blank strings
  // ---------------------------------------------------------------------

  /**
   * The characters hutool's `CharUtil.isBlankChar` treats as blank: Java
   * whitespace, Unicode space separators, and a few invisible characters.
   */
  predicate IsBlankChar(c: char) {
    c == ' ' || c == '\t' || c == '\n' || c == '\r' || c == '\U{000B}' || c == '\U{000C}'
    || ('\U{001C}' <= c <= '\U{001F}') || c == '\U{00A0}' || c == '\U{1680}'
    || ('\U{2000}' <= c <= '\U{200A}') || c == '\U{2028}' || c == '\U{2029}' || c == '\U{202F}'
    || c == '\U{205F}' || c == '\U{3000}' || c == '\U{FEFF}' || c == '\U{202A}' || c == '\U{0000}'
    || c == '\U{3164}' || c == '\U{2800}' || c == '\U{180E}'
  }

  /** `StrUtil.isBlank` on a non-null string: empty or blank characters only. */
  predicate IsBlank(s: string) {
    forall i :: 0 <= i < |s| ==> IsBlankChar(s[i])
  }

  /** `StrUtil.isBlank` on a nullable string. */
  predicate IsBlankOrNull(s: Option<string>) {
    s.None? || IsBlank(s.value)
  }

  // ---------------------------------------------------------------------
  // JSON
  // ---------------------------------------------------------------------

  /**
   * JSON serialisation of one bean type (hutool `JSONUtil.toJsonStr` and
   * `JSONUtil.toBean`), kept abstract.
   */
  datatype Codec<!T> = Codec(encode: T -> string, decode: string -> T)

  /**
   * What the model assumes of a codec: decoding an encoding gives the value
   * back, and an encoding is never blank (a JSON object starts with '{').
   */
  ghost predicate RoundTrips<T(!new)>(c: Codec<T>) {
    forall x :: c.decode(c.encode(x)) == x && !IsBlank(c.encode(x))
  }
}
