/** Support shared by the whole model: optional values, the few string
    operations the Java code relies on (startsWith, contains, equalsIgnoreCase),
    the read-only settings provider, and Java's decimal int text
    (Integer.parseInt and Integer.toString). */
module Util {

  datatype Option<+T> = None | Some(value: T)

  /** Java's 32-bit `int`. */
  newtype Int32 = x: int | -0x8000_0000 <= x < 0x8000_0000

  /** String.startsWith */
  predicate StartsWith(s: string, prefix: string) {
    |prefix| <= |s| && s[..|prefix|] == prefix
  }

  /** String.contains */
  predicate Contains(s: string, sub: string) {
    exists i :: 0 <= i <= |s| - |sub| && StartsWith(s[i..], sub)
  }

  /** Character.toLowerCase, restricted to ASCII letters. */
  function ToLowerAscii(c: char): (r: char)
    ensures 'A' <= c <= 'Z' ==> 'a' <= r <= 'z'
    ensures !('A' <= c <= 'Z') ==> r == c
  {
    if 'A' <= c <= 'Z' then (c as int + 32) as char else c
  }

  /** String.equalsIgnoreCase, ASCII case folding only. */
  predicate EqualsIgnoreCase(a: string, b: string) {
    |a| == |b| && forall i :: 0 <= i < |a| ==> ToLowerAscii(a[i]) == ToLowerAscii(b[i])
  }

  /** equalsIgnoreCase is transitive and symmetric. */
  lemma {:induction false} EqualsIgnoreCaseTransitive(a: string, b: string, c: string)
    requires EqualsIgnoreCase(a, b) && EqualsIgnoreCase(b, c)
    ensures EqualsIgnoreCase(a, c)
  {
    forall i | 0 <= i < |a|
      ensures ToLowerAscii(a[i]) == ToLowerAscii(c[i])
    {
      assert ToLowerAscii(a[i]) == ToLowerAscii(b[i]);
    }
  }

  lemma EqualsIgnoreCaseSymmetric(a: string, b: string)
    requires EqualsIgnoreCase(a, b)
    ensures EqualsIgnoreCase(b, a)
  {
  }

  /** The settings provider (the IBController .ini file once loaded): typed
      lookups with a default for a missing key. How the text of a setting is
      turned into a boolean or an integer is not part of this model, so the
      boolean and integer settings are held already converted. */
  datatype Settings = Settings(
    strings: map<string, string>,
    booleans: map<string, bool>,
    ints: map<string, Int32>)
  {
    function GetString(key: string, default: string): (r: string)
      ensures key !in strings ==> r == default
      ensures key in strings ==> r == strings[key]
    {
      if key in strings then strings[key] else default
    }

    function GetBoolean(key: string, default: bool): (r: bool)
      ensures key !in booleans ==> r == default
      ensures key in booleans ==> r == booleans[key]
    {
      if key in booleans then booleans[key] else default
    }

    function GetInt(key: string, default: Int32): (r: Int32)
      ensures key !in ints ==> r == default
      ensures key in ints ==> r == ints[key]
    {
      if key in ints then ints[key] else default
    }
  }

  // ---------------------------------------------------------------------
  // Decimal text of integers: Integer.parseInt and Integer.toString
  // ---------------------------------------------------------------------

  predicate IsDigit(c: char) { '0' <= c <= '9' }

  predicate AllDigits(s: string) { forall i :: 0 <= i < |s| ==> IsDigit(s[i]) }

  function DigitValue(c: char): nat
    requires IsDigit(c)
  {
    c as int - '0' as int
  }

  function DigitChar(d: nat): (c: char)
    requires d < 10
    ensures IsDigit(c) && DigitValue(c) == d
  {
    ('0' as int + d) as char
  }

  /** The value of a string of decimal digits, most significant first. */
  function DigitsValue(s: string): nat
    requires AllDigits(s)
    decreases |s|
  {
    if s == [] then 0 else DigitsValue(s[..|s| - 1]) * 10 + DigitValue(s[|s| - 1])
  }

  /** The shortest decimal digit string of n. */
  function NatDigits(n: nat): (s: string)
    decreases n
  {
    if n < 10 then [DigitChar(n)] else NatDigits(n / 10) + [DigitChar(n % 10)]
  }

  /** Integer.toString: a minus sign for negative values, then the digits. */
  function IntToString(n: int): string {
    if n < 0 then "-" + NatDigits(-n) else NatDigits(n)
  }

  /** Integer.parseInt: an optional sign, at least one digit, and a value that
      fits in an int; None stands for the NumberFormatException it throws
      otherwise. (Non-ASCII digits, which Java also accepts, are not modelled.) */
  function ParseInt(s: string): (r: Option<Int32>)
    ensures r.Some? ==> |s| > 0
  {
    if s == [] then None
    else
      var negative := s[0] == '-';
      var digits := if s[0] == '-' || s[0] == '+' then s[1..] else s;
      if digits == [] || !AllDigits(digits) then None
      else
        var magnitude: int := DigitsValue(digits);
        var v := if negative then -magnitude else magnitude;
        if -0x8000_0000 <= v < 0x8000_0000 then Some(v as Int32) else None
  }

  lemma {:induction false} NatDigitsShape(n: nat)
    ensures |NatDigits(n)| > 0 && AllDigits(NatDigits(n))
    ensures DigitsValue(NatDigits(n)) == n
    decreases n
  {
    if n >= 10 {
      NatDigitsShape(n / 10);
      var s := NatDigits(n);
      assert s[..|s| - 1] == NatDigits(n / 10);
    }
  }

  /** Reading back the text that Integer.toString wrote gives the same int. */
  lemma IntToStringRoundTrip(n: Int32)
    ensures ParseInt(IntToString(n as int)) == Some(n)
  {
    var m := if n < 0 then -(n as int) else n as int;
    NatDigitsShape(m);
    var s := IntToString(n as int);
    if n < 0 {
      assert s[1..] == NatDigits(m);
    } else {
      assert s[0] != '-' && s[0] != '+' by { assert IsDigit(s[0]); }
    }
  }
}
