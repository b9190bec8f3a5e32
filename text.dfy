/**
 * The string built-ins the application calls: `trim`, `toLowerCase`,
 * `toUpperCase`, `includes`, integer `toString` and `Number.parseFloat`.
 *
 * Whitespace is JavaScript's set (the class `\s` of regular expressions and the
 * characters `trim` strips), compared by code point. Case mapping is ASCII only.
 */
module Text {
  import opened Wrappers

  /** JavaScript's WhiteSpace and LineTerminator characters. */
  predicate IsWhitespace(c: char) {
    var n := c as int;
    n == 0x09 || n == 0x0A || n == 0x0B || n == 0x0C || n == 0x0D || n == 0x20 ||
    n == 0xA0 || n == 0x1680 || (0x2000 <= n && n <= 0x200A) ||
    n == 0x2028 || n == 0x2029 || n == 0x202F || n == 0x205F || n == 0x3000 || n == 0xFEFF
  }

  predicate IsDigit(c: char) {
    '0' <= c <= '9'
  }

  /** The length of the longest prefix of `s` whose characters all satisfy `p`. */
  function PrefixWhile(s: string, p: char -> bool): (n: nat)
    ensures n <= |s|
    ensures forall k :: 0 <= k < n ==> p(s[k])
    ensures n < |s| ==> !p(s[n])
  {
    if s == [] || !p(s[0]) then 0 else 1 + PrefixWhile(s[1..], p)
  }

  /** The length of the longest suffix of `s` whose characters are all whitespace. */
  function TrailingWhitespace(s: string): (n: nat)
    ensures n <= |s|
    ensures forall k :: |s| - n <= k < |s| ==> IsWhitespace(s[k])
    ensures n < |s| ==> !IsWhitespace(s[|s| - n - 1])
  {
    if s == [] || !IsWhitespace(s[|s| - 1]) then 0 else 1 + TrailingWhitespace(s[..|s| - 1])
  }

  function TrimStart(s: string): string {
    s[PrefixWhile(s, IsWhitespace)..]
  }

  /** `String.prototype.trim`. */
  function Trim(s: string): string {
    var t := TrimStart(s);
    t[..|t| - TrailingWhitespace(t)]
  }

  /** `!s.trim()`: the string is empty once trimmed. */
  predicate IsBlank(s: string) {
    Trim(s) == ""
  }

  /** A string is blank exactly when every character of it is whitespace. */
  lemma BlankIffAllWhitespace(s: string)
    ensures IsBlank(s) <==> forall k :: 0 <= k < |s| ==> IsWhitespace(s[k])
  {
    var lead := PrefixWhile(s, IsWhitespace);
    var t := TrimStart(s);
    assert forall k :: 0 <= k < |t| ==> t[k] == s[lead + k];
    if IsBlank(s) {
      assert TrailingWhitespace(t) == |t|;
      assert lead == |s|;
    }
  }

  /** `!!value` for a string that may be `null`: present and non-empty. */
  predicate Truthy(value: Option<string>) {
    value.Some? && value.value != ""
  }

  /** The string has a character that is not whitespace, i.e. `s.trim()` is truthy. */
  predicate HasVisibleChar(s: string) {
    exists k :: 0 <= k < |s| && !IsWhitespace(s[k])
  }

  function LowerChar(c: char): char {
    if 'A' <= c <= 'Z' then (c as int + 32) as char else c
  }

  function UpperChar(c: char): char {
    if 'a' <= c <= 'z' then (c as int - 32) as char else c
  }

  predicate IsUpperAscii(c: char) {
    'A' <= c <= 'Z'
  }

  /**
   * `toLowerCase`, ASCII letters only: no upper-case letter is left, every other
   * character is kept, and each upper-case letter becomes the lower-case letter
   * that upper-cases back to it.
   */
  function ToLower(s: string): (r: string)
    ensures |r| == |s|
    ensures forall k :: 0 <= k < |r| ==> !IsUpperAscii(r[k])
    ensures forall k :: 0 <= k < |s| && !IsUpperAscii(s[k]) ==> r[k] == s[k]
    ensures forall k :: 0 <= k < |s| && IsUpperAscii(s[k]) ==> 'a' <= r[k] <= 'z' && UpperChar(r[k]) == s[k]
  {
    seq(|s|, k requires 0 <= k < |s| => LowerChar(s[k]))
  }

  /** Lower-casing twice changes nothing more. */
  lemma ToLowerIdempotent(s: string)
    ensures ToLower(ToLower(s)) == ToLower(s)
  {
  }

  /** `needle` occurs in `hay` starting at position `i`. */
  predicate OccursAt(hay: string, needle: string, i: int) {
    0 <= i && i + |needle| <= |hay| && hay[i..i + |needle|] == needle
  }

  /** `hay.includes(needle)`: `needle` occurs in `hay` at some position. */
  function Contains(hay: string, needle: string): (r: bool)
    ensures r <==> exists i :: OccursAt(hay, needle, i)
    decreases |hay|
  {
    if |needle| > |hay| then false
    else if hay[..|needle|] == needle then assert OccursAt(hay, needle, 0); true
    else
      var rest := Contains(hay[1..], needle);
      assert forall i :: OccursAt(hay, needle, i) ==> i >= 1 && OccursAt(hay[1..], needle, i - 1);
      assert forall i :: OccursAt(hay[1..], needle, i) ==> OccursAt(hay, needle, i + 1);
      rest
  }

  /** Every string includes the empty string. */
  lemma ContainsEmpty(hay: string)
    ensures Contains(hay, "")
  {
    assert OccursAt(hay, "", 0);
  }

  function DigitChar(d: nat): (c: char)
    requires d < 10
    ensures IsDigit(c)
  {
    ('0' as int + d) as char
  }

  function DigitValue(c: char): (d: nat)
    requires IsDigit(c)
    ensures d < 10 && DigitChar(d) == c
  {
    c as int - '0' as int
  }

  /** `(n).toString()` for a non-negative integer: its decimal digits, without leading zeros. */
  function NatToString(n: nat): (r: string)
    ensures |r| >= 1
    ensures forall k :: 0 <= k < |r| ==> IsDigit(r[k])
    ensures |r| > 1 ==> r[0] != '0'
  {
    if n < 10 then [DigitChar(n)] else NatToString(n / 10) + [DigitChar(n % 10)]
  }

  /** The number a string of decimal digits denotes. */
  function DigitsValue(s: string): nat
    requires forall k :: 0 <= k < |s| ==> IsDigit(s[k])
  {
    if s == [] then 0 else DigitsValue(s[..|s| - 1]) * 10 + DigitValue(s[|s| - 1])
  }

  /** Reading back the decimal form of `n` gives `n`. */
  lemma {:induction false} DecimalRoundTrip(n: nat)
    ensures DigitsValue(NatToString(n)) == n
  {
    if n >= 10 {
      DecimalRoundTrip(n / 10);
      var r := NatToString(n);
      assert r[..|r| - 1] == NatToString(n / 10);
    }
  }

  /** Different numbers have different decimal forms. */
  lemma NatToStringInjective(a: nat, b: nat)
    ensures NatToString(a) == NatToString(b) ==> a == b
  {
    DecimalRoundTrip(a);
    DecimalRoundTrip(b);
  }

  function Pow10(e: nat): (p: nat)
    ensures p >= 1
  {
    if e == 0 then 1 else 10 * Pow10(e - 1)
  }

  /** The signed exponent of an exponent part `e`/`E`, sign, digits; 0 when the part is incomplete. */
  function ExponentOf(s: string): int {
    if |s| < 2 || (s[0] != 'e' && s[0] != 'E') then 0
    else
      var signed := s[1] == '-' || s[1] == '+';
      var digits := if signed then s[2..] else s[1..];
      var n := PrefixWhile(digits, IsDigit);
      if n == 0 then 0
      else if s[1] == '-' then -(DigitsValue(digits[..n]) as int)
      else DigitsValue(digits[..n])
  }

  function Scale(e: int): real {
    if e >= 0 then Pow10(e) as real else 1.0 / Pow10(-e) as real
  }

  /**
   * `Number.parseFloat`: leading whitespace skipped, an optional sign, then the
   * longest prefix that reads as a decimal literal with optional fraction and
   * exponent. `None` stands for NaN (no digit before or after the point).
   */
  function ParseFloat(s: string): Option<real> {
    var t := TrimStart(s);
    var negative := |t| > 0 && t[0] == '-';
    var u := if |t| > 0 && (t[0] == '-' || t[0] == '+') then t[1..] else t;
    var k := PrefixWhile(u, IsDigit);
    var afterInt := u[k..];
    var hasPoint := |afterInt| > 0 && afterInt[0] == '.';
    var fraction := if hasPoint then afterInt[1..] else "";
    var m := PrefixWhile(fraction, IsDigit);
    if k == 0 && m == 0 then None
    else
      var rest := if hasPoint then fraction[m..] else afterInt;
      var magnitude := (DigitsValue(u[..k]) as real + DigitsValue(fraction[..m]) as real / Pow10(m) as real)
        * Scale(ExponentOf(rest));
      Some(if negative then -magnitude else magnitude)
  }

  /** `Number.parseFloat(value) || 0`: NaN (and zero) become 0. */
  function ParseNumberOrZero(s: string): real {
    match ParseFloat(s)
    case None => 0.0
    case Some(v) => v
  }

  /** A string with no digit at all reads as 0. */
  lemma NoDigitsReadsAsZero(s: string)
    requires forall k :: 0 <= k < |s| ==> !IsDigit(s[k])
    ensures ParseNumberOrZero(s) == 0.0
  {
    var t := TrimStart(s);
    var u := if |t| > 0 && (t[0] == '-' || t[0] == '+') then t[1..] else t;
    assert forall k :: 0 <= k < |u| ==> u[k] in s;
  }

  /** Parsing the decimal form of an integer gives that integer back. */
  lemma ParseDecimalRoundTrip(n: nat)
    ensures ParseNumberOrZero(NatToString(n)) == n as real
  {
    var s := NatToString(n);
    assert PrefixWhile(s, IsWhitespace) == 0;
    assert TrimStart(s) == s;
    assert PrefixWhile(s, IsDigit) == |s|;
    assert s[..|s|] == s;
    DecimalRoundTrip(n);
  }
}
