/**
 * String helpers with the meaning the JavaScript built-ins give them:
 * prefix and suffix tests, `substring` with its clamping, ASCII case
 * mapping, the whitespace class shared by `String.prototype.trim` and the
 * regular-expression class `\s`, and numerals in bases 2 to 36 as
 * `Number.prototype.toString(base)` writes non-negative integers.
 */
module Strings {

  predicate StartsWith(s: string, prefix: string) {
    |prefix| <= |s| && s[..|prefix|] == prefix
  }

  predicate EndsWith(s: string, suffix: string) {
    |suffix| <= |s| && s[|s| - |suffix|..] == suffix
  }

  function Clamp(i: int, len: nat): (r: nat)
    ensures r <= len
    ensures 0 <= i <= len ==> r == i
  {
    if i < 0 then 0 else if i > len then len else i
  }

  /** `s.substring(start, end)`: both ends clamped to the string, swapped when reversed. */
  function Substring(s: string, start: int, end: int): (r: string)
    ensures |r| <= |s|
    ensures 0 <= start <= end <= |s| ==> r == s[start..end]
    ensures 0 <= start <= |s| && end >= |s| ==> r == s[start..]
  {
    var a := Clamp(start, |s|);
    var b := Clamp(end, |s|);
    if a <= b then s[a..b] else s[b..a]
  }

  lemma ConcatAssoc<T>(a: seq<T>, b: seq<T>, c: seq<T>)
    ensures a + b + c == a + (b + c)
  {
  }

  /** The characters JavaScript's `trim` removes and `\s` matches: WhiteSpace and LineTerminator. */
  predicate IsWhitespace(c: char) {
    || c == ' ' || c == '\t' || c == '\n' || c == '\r' || c == '\U{B}' || c == '\U{C}'
    || c == '\U{A0}' || c == '\U{1680}' || ('\U{2000}' <= c <= '\U{200A}')
    || c == '\U{2028}' || c == '\U{2029}' || c == '\U{202F}' || c == '\U{205F}'
    || c == '\U{3000}' || c == '\U{FEFF}'
  }

  predicate IsDecimalDigit(c: char) {
    '0' <= c <= '9'
  }

  predicate AllDecimalDigits(s: string) {
    forall i :: 0 <= i < |s| ==> IsDecimalDigit(s[i])
  }

  function ToUpperChar(c: char): (u: char)
    ensures 'a' <= c <= 'z' ==> 'A' <= u <= 'Z'
    ensures !('a' <= c <= 'z') ==> u == c
  {
    if 'a' <= c <= 'z' then (c as int - 'a' as int + 'A' as int) as char else c
  }

  function ToLowerChar(c: char): (l: char)
    ensures 'A' <= c <= 'Z' ==> 'a' <= l <= 'z'
    ensures !('A' <= c <= 'Z') ==> l == c
  {
    if 'A' <= c <= 'Z' then (c as int - 'A' as int + 'a' as int) as char else c
  }

  /** `s.toUpperCase()` on the ASCII letters. */
  function ToUpper(s: string): (u: string)
    ensures |u| == |s|
    ensures forall i :: 0 <= i < |s| ==> u[i] == ToUpperChar(s[i])
  {
    seq(|s|, i requires 0 <= i < |s| => ToUpperChar(s[i]))
  }

  /** `s.toLowerCase()` on the ASCII letters. */
  function ToLower(s: string): (l: string)
    ensures |l| == |s|
    ensures forall i :: 0 <= i < |s| ==> l[i] == ToLowerChar(s[i])
  {
    seq(|s|, i requires 0 <= i < |s| => ToLowerChar(s[i]))
  }

  lemma ToUpperAppend(a: string, b: string)
    ensures ToUpper(a + b) == ToUpper(a) + ToUpper(b)
  {
  }

  /** The digit characters `0`-`9`, `a`-`z` that `toString(base)` writes. */
  function DigitChar(d: nat): (c: char)
    requires d < 36
    ensures d < 10 ==> '0' <= c <= '9'
    ensures 10 <= d ==> 'a' <= c <= 'z'
    ensures DigitValue(c) == d
  {
    if d < 10 then (d + '0' as int) as char else (d - 10 + 'a' as int) as char
  }

  /** The value of a digit character, upper or lower case; -1 for any other character. */
  function DigitValue(c: char): (v: int)
    ensures -1 <= v < 36
    ensures v >= 0 <==> ('0' <= c <= '9' || 'a' <= c <= 'z' || 'A' <= c <= 'Z')
  {
    if '0' <= c <= '9' then c as int - '0' as int
    else if 'a' <= c <= 'z' then c as int - 'a' as int + 10
    else if 'A' <= c <= 'Z' then c as int - 'A' as int + 10
    else -1
  }

  predicate IsDigitIn(c: char, base: nat) {
    0 <= DigitValue(c) < base
  }

  lemma DivModFacts(n: nat, base: nat)
    requires 2 <= base <= n
    ensures 1 <= n / base < n && n % base < base
    ensures (n / base) * base + n % base == n
  {
  }

  /** `n.toString(base)` for a non-negative integer: most significant digit first, no leading zero. */
  function Numeral(n: nat, base: nat): (s: string)
    requires 2 <= base <= 36
    ensures |s| >= 1
    ensures forall i :: 0 <= i < |s| ==> IsDigitIn(s[i], base) && !('A' <= s[i] <= 'Z')
    ensures |s| > 1 ==> s[0] != '0'
    decreases n
  {
    if n < base then [DigitChar(n)]
    else
      var q, d := n / base, n % base;
      DivModFacts(n, base);
      Numeral(q, base) + [DigitChar(d)]
  }

  /** The value of a string of digits in the given base (the inverse of Numeral). */
  function NumeralValue(s: string, base: nat): nat
    requires 2 <= base <= 36
    requires forall i :: 0 <= i < |s| ==> IsDigitIn(s[i], base)
  {
    if s == [] then 0
    else
      var init := s[..|s| - 1];
      assert forall i :: 0 <= i < |init| ==> init[i] == s[i];
      var high := NumeralValue(init, base);
      assert IsDigitIn(s[|s| - 1], base);
      var low := DigitValue(s[|s| - 1]);
      NatShift(high, base, low);
      high * base + low
  }

  lemma NatShift(high: nat, base: nat, low: int)
    requires 0 <= low
    ensures high * base + low >= 0
  {
  }

  lemma {:induction false} NumeralRoundTrip(n: nat, base: nat)
    requires 2 <= base <= 36
    ensures NumeralValue(Numeral(n, base), base) == n
    decreases n
  {
    var s := Numeral(n, base);
    if n < base {
      assert s[..|s| - 1] == [];
    } else {
      var q, d := n / base, n % base;
      DivModFacts(n, base);
      NumeralRoundTrip(q, base);
      assert s == Numeral(q, base) + [DigitChar(d)];
      assert s[..|s| - 1] == Numeral(q, base);
      assert DigitValue(s[|s| - 1]) == d;
      assert q * base + d == n;
    }
  }

  /** Upper-casing a numeral keeps its value. */
  lemma {:induction false} NumeralValueUpper(s: string, base: nat)
    requires 2 <= base <= 36
    requires forall i :: 0 <= i < |s| ==> IsDigitIn(s[i], base)
    ensures forall i :: 0 <= i < |s| ==> IsDigitIn(ToUpper(s)[i], base)
    ensures NumeralValue(ToUpper(s), base) == NumeralValue(s, base)
    decreases |s|
  {
    if s != [] {
      var init := s[..|s| - 1];
      NumeralValueUpper(init, base);
      assert ToUpper(s)[..|s| - 1] == ToUpper(init);
    }
  }

  /** The decimal rendering of an integer, as template literals and `String(n)` write it. */
  function IntToDecimal(n: int): (s: string)
    ensures |s| >= 1
    ensures s[0] == '-' <==> n < 0
    ensures forall i :: 0 <= i < |s| && (i > 0 || n >= 0) ==> IsDigitIn(s[i], 10)
    ensures n >= 0 && |s| > 1 ==> s[0] != '0'
    ensures n < 0 ==> |s| > 1 && s[1] != '0'
  {
    if n >= 0 then Numeral(n, 10)
    else
      var digits := Numeral(-n, 10);
      assert forall i :: 0 < i < |digits| + 1 ==> ("-" + digits)[i] == digits[i - 1];
      assert digits[0] != '0' by {
        if |digits| == 1 {
          NumeralRoundTrip(-n, 10);
          assert DigitValue('0') == 0;
        }
      }
      "-" + digits
  }
}
