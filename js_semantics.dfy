/**
 * The JavaScript built-ins that the modelled code relies on, stated on Dafny
 * values: `Math.round`, truthiness of an optional number, `String.prototype.substr`,
 * `toLowerCase` on ASCII letters, `indexOf`, `parseInt` and the rendering of an
 * integer by a template string.
 */
module JsSemantics {
  import opened Wrappers

  /** Truthiness of a number that may be `undefined`: both `undefined` and 0 are falsy. */
  predicate Truthy(v: Option<int>) {
    v.Some? && v.value != 0
  }

  /** `Math.round`: the nearest integer, a half rounded towards +infinity. */
  function Round(x: real): (r: int)
    ensures r as real - 0.5 <= x < r as real + 0.5
  {
    (x + 0.5).Floor
  }

  /** `s.substr(start, count)` for a non-negative start and count: clamped to the string. */
  function Substr(s: string, start: nat, count: nat): string {
    var b := if start <= |s| then start else |s|;
    var e := if b + count <= |s| then b + count else |s|;
    s[b..e]
  }

  /** `s.substr(start)`: everything from `start` on, or "" past the end. */
  function SubstrFrom(s: string, start: nat): string {
    if start <= |s| then s[start..] else ""
  }

  function LowerChar(c: char): char {
    if 'A' <= c <= 'Z' then (c as int + 32) as char else c
  }

  /** `toLowerCase`, on ASCII letters only. */
  function ToLower(s: string): (r: string)
    ensures |r| == |s|
    ensures forall i :: 0 <= i < |s| ==> r[i] == LowerChar(s[i])
  {
    if s == [] then [] else [LowerChar(s[0])] + ToLower(s[1..])
  }

  /** Equality after lower-casing both sides. */
  predicate EqualsIgnoringCase(a: string, b: string) {
    ToLower(a) == ToLower(b)
  }

  /** `sub` occurs in `s` starting at position `k`. */
  predicate OccursAt(s: string, sub: string, k: int) {
    0 <= k && k + |sub| <= |s| && s[k..k + |sub|] == sub
  }

  lemma OccursAtTail(s: string, sub: string, k: int)
    requires |s| > 0 && k >= 1
    ensures OccursAt(s, sub, k) <==> OccursAt(s[1..], sub, k - 1)
  {
    if k + |sub| <= |s| {
      assert s[1..][k - 1..k - 1 + |sub|] == s[k..k + |sub|];
    }
  }

  /** `s.indexOf(sub)`: the first position where `sub` occurs, or -1. */
  function IndexOf(s: string, sub: string): (r: int)
    ensures -1 <= r
    ensures r >= 0 ==> OccursAt(s, sub, r) && forall k :: 0 <= k < r ==> !OccursAt(s, sub, k)
    ensures r == -1 ==> forall k :: !OccursAt(s, sub, k)
    decreases |s|
  {
    if |sub| > |s| then -1
    else if s[..|sub|] == sub then 0
    else
      var t := IndexOf(s[1..], sub);
      assert forall k :: k >= 1 ==> (OccursAt(s, sub, k) <==> OccursAt(s[1..], sub, k - 1)) by {
        forall k | k >= 1 { OccursAtTail(s, sub, k); }
      }
      assert !OccursAt(s, sub, 0);
      if t < 0 then -1 else t + 1
  }

  /** True when `sub` occurs somewhere in `s`. */
  predicate Contains(s: string, sub: string) {
    IndexOf(s, sub) >= 0
  }

  predicate IsDigit(c: char) {
    '0' as int <= c as int <= '9' as int
  }

  function DigitChar(d: int): char
    requires 0 <= d < 10
  {
    ('0' as int + d) as char
  }

  /** The value of a string of decimal digits, most significant first. */
  function DecimalValue(s: string): nat
    requires forall i :: 0 <= i < |s| ==> IsDigit(s[i])
  {
    if s == [] then 0
    else
      assert IsDigit(s[|s| - 1]);
      DecimalValue(s[..|s| - 1]) * 10 + (s[|s| - 1] as int - '0' as int)
  }

  /** The decimal rendering of a natural number, without leading zeros. */
  function NatToString(n: nat): (r: string)
    ensures |r| >= 1 && forall i :: 0 <= i < |r| ==> IsDigit(r[i])
    ensures DecimalValue(r) == n
    ensures |r| > 1 ==> r[0] != '0'
  {
    if n < 10 then [DigitChar(n)]
    else
      var r := NatToString(n / 10) + [DigitChar(n % 10)];
      assert r[..|r| - 1] == NatToString(n / 10);
      r
  }

  /** `${i}` for an integer `i`. */
  function IntToString(i: int): string {
    if i < 0 then "-" + NatToString(-i) else NatToString(i)
  }

  /** `${x}` for a number that may be NaN (`None`). */
  function NumberToString(x: Option<int>): string {
    if x.Some? then IntToString(x.value) else "NaN"
  }

  /**
   * The characters `parseInt` skips at the start: ECMAScript's WhiteSpace and
   * LineTerminator productions.
   */
  predicate IsJsWhitespace(c: char) {
    c == '\t' || c == '\n' || c == '\U{000B}' || c == '\U{000C}' || c == '\r' || c == ' '
    || c == '\U{00A0}' || c == '\U{1680}' || ('\U{2000}' <= c <= '\U{200A}')
    || c == '\U{2028}' || c == '\U{2029}' || c == '\U{202F}' || c == '\U{205F}'
    || c == '\U{3000}' || c == '\U{FEFF}'
  }

  function TrimStart(s: string): (r: string)
    ensures |r| <= |s|
  {
    if s != [] && IsJsWhitespace(s[0]) then TrimStart(s[1..]) else s
  }

  /** The value of `c` as a digit in base `radix` (10 or 16), or -1. */
  function DigitValue(c: char, radix: int): (d: int)
    ensures -1 <= d < radix || (d == -1)
  {
    if '0' <= c <= '9' then (if c as int - '0' as int < radix then c as int - '0' as int else -1)
    else if radix == 16 && 'a' <= c <= 'f' then c as int - 'a' as int + 10
    else if radix == 16 && 'A' <= c <= 'F' then c as int - 'A' as int + 10
    else -1
  }

  /** The longest prefix of `s` made of digits in base `radix`. */
  function DigitPrefix(s: string, radix: int): (r: string)
    ensures |r| <= |s| && r == s[..|r|]
    ensures forall i :: 0 <= i < |r| ==> DigitValue(r[i], radix) >= 0
  {
    if s != [] && DigitValue(s[0], radix) >= 0 then [s[0]] + DigitPrefix(s[1..], radix) else []
  }

  /** The value of a string of digits in base `radix`. */
  function DigitsValue(s: string, radix: int): int
    requires forall i :: 0 <= i < |s| ==> DigitValue(s[i], radix) >= 0
  {
    if s == [] then 0 else DigitsValue(s[..|s| - 1], radix) * radix + DigitValue(s[|s| - 1], radix)
  }

  /**
   * `parseInt(s)` with no radix: skip leading white space, read an optional sign and
   * an optional "0x" prefix (base 16), then the longest run of digits; NaN (`None`)
   * when there is no digit.
   */
  function ParseInt(s: string): Option<int> {
    var t := TrimStart(s);
    var sign := if t != [] && t[0] == '-' then -1 else 1;
    var u := if t != [] && (t[0] == '-' || t[0] == '+') then t[1..] else t;
    var hex := |u| >= 2 && u[0] == '0' && (u[1] == 'x' || u[1] == 'X');
    var radix := if hex then 16 else 10;
    var digits := DigitPrefix(if hex then u[2..] else u, radix);
    if digits == [] then None else Some(sign * DigitsValue(digits, radix))
  }

  /** Two decimal digits, with nothing around them, parse to their value. */
  lemma {:induction false} ParseTwoDigits(s: string)
    requires |s| == 2 && IsDigit(s[0]) && IsDigit(s[1])
    ensures ParseInt(s) == Some(DecimalValue(s))
  {
    assert TrimStart(s) == s;
    assert !(s[1] == 'x' || s[1] == 'X');
    assert DigitPrefix(s[1..], 10) == [s[1]] by {
      assert DigitPrefix(s[1..][1..], 10) == [];
    }
    assert DigitPrefix(s, 10) == s;
    var first := s[..1];
    assert first == [s[0]] && first[..0] == [];
    assert DigitValue(s[0], 10) == s[0] as int - '0' as int;
    assert DigitValue(s[1], 10) == s[1] as int - '0' as int;
    assert DigitsValue(first, 10) == DigitsValue([], 10) * 10 + DigitValue(s[0], 10);
    assert DecimalValue(first) == DecimalValue([]) * 10 + (s[0] as int - '0' as int);
    assert DigitsValue(s, 10) == DigitsValue(first, 10) * 10 + DigitValue(s[1], 10);
    assert DecimalValue(s) == DecimalValue(first) * 10 + (s[1] as int - '0' as int);
  }

  /** A number written with a leading 0 when it is below 10, as the date formatting pads its fields. */
  function PadTwo(n: int): string {
    if n < 10 then "0" + IntToString(n) else IntToString(n)
  }

  /** A number from 0 to 99 padded to two digits reads back as itself. */
  lemma PadTwoDigits(n: int)
    requires 0 <= n < 100
    ensures |PadTwo(n)| == 2 && IsDigit(PadTwo(n)[0]) && IsDigit(PadTwo(n)[1])
    ensures DecimalValue(PadTwo(n)) == n
  {
    if n < 10 {
      assert PadTwo(n) == ['0', DigitChar(n)];
      assert PadTwo(n)[..1] == ['0'];
    } else {
      var r := NatToString(n);
      assert r == NatToString(n / 10) + [DigitChar(n % 10)];
      assert NatToString(n / 10) == [DigitChar(n / 10)];
    }
  }
}
