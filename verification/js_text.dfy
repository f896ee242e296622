/** The string operations of JavaScript that the relay uses. Strings are sequences of Unicode characters. */
module JsText {
  import opened Wrappers
  import opened JsValue

  /** `sub` occurs in `s` at position `i`. */
  predicate OccursAt(s: string, sub: string, i: nat) {
    i + |sub| <= |s| && s[i..i + |sub|] == sub
  }

  /** `s.includes(sub)`. */
  predicate Includes(s: string, sub: string) {
    exists i: nat | i <= |s| :: OccursAt(s, sub, i)
  }

  /** Case mapping of the ASCII letters, which is all a case-insensitive test with an ASCII pattern sees. */
  function LowerChar(c: char): char {
    if 'A' <= c <= 'Z' then (c as int + 32) as char else c
  }

  function Lower(s: string): (r: string)
    ensures |r| == |s| && forall i :: 0 <= i < |s| ==> r[i] == LowerChar(s[i])
  {
    seq(|s|, i requires 0 <= i < |s| => LowerChar(s[i]))
  }

  /** `/sub/i.test(s)` for a lower-case ASCII `sub` without regular-expression metacharacters. */
  predicate IncludesIgnoreCase(s: string, sub: string) {
    Includes(Lower(s), sub)
  }

  /** `s.replace(/x/g, y)` for single characters. */
  function ReplaceAll(s: string, x: char, y: char): (r: string)
    ensures |r| == |s|
    ensures forall i :: 0 <= i < |s| ==> r[i] == (if s[i] == x then y else s[i])
  {
    seq(|s|, i requires 0 <= i < |s| => if s[i] == x then y else s[i])
  }

  /** `parts.join(sep)`. */
  function Join(parts: seq<string>, sep: string): string {
    if |parts| == 0 then ""
    else if |parts| == 1 then parts[0]
    else parts[0] + sep + Join(parts[1..], sep)
  }

  function DigitChar(d: nat): char
    requires d < 10
  {
    ('0' as int + d) as char
  }

  /** The decimal numeral of `n`, as `String(n)` writes a non-negative integer. */
  function NatToDecimal(n: nat): (r: string)
    ensures |r| > 0 && AllDigits(r)
    ensures DigitsValue(r) == n
    ensures r[0] != '0' || n == 0
  {
    if n < 10 then [DigitChar(n)]
    else
      var prefix := NatToDecimal(n / 10);
      var r := prefix + [DigitChar(n % 10)];
      assert r[..|r| - 1] == prefix;
      r
  }

  /** `String(i)` for an integer. */
  function IntToDecimal(i: int): string {
    if i < 0 then "-" + NatToDecimal(-i) else NatToDecimal(i)
  }

  function HexDigit(d: nat): (c: char)
    requires d < 16
    ensures IsHexDigit(c) && HexDigitValue(c) == d
  {
    if d < 10 then ('0' as int + d) as char else ('a' as int + d - 10) as char
  }

  /** The characters `toString(16)` writes: "0123456789abcdef". */
  predicate IsHexDigit(c: char) {
    '0' <= c <= '9' || 'a' <= c <= 'f'
  }

  function HexDigitValue(c: char): nat {
    if '0' <= c <= '9' then c as int - '0' as int
    else if 'a' <= c <= 'f' then c as int - 'a' as int + 10
    else 0
  }

  /** The number a lower-case hexadecimal numeral denotes. */
  function HexValue(s: string): nat {
    if s == [] then 0 else HexValue(s[..|s| - 1]) * 16 + HexDigitValue(s[|s| - 1])
  }

  /** `n.toString(16)` for a non-negative integer: lower-case hexadecimal without leading zeros. */
  function NatToHex(n: nat): (r: string)
    ensures |r| > 0 && forall i :: 0 <= i < |r| ==> IsHexDigit(r[i])
    ensures HexValue(r) == n
    ensures r[0] != '0' || n == 0
  {
    if n < 16 then [HexDigit(n)]
    else
      var prefix := NatToHex(n / 16);
      var r := prefix + [HexDigit(n % 16)];
      assert r[..|r| - 1] == prefix;
      r
  }

  /** A number below 16^k has at most k hexadecimal digits. */
  lemma {:induction false} HexLength(n: nat, k: nat)
    requires k > 0 && n < Pow16(k)
    ensures |NatToHex(n)| <= k
  {
    if n >= 16 {
      assert k > 1 by {
        assert Pow16(1) == 16;
      }
      assert n / 16 < Pow16(k - 1);
      HexLength(n / 16, k - 1);
    }
  }

  function Pow16(k: nat): nat {
    if k == 0 then 1 else 16 * Pow16(k - 1)
  }

  /**
   * The white space `parseInt` skips (ECMA-262 section 7.1.4.1, StrWhiteSpaceChar): tab, vertical
   * tab, form feed, the byte-order mark, the space separators of Unicode category Zs and the four
   * line terminators.
   */
  predicate IsSpace(c: char) {
    c == '\t' || c == '\U{B}' || c == '\U{C}' || c == '\U{FEFF}' ||
    c == ' ' || c == '\U{A0}' || c == '\U{1680}' || '\U{2000}' <= c <= '\U{200A}' ||
    c == '\U{202F}' || c == '\U{205F}' || c == '\U{3000}' ||
    c == '\n' || c == '\r' || c == '\U{2028}' || c == '\U{2029}'
  }

  /** The length of the run of decimal digits of `s` that starts at `i`. */
  function DigitRun(s: string, i: nat): (n: nat)
    requires i <= |s|
    ensures i + n <= |s|
    ensures forall k :: i <= k < i + n ==> IsDigit(s[k])
    ensures i + n == |s| || !IsDigit(s[i + n])
    decreases |s| - i
  {
    if i < |s| && IsDigit(s[i]) then 1 + DigitRun(s, i + 1) else 0
  }

  function SkipSpaces(s: string, i: nat): (j: nat)
    requires i <= |s|
    ensures i <= j <= |s|
    decreases |s| - i
  {
    if i < |s| && IsSpace(s[i]) then SkipSpaces(s, i + 1) else i
  }

  /**
   * `parseInt(s, 10)`: leading white space, an optional sign, then the longest run of decimal
   * digits. None stands for NaN, the result when no digit follows.
   */
  function ParseInt10(s: string): (r: Option<int>)
    ensures r.None? <==> DigitRun(s, SignEnd(s)) == 0
  {
    var start := SignEnd(s);
    var n := DigitRun(s, start);
    if n == 0 then None
    else
      var value: int := DigitsValue(s[start..start + n]);
      var i := SkipSpaces(s, 0);
      if i < |s| && s[i] == '-' then Some(-value) else Some(value)
  }

  /** Where the digits of `parseInt` start: after leading white space and an optional sign. */
  function SignEnd(s: string): (j: nat)
    ensures j <= |s|
  {
    var i := SkipSpaces(s, 0);
    if i < |s| && (s[i] == '-' || s[i] == '+') then i + 1 else i
  }

  /** On a plain numeral, `parseInt` gives its value. */
  lemma ParseInt10OfDigits(s: string)
    requires |s| > 0 && AllDigits(s)
    ensures ParseInt10(s) == Some(DigitsValue(s))
  {
    assert SkipSpaces(s, 0) == 0;
    assert SignEnd(s) == 0;
    var n := DigitRun(s, 0);
    assert n == |s|;
    assert s[0..n] == s;
  }

  /** `parseInt` reads back the numeral `String(n)` writes. */
  lemma ParseInt10OfDecimal(n: nat)
    ensures ParseInt10(NatToDecimal(n)) == Some(n)
  {
    ParseInt10OfDigits(NatToDecimal(n));
  }
  /** Leading white space is skipped up to the first other character. */
  lemma {:induction false} SkipSpacesOver(ws: string, rest: string, i: nat)
    requires i <= |ws| && forall k :: 0 <= k < |ws| ==> IsSpace(ws[k])
    requires |rest| > 0 && !IsSpace(rest[0])
    ensures SkipSpaces(ws + rest, i) == |ws|
    decreases |ws| - i
  {
    var s := ws + rest;
    if i < |ws| {
      assert IsSpace(s[i]);
      SkipSpacesOver(ws, rest, i + 1);
    } else {
      assert s[i] == rest[0];
    }
  }

  /** The digit run that ends a string covers all of it. */
  lemma {:induction false} DigitRunToEnd(prefix: string, digits: string, i: nat)
    requires |prefix| <= i <= |prefix| + |digits| && AllDigits(digits)
    ensures DigitRun(prefix + digits, i) == |prefix| + |digits| - i
    decreases |prefix| + |digits| - i
  {
    var s := prefix + digits;
    if i < |s| {
      assert s[i] == digits[i - |prefix|];
      DigitRunToEnd(prefix, digits, i + 1);
    }
  }

  /** Once the digits that follow the sign are known, `parseInt` is their value, negated after a minus. */
  lemma DigitsAfterSign(s: string, d: string)
    requires SignEnd(s) + |d| == |s| && |d| > 0 && AllDigits(d)
    requires DigitRun(s, SignEnd(s)) == |d| && s[SignEnd(s)..] == d
    ensures var i := SkipSpaces(s, 0);
            ParseInt10(s) == Some(if i < |s| && s[i] == '-' then -(DigitsValue(d) as int) else DigitsValue(d))
  {
    assert s[SignEnd(s)..SignEnd(s) + |d|] == d;
  }

  /** `parseInt` of white space, a sign character and a numeral. */
  lemma SignedNumeral(ws: string, sign: char, d: string)
    requires forall k :: 0 <= k < |ws| ==> IsSpace(ws[k])
    requires sign == '-' || sign == '+'
    requires |d| > 0 && AllDigits(d)
    ensures ParseInt10(ws + [sign] + d) == Some(if sign == '-' then -(DigitsValue(d) as int) else DigitsValue(d))
  {
    var s := ws + [sign] + d;
    assert s == ws + ([sign] + d);
    SkipSpacesOver(ws, [sign] + d, 0);
    assert s[|ws|] == sign;
    DigitRunToEnd(ws + [sign], d, |ws| + 1);
    assert s[|ws| + 1..] == d;
    DigitsAfterSign(s, d);
  }

  /** `parseInt` of white space and an unsigned numeral. */
  lemma UnsignedNumeral(ws: string, d: string)
    requires forall k :: 0 <= k < |ws| ==> IsSpace(ws[k])
    requires |d| > 0 && AllDigits(d)
    ensures ParseInt10(ws + d) == Some(DigitsValue(d))
  {
    var s := ws + d;
    assert !IsSpace(d[0]);
    SkipSpacesOver(ws, d, 0);
    assert s[|ws|] == d[0];
    DigitRunToEnd(ws, d, |ws|);
    assert s[|ws|..] == d;
    DigitsAfterSign(s, d);
  }

  /** `parseInt` after white space and a sign: a minus negates the numeral, a plus keeps it. */
  lemma ParseInt10OfSigned(ws: string, n: nat)
    requires forall k :: 0 <= k < |ws| ==> IsSpace(ws[k])
    ensures ParseInt10(ws + "-" + NatToDecimal(n)) == Some(-(n as int))
    ensures ParseInt10(ws + "+" + NatToDecimal(n)) == Some(n)
    ensures ParseInt10(ws + NatToDecimal(n)) == Some(n)
  {
    SignedNumeral(ws, '-', NatToDecimal(n));
    SignedNumeral(ws, '+', NatToDecimal(n));
    UnsignedNumeral(ws, NatToDecimal(n));
  }
}
