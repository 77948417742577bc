/**
  The part of JavaScript's number semantics that the booking logic relies on:
  the values it computes are whole numbers or NaN (what `parseInt` returns for a
  string without digits, and what arithmetic on `undefined` yields).
 */
module Numbers {

  /** A JavaScript number as the booking logic uses it. */
  datatype Num = Int(v: int) | NaN

  function Sub(a: Num, b: Num): Num {
    if a.Int? && b.Int? then Int(a.v - b.v) else NaN
  }

  function Mul(a: Num, b: Num): Num {
    if a.Int? && b.Int? then Int(a.v * b.v) else NaN
  }

  /** `x * 0.5`, for the values where that is a whole number. */
  function Half(a: Num): (r: Num)
    requires a.Int? ==> a.v % 2 == 0
    ensures r.Int? <==> a.Int?
    ensures r.Int? ==> 2 * r.v == a.v
  {
    if a.Int? then Int(a.v / 2) else NaN
  }

  /** `a < n`: every comparison with NaN is false. */
  predicate Below(a: Num, n: int) {
    a.Int? && a.v < n
  }

  /** `a >= n`: every comparison with NaN is false. */
  predicate AtLeast(a: Num, n: int) {
    a.Int? && a.v >= n
  }

  // ---------------------------------------------------------------------
  // parseInt(s) with no radix argument
  // ---------------------------------------------------------------------

  /** The white-space and line-terminator characters that `parseInt` skips. */
  predicate IsSpace(c: char) {
    c == ' ' || c == '\t' || c == '\n' || c == '\r' || c == '\U{B}' || c == '\U{C}' ||
    c == '\U{A0}' || c == '\U{1680}' || ('\U{2000}' <= c <= '\U{200A}') ||
    c == '\U{2028}' || c == '\U{2029}' || c == '\U{202F}' || c == '\U{205F}' ||
    c == '\U{3000}' || c == '\U{FEFF}'
  }

  predicate IsDigit(c: char) {
    '0' <= c <= '9'
  }

  predicate IsHexDigit(c: char) {
    IsDigit(c) || 'a' <= c <= 'f' || 'A' <= c <= 'F'
  }

  function DigitValue(c: char): nat
    requires IsHexDigit(c)
  {
    if IsDigit(c) then c as int - '0' as int
    else if 'a' <= c <= 'f' then c as int - 'a' as int + 10
    else c as int - 'A' as int + 10
  }

  /** `s` without its leading white space. */
  function TrimStart(s: string): (r: string)
    ensures |r| <= |s|
    ensures r != [] ==> !IsSpace(r[0])
  {
    if s != [] && IsSpace(s[0]) then TrimStart(s[1..]) else s
  }

  /** Trimming only drops characters from the front. */
  lemma {:induction false} TrimStartSuffix(s: string)
    ensures TrimStart(s) == s[|s| - |TrimStart(s)|..]
  {
    if s != [] && IsSpace(s[0]) {
      TrimStartSuffix(s[1..]);
    }
  }

  /** Length of the longest prefix of `s` made of digits (hexadecimal ones when `hex`). */
  function DigitRun(s: string, hex: bool): (n: nat)
    ensures n <= |s|
    ensures forall i :: 0 <= i < n ==> IsHexDigit(s[i]) && (!hex ==> IsDigit(s[i]))
    ensures n < |s| ==> !(if hex then IsHexDigit(s[n]) else IsDigit(s[n]))
  {
    if s != [] && (if hex then IsHexDigit(s[0]) else IsDigit(s[0]))
    then 1 + DigitRun(s[1..], hex)
    else 0
  }

  /** The value of a string of digits in base `radix`, most significant first. */
  function DigitsValue(d: string, radix: nat): nat
    requires forall i :: 0 <= i < |d| ==> IsHexDigit(d[i])
  {
    if d == [] then 0 else DigitsValue(d[..|d| - 1], radix) * radix + DigitValue(d[|d| - 1])
  }

  /** The magnitude `parseInt` reads from `body` once the sign is consumed. */
  function ParseMagnitude(body: string): Num {
    if |body| >= 2 && body[0] == '0' && (body[1] == 'x' || body[1] == 'X') then
      var digits := body[2..];
      var n := DigitRun(digits, true);
      if n == 0 then NaN else Int(DigitsValue(digits[..n], 16))
    else
      var n := DigitRun(body, false);
      if n == 0 then NaN else Int(DigitsValue(body[..n], 10))
  }

  /**
    JavaScript's `parseInt(s)`: skip leading white space, read an optional sign,
    then a `0x` hexadecimal prefix or decimal digits up to the first character
    that is not one; NaN when there is no digit.
   */
  function ParseInt(s: string): (r: Num)
    ensures r.Int? ==> exists i :: 0 <= i < |s| && IsDigit(s[i])
  {
    var t := TrimStart(s);
    var negative := t != [] && t[0] == '-';
    var body := if t != [] && (t[0] == '-' || t[0] == '+') then t[1..] else t;
    var m := ParseMagnitude(body);
    assert m.Int? ==> IsDigit(body[0]);
    assert m.Int? ==> exists i :: 0 <= i < |s| && IsDigit(s[i]) by {
      if m.Int? {
        TrimStartSuffix(s);
        var k := |s| - |body|;
        assert s[k] == body[0];
      }
    }
    if m.NaN? then NaN else if negative then Int(-m.v) else m
  }

  // ---------------------------------------------------------------------
  // Decimal rendering of a two-digit field, the form an "HH:MM" value takes
  // ---------------------------------------------------------------------

  function DigitChar(d: nat): (c: char)
    requires d < 10
    ensures IsDigit(c) && DigitValue(c) == d
  {
    ('0' as int + d) as char
  }

  /** `n` written with exactly two decimal digits, as in "08". */
  function TwoDigits(n: nat): (s: string)
    requires n < 100
    ensures |s| == 2 && IsDigit(s[0]) && IsDigit(s[1])
  {
    [DigitChar(n / 10), DigitChar(n % 10)]
  }

  lemma TwoDigitsValue(n: nat)
    requires n < 100
    ensures DigitsValue(TwoDigits(n), 10) == n
  {
    var s := TwoDigits(n);
    assert s[..1][..0] == [];
    assert DigitsValue(s[..1], 10) == n / 10;
    assert DigitsValue(s, 10) == DigitsValue(s[..1], 10) * 10 + DigitValue(s[1]);
  }

  /** Decimal digits followed by a non-digit are read back as their value. */
  lemma {:induction false} ParseIntTwoDigits(n: nat, rest: string)
    requires n < 100
    requires rest == [] || !IsDigit(rest[0])
    ensures ParseInt(TwoDigits(n) + rest) == Int(n)
  {
    var s := TwoDigits(n) + rest;
    assert TrimStart(s) == s by { assert !IsSpace(s[0]); }
    assert s[1] != 'x' && s[1] != 'X';
    assert DigitRun(s[2..], false) == 0 by { assert s[2..] == rest; }
    assert DigitRun(s[1..], false) == 1 + DigitRun(s[2..], false) by { assert s[1..][1..] == s[2..]; }
    assert DigitRun(s, false) == 2;
    assert s[..2] == TwoDigits(n);
    TwoDigitsValue(n);
  }
}
