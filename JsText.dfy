/**
 * The JavaScript built-ins the application code relies on, written out so that
 * their edge cases are explicit: `String.prototype.trim`, `toLowerCase`,
 * `startsWith`, `includes`, `padStart`, `Number.parseInt`, `Number.parseFloat`,
 * number-to-string conversion of integers, and the `%` operator (whose result
 * takes the sign of the dividend, unlike Dafny's Euclidean `%`).
 */
module JsText {

  // ---------------------------------------------------------------------------
  // Whitespace and trimming

  /** A code point that `trim` removes: WhiteSpace or LineTerminator of ECMA-262 (sections 12.2 and 12.3). */
  predicate IsJsSpace(c: char) {
    || c == ' ' || c == '\t' || c == '\n' || c == '\r'
    || c == '\U{000B}' || c == '\U{000C}' || c == '\U{00A0}' || c == '\U{1680}'
    || ('\U{2000}' <= c <= '\U{200A}')
    || c == '\U{2028}' || c == '\U{2029}' || c == '\U{202F}' || c == '\U{205F}'
    || c == '\U{3000}' || c == '\U{FEFF}'
  }

  /** True iff every character of `s` is whitespace (so also for the empty string). */
  predicate AllSpace(s: string) {
    forall i :: 0 <= i < |s| ==> IsJsSpace(s[i])
  }

  /** `s.trimStart()`: the suffix of `s` left after dropping its leading whitespace. */
  function TrimStart(s: string): (r: string)
    ensures |r| <= |s| && r == s[|s| - |r|..]
    ensures AllSpace(s[..|s| - |r|])
    ensures |r| > 0 ==> !IsJsSpace(r[0])
  {
    if |s| > 0 && IsJsSpace(s[0]) then
      var r := TrimStart(s[1..]);
      TrimStartStep(s, r);
      r
    else s
  }

  /** Dropping one leading space keeps what `TrimStart` promises of the rest. */
  lemma TrimStartStep(s: string, r: string)
    requires |s| > 0 && IsJsSpace(s[0])
    requires |r| <= |s| - 1 && r == s[1..][|s| - 1 - |r|..]
    requires AllSpace(s[1..][..|s| - 1 - |r|])
    ensures r == s[|s| - |r|..]
    ensures AllSpace(s[..|s| - |r|])
  {
    var n := |s| - |r|;
    assert s[1..][n - 1..] == s[n..];
    forall i | 0 <= i < n
      ensures IsJsSpace(s[..n][i])
    {
      if i > 0 {
        assert s[..n][i] == s[1..][..n - 1][i - 1];
      }
    }
  }

  /** `s.trimEnd()`: the prefix of `s` left after dropping its trailing whitespace. */
  function TrimEnd(s: string): (r: string)
    ensures |r| <= |s| && r == s[..|r|]
    ensures AllSpace(s[|r|..])
    ensures |r| > 0 ==> !IsJsSpace(r[|r| - 1])
  {
    if |s| > 0 && IsJsSpace(s[|s| - 1]) then
      var r := TrimEnd(s[..|s| - 1]);
      assert s[..|s| - 1][|r|..] == s[|r|..|s| - 1];
      r
    else s
  }

  /** `s.trim()`: drops whitespace at both ends. */
  function Trim(s: string): (r: string)
    ensures |r| <= |s|
    ensures |r| > 0 ==> !IsJsSpace(r[0]) && !IsJsSpace(r[|r| - 1])
    ensures r == "" <==> AllSpace(s)
  {
    var t := TrimStart(s);
    var r := TrimEnd(t);
    assert r == "" ==> t == "";
    assert r == "" ==> s[..|s| - |t|] == s;
    assert AllSpace(s) ==> r == "";
    r
  }

  /** Trimming twice is trimming once. */
  lemma {:induction false} TrimIdempotent(s: string)
    ensures Trim(Trim(s)) == Trim(s)
  {
    var r := Trim(s);
    assert TrimStart(r) == r;
    assert TrimEnd(r) == r;
  }

  // ---------------------------------------------------------------------------
  // Case, prefixes and substrings

  /**
   * `toLowerCase` on the ASCII letters. JavaScript lowers every Unicode letter;
   * the model keeps other characters unchanged.
   */
  function LowerChar(c: char): (r: char)
    ensures 'A' <= c <= 'Z' ==> r as int == c as int + 32
    ensures !('A' <= c <= 'Z') ==> r == c
  {
    if 'A' <= c <= 'Z' then (c as int + 32) as char else c
  }

  /** `s.toLowerCase()`, ASCII letters only (see LowerChar). */
  function ToLower(s: string): (r: string)
    ensures |r| == |s|
    ensures forall i :: 0 <= i < |s| ==> r[i] == LowerChar(s[i])
  {
    if s == [] then [] else [LowerChar(s[0])] + ToLower(s[1..])
  }

  /** `s.startsWith(p)`. */
  predicate StartsWith(s: string, p: string) {
    |p| <= |s| && s[..|p|] == p
  }

  /** A prefix of `a` is a prefix of `a + b`. */
  lemma StartsWithAppend(a: string, b: string, p: string)
    requires StartsWith(a, p)
    ensures StartsWith(a + b, p)
  {
    assert (a + b)[..|p|] == a[..|p|];
  }

  /** `t` occurs in `s` at index `i`. */
  ghost predicate OccursAt(s: string, t: string, i: int) {
    0 <= i && i + |t| <= |s| && s[i..i + |t|] == t
  }

  /** `s.includes(t)`: `t` occurs somewhere in `s` (the empty string occurs everywhere). */
  function Includes(s: string, t: string): (b: bool)
    ensures b <==> exists i :: OccursAt(s, t, i)
    decreases |s|
  {
    if |t| > |s| then false
    else if s[..|t|] == t then
      assert OccursAt(s, t, 0);
      true
    else
      var b := Includes(s[1..], t);
      assert b ==> exists i :: OccursAt(s, t, i) by {
        if b {
          var i :| OccursAt(s[1..], t, i);
          assert s[1..][i..i + |t|] == s[i + 1..i + 1 + |t|];
          assert OccursAt(s, t, i + 1);
        }
      }
      assert (exists i :: OccursAt(s, t, i)) ==> b by {
        if exists i :: OccursAt(s, t, i) {
          var i :| OccursAt(s, t, i);
          assert i != 0;
          assert s[1..][i - 1..i - 1 + |t|] == s[i..i + |t|];
          assert OccursAt(s[1..], t, i - 1);
        }
      }
      b
  }

  /** A text that does not contain the first character of `t` does not include `t`. */
  lemma NotIncludesWithoutFirstChar(s: string, t: string)
    requires |t| > 0 && t[0] !in s
    ensures !Includes(s, t)
  {
  }

  /** Text that contains `t` at a known index includes `t`. */
  lemma IncludesAt(s: string, t: string, i: nat)
    requires i + |t| <= |s| && s[i..i + |t|] == t
    ensures Includes(s, t)
  {
    assert OccursAt(s, t, i);
  }

  /** `s.padStart(n, c)` with a one-character pad string. */
  function PadStart(s: string, n: nat, c: char): (r: string)
    ensures |s| >= n ==> r == s
    ensures |s| < n ==> |r| == n && r[n - |s|..] == s
    ensures forall i :: 0 <= i < |r| - |s| ==> r[i] == c
  {
    if |s| >= n then s else seq(n - |s|, _ => c) + s
  }

  // ---------------------------------------------------------------------------
  // Integers and their decimal text

  /** JavaScript's `a % b` for a positive divisor: the remainder has the sign of `a`. */
  function JsRem(a: int, b: int): (r: int)
    requires b > 0
    ensures a >= 0 ==> 0 <= r < b && r == a % b
    ensures a < 0 ==> -b < r <= 0 && r == -((-a) % b)
  {
    if a >= 0 then a % b else -((-a) % b)
  }

  predicate IsDigit(c: char) { '0' <= c <= '9' }

  predicate IsHexDigit(c: char) { IsDigit(c) || 'a' <= c <= 'f' || 'A' <= c <= 'F' }

  /** A digit of radix 10, or of radix 16 when `hex`. */
  predicate IsRadixDigit(c: char, hex: bool) { if hex then IsHexDigit(c) else IsDigit(c) }

  function DigitValue(c: char): (v: nat)
    requires IsHexDigit(c)
    ensures v < 16
    ensures IsDigit(c) ==> v < 10
  {
    if IsDigit(c) then c as int - '0' as int
    else if 'a' <= c <= 'f' then c as int - 'a' as int + 10
    else c as int - 'A' as int + 10
  }

  /** The character of a decimal digit. */
  function DigitChar(d: nat): (c: char)
    requires d < 10
    ensures IsDigit(c) && DigitValue(c) == d
  {
    ('0' as int + d) as char
  }

  /** The length of the longest prefix of `s` made of radix digits. */
  function DigitRun(s: string, hex: bool): (n: nat)
    ensures n <= |s|
    ensures forall i :: 0 <= i < n ==> IsRadixDigit(s[i], hex)
    ensures n < |s| ==> !IsRadixDigit(s[n], hex)
  {
    if |s| > 0 && IsRadixDigit(s[0], hex) then
      var n := 1 + DigitRun(s[1..], hex);
      assert forall i :: 1 <= i < n ==> s[i] == s[1..][i - 1];
      n
    else 0
  }

  /** The value of a digit string, most significant digit first. */
  function DigitsValue(d: string, hex: bool): nat
    requires forall i :: 0 <= i < |d| ==> IsRadixDigit(d[i], hex)
  {
    if d == [] then 0
    else
      assert IsRadixDigit(d[|d| - 1], hex);
      DigitsValue(d[..|d| - 1], hex) * (if hex then 16 else 10) + DigitValue(d[|d| - 1])
  }

  /** The decimal text of a natural number, as `String(n)` gives it for safe integers. */
  function NatToString(n: nat): (s: string)
    ensures |s| > 0
    ensures forall i :: 0 <= i < |s| ==> IsDigit(s[i])
    ensures |s| > 1 ==> s[0] != '0'
    ensures s[0] == '0' ==> n == 0
  {
    if n < 10 then [DigitChar(n)] else NatToString(n / 10) + [DigitChar(n % 10)]
  }

  /** The decimal text of an integer, with a leading `-` when it is negative. */
  function IntToString(n: int): (s: string)
    ensures n >= 0 ==> s == NatToString(n)
    ensures n < 0 ==> s == "-" + NatToString(-n)
  {
    if n < 0 then "-" + NatToString(-n) else NatToString(n)
  }

  /** Reading back the decimal text of a number gives the number. */
  lemma {:induction false} DigitsValueOfNatToString(n: nat)
    ensures DigitsValue(NatToString(n), false) == n
  {
    var s := NatToString(n);
    if n >= 10 {
      DigitsValueOfNatToString(n / 10);
      assert s[..|s| - 1] == NatToString(n / 10);
    }
  }

  /** Decimal text is one run of digits. */
  lemma DigitRunOfNatToString(n: nat, rest: string)
    requires rest == [] || !IsDigit(rest[0])
    ensures DigitRun(NatToString(n) + rest, false) == |NatToString(n)|
    ensures (NatToString(n) + rest)[..|NatToString(n)|] == NatToString(n)
  {
    var d := NatToString(n);
    var s := d + rest;
    assert forall i :: 0 <= i < |d| ==> s[i] == d[i] && IsRadixDigit(s[i], false);
    assert |s| > |d| ==> s[|d|] == rest[0] && !IsRadixDigit(s[|d|], false);
  }

  // ---------------------------------------------------------------------------
  // Number.parseInt (ECMA-262 section 21.1.2.13, radix omitted)

  /** A number that parseInt produces: NaN or an integer (`-0` reads as `0`). */
  datatype JsInt = NaN | Int(value: int)

  /**
   * `Number.parseInt(s)`: skip leading whitespace, read an optional sign, switch to
   * radix 16 after a `0x`/`0X` prefix, then read the longest run of digits; no
   * digits gives NaN.
   */
  function ParseInt(s: string): JsInt
  {
    ParseSigned(TrimStart(s))
  }

  /** parseInt after the leading whitespace: an optional sign, then the magnitude. */
  function ParseSigned(t: string): JsInt
  {
    if |t| > 0 && (t[0] == '-' || t[0] == '+') then
      match ParseMagnitude(t[1..])
      case NaN => NaN
      case Int(m) => Int(if t[0] == '-' then -m else m)
    else ParseMagnitude(t)
  }

  /** parseInt after the sign: a `0x`/`0X` prefix selects radix 16, otherwise radix 10. */
  function ParseMagnitude(u: string): JsInt
  {
    if |u| >= 2 && u[0] == '0' && (u[1] == 'x' || u[1] == 'X') then ReadDigits(u[2..], true)
    else ReadDigits(u, false)
  }

  /** The value of the longest run of digits that `v` starts with; NaN when there is none. */
  function ReadDigits(v: string, hex: bool): (r: JsInt)
    ensures r.Int? ==> r.value >= 0
  {
    var n := DigitRun(v, hex);
    if n == 0 then NaN else Int(DigitsValue(v[..n], hex))
  }

  /** The decimal text of a number, followed by anything that does not continue it, parses back to the number. */
  lemma ParseIntOfNatToString(n: nat, rest: string)
    requires rest == [] || (!IsDigit(rest[0]) && (n != 0 || (rest[0] != 'x' && rest[0] != 'X')))
    ensures ParseInt(NatToString(n) + rest) == Int(n)
  {
    var d := NatToString(n);
    var s := d + rest;
    assert s[0] == d[0] && IsDigit(s[0]);
    TrimStartKeeps(s);
    assert ParseSigned(s) == ParseMagnitude(s);
    MagnitudeOfNatToString(n, rest);
  }

  /** Text that does not start with whitespace is left alone by trimStart. */
  lemma TrimStartKeeps(s: string)
    requires |s| > 0 && IsDigit(s[0])
    ensures TrimStart(s) == s
  {
    assert !IsJsSpace(s[0]);
  }

  /** The magnitude part of parseInt reads decimal text back. */
  lemma MagnitudeOfNatToString(n: nat, rest: string)
    requires rest == [] || (!IsDigit(rest[0]) && (n != 0 || (rest[0] != 'x' && rest[0] != 'X')))
    ensures ParseMagnitude(NatToString(n) + rest) == Int(n)
  {
    var d := NatToString(n);
    var s := d + rest;
    assert s[0] == d[0];
    assert |d| == 1 ==> s[1..] == rest;
    assert ParseMagnitude(s) == ReadDigits(s, false);
    DigitRunOfNatToString(n, rest);
    DigitsValueOfNatToString(n);
  }

  /** Leading whitespace does not change what trimStart leaves. */
  lemma {:induction false} TrimStartSkipsSpace(w: string, s: string)
    requires AllSpace(w)
    ensures TrimStart(w + s) == TrimStart(s)
  {
    if w != [] {
      assert (w + s)[1..] == w[1..] + s;
      TrimStartSkipsSpace(w[1..], s);
    } else {
      assert w + s == s;
    }
  }

  /** parseInt ignores leading whitespace. */
  lemma ParseIntSkipsSpace(w: string, s: string)
    requires AllSpace(w)
    ensures ParseInt(w + s) == ParseInt(s)
  {
    TrimStartSkipsSpace(w, s);
  }

  /** Text without a single decimal digit is not a number. */
  lemma ParseIntWithoutDigits(s: string)
    requires forall i :: 0 <= i < |s| ==> !IsDigit(s[i])
    ensures ParseInt(s) == NaN
  {
    var t := TrimStart(s);
    var u := if |t| > 0 && (t[0] == '-' || t[0] == '+') then t[1..] else t;
    if |u| > 0 {
      assert u[0] == s[|s| - |u|];
    }
  }

  /** A negative decimal number parses back to its value. */
  lemma ParseIntOfNegative(n: nat)
    ensures ParseInt("-" + NatToString(n)) == Int(-(n as int))
  {
    var d := NatToString(n);
    var s := "-" + d;
    assert s[0] == '-';
    assert TrimStart(s) == s;
    assert s[1..] == d + "";
    MagnitudeOfNatToString(n, "");
  }

  // ---------------------------------------------------------------------------
  // Number.parseFloat (ECMA-262 section 21.1.2.12) and number formatting

  function Pow10(k: nat): (p: nat)
    ensures p >= 1
  {
    if k == 0 then 1 else 10 * Pow10(k - 1)
  }

  /**
   * A number that parseFloat produces. A finite one is read exactly as
   * (-1 when `negative`) * mantissa * 10^exponent, without rounding to the nearest
   * binary double; `negative` with mantissa 0 is -0.
   */
  datatype JsFloat = FloatNaN | Infinity(negative: bool) | Finite(negative: bool, mantissa: nat, exponent: int)

  /**
   * `Number.parseFloat(s)`: skip leading whitespace, read an optional sign, then the
   * longest prefix that is `Infinity` or a decimal literal (digits, an optional
   * fraction, an optional exponent); NaN when there is none.
   */
  function ParseFloat(s: string): JsFloat
  {
    var t := TrimStart(s);
    if |t| > 0 && (t[0] == '-' || t[0] == '+') then ParseUnsignedDecimal(t[1..], t[0] == '-')
    else ParseUnsignedDecimal(t, false)
  }

  /** parseFloat after the sign. */
  function ParseUnsignedDecimal(u: string, negative: bool): JsFloat
  {
    if StartsWith(u, "Infinity") then Infinity(negative)
    else
      var i := DigitRun(u, false);
      var rest := u[i..];
      var dot := |rest| > 0 && rest[0] == '.';
      var f := if dot then DigitRun(rest[1..], false) else 0;
      if i == 0 && f == 0 then FloatNaN
      else
        var whole := DigitsValue(u[..i], false);
        var fraction := if dot then DigitsValue(rest[1..][..f], false) else 0;
        var after := if dot then rest[1..][f..] else rest;
        Finite(negative, whole * Pow10(f) + fraction, ExponentPart(after) - f)
  }

  /** The exponent a decimal literal ends with (`e5`, `E-2`, ...), or 0 when none follows. */
  function ExponentPart(a: string): int
  {
    if |a| >= 2 && (a[0] == 'e' || a[0] == 'E') then
      var b := a[1..];
      if b[0] == '-' || b[0] == '+' then
        var k := DigitRun(b[1..], false);
        var v: int := DigitsValue(b[1..][..k], false);
        if b[0] == '-' then -v else v
      else
        DigitsValue(b[..DigitRun(b, false)], false)
    else 0
  }

  /** A finite parsed number that is a whole number (`x % 1 === 0`). */
  predicate IsWhole(mantissa: nat, exponent: int) {
    exponent >= 0 || mantissa % Pow10(-exponent) == 0
  }

  /** The integer value of a whole finite number. */
  function WholeValue(negative: bool, mantissa: nat, exponent: int): int
    requires IsWhole(mantissa, exponent)
  {
    var m := if exponent >= 0 then mantissa * Pow10(exponent) else mantissa / Pow10(-exponent);
    if negative then -m else m
  }

  /**
   * `x.toFixed(1)` for a finite number that is not whole: the sign, then |x| rounded
   * to one decimal with ties going to the larger digit.
   */
  function ToFixed1(negative: bool, mantissa: nat, exponent: int): (r: string)
    requires !IsWhole(mantissa, exponent)
  {
    var d := Pow10(-exponent - 1);
    var n := (2 * mantissa + d) / (2 * d);
    (if negative then "-" else "") + NatToString(n / 10) + "." + [DigitChar(n % 10)]
  }

  /** The decimal text of a natural number reads back as that number, exactly. */
  lemma ParseFloatOfNatToString(n: nat)
    ensures ParseFloat(NatToString(n)) == Finite(false, n, 0)
  {
    var d := NatToString(n);
    assert d[0] != '-' && d[0] != '+';
    assert TrimStart(d) == d;
    UnsignedDecimalOfNatToString(n);
  }

  lemma UnsignedDecimalOfNatToString(n: nat)
    ensures ParseUnsignedDecimal(NatToString(n), false) == Finite(false, n, 0)
  {
    var d := NatToString(n);
    assert !StartsWith(d, "Infinity") by {
      if |d| >= 8 { assert d[..8][0] == d[0]; }
    }
    DigitRunOfNatToString(n, "");
    assert d + "" == d;
    DigitsValueOfNatToString(n);
    assert d[|d|..] == "";
    assert d[..|d|] == d;
  }
}
