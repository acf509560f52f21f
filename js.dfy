/**
 * The JavaScript number conversions the catalogue relies on: `String(n)` /
 * template-literal interpolation of a non-negative integer, and `parseInt`
 * without a radix argument.  Numbers are unbounded integers here; the loss of
 * precision of JavaScript doubles above 2^53 is not modelled.
 */
module Js {

  /** The result of `parseInt`: NaN, or an integral value. */
  datatype JsNumber = NaN | Num(value: int)

  function Min(a: int, b: int): int { if a <= b then a else b }
  function Max(a: int, b: int): int { if a <= b then b else a }

  predicate IsDigit(c: char) { '0' <= c <= '9' }

  predicate AllDigits(s: string) { forall i | 0 <= i < |s| :: IsDigit(s[i]) }

  /** A digit of base `radix` (10, or 16 after a `0x` prefix). */
  predicate IsRadixDigit(c: char, radix: nat)
  {
    IsDigit(c) || (radix == 16 && ('a' <= c <= 'f' || 'A' <= c <= 'F'))
  }

  function DigitValue(c: char, radix: nat): (d: nat)
    requires IsRadixDigit(c, radix)
    ensures d < 16 && (radix == 10 ==> d < 10)
  {
    if IsDigit(c) then c as int - '0' as int
    else if 'a' <= c <= 'f' then c as int - 'a' as int + 10
    else c as int - 'A' as int + 10
  }

  function DigitChar(d: nat): (c: char)
    requires d < 10
    ensures IsDigit(c) && DigitValue(c, 10) == d
  {
    ('0' as int + d) as char
  }

  /** The shortest decimal numeral of `n`, as `String(n)` writes it. */
  function DecimalString(n: nat): (s: string)
    ensures |s| > 0 && AllDigits(s)
    ensures n > 0 ==> s[0] != '0'
    ensures n == 0 ==> s == "0"
  {
    if n < 10 then [DigitChar(n)] else DecimalString(n / 10) + [DigitChar(n % 10)]
  }

  /** The value of a numeral whose every character is a digit of `radix`. */
  function NumeralValue(s: string, radix: nat): nat
    requires forall i | 0 <= i < |s| :: IsRadixDigit(s[i], radix)
  {
    if s == [] then 0
    else NumeralValue(s[..|s| - 1], radix) * radix + DigitValue(s[|s| - 1], radix)
  }

  /** The longest prefix of `s` made of digits of `radix`. */
  function LeadingDigits(s: string, radix: nat): (z: string)
    ensures |z| <= |s| && z == s[..|z|]
    ensures forall i | 0 <= i < |z| :: IsRadixDigit(z[i], radix)
    ensures |z| < |s| ==> !IsRadixDigit(s[|z|], radix)
  {
    if s != [] && IsRadixDigit(s[0], radix) then [s[0]] + LeadingDigits(s[1..], radix) else []
  }

  /** The characters the StrWhiteSpaceChar production of ECMA-262 accepts. */
  predicate IsJsWhitespace(c: char)
  {
    var u := c as int;
    u == 0x09 || u == 0x0A || u == 0x0B || u == 0x0C || u == 0x0D || u == 0x20
    || u == 0xA0 || u == 0x1680 || (0x2000 <= u <= 0x200A) || u == 0x2028
    || u == 0x2029 || u == 0x202F || u == 0x205F || u == 0x3000 || u == 0xFEFF
  }

  function TrimStart(s: string): (t: string)
    ensures |t| <= |s| && t == s[|s| - |t|..]
    ensures t == [] || !IsJsWhitespace(t[0])
    ensures forall i | 0 <= i < |s| - |t| :: IsJsWhitespace(s[i])
  {
    if s != [] && IsJsWhitespace(s[0]) then TrimStart(s[1..]) else s
  }

  /**
   * `parseInt(s)`: leading white space is skipped, one sign is read, a `0x`
   * or `0X` prefix switches to base 16, and the longest run of digits that
   * follows is the value; NaN when that run is empty.
   */
  function ParseInt(s: string): (r: JsNumber)
    ensures var t := TrimStart(s);
      t == [] || (!IsDigit(t[0]) && t[0] != '+' && t[0] != '-') ==> r == NaN
    ensures r.Num? && r.value < 0 ==> TrimStart(s)[0] == '-'
  {
    var t := TrimStart(s);
    var negative := t != [] && t[0] == '-';
    var u := if t != [] && (t[0] == '-' || t[0] == '+') then t[1..] else t;
    var hex := |u| >= 2 && u[0] == '0' && (u[1] == 'x' || u[1] == 'X');
    var radix := if hex then 16 else 10;
    var z := LeadingDigits(if hex then u[2..] else u, radix);
    if z == [] then NaN
    else if negative then Num(-(NumeralValue(z, radix) as int))
    else Num(NumeralValue(z, radix))
  }

  lemma {:induction false} DecimalStringValue(n: nat)
    ensures NumeralValue(DecimalString(n), 10) == n
  {
    if n >= 10 {
      var s := DecimalString(n);
      assert s[..|s| - 1] == DecimalString(n / 10);
      DecimalStringValue(n / 10);
    }
  }

  lemma {:induction false} LeadingDigitsOfNumeral(s: string)
    requires AllDigits(s)
    ensures LeadingDigits(s, 10) == s
  {
    if s != [] {
      LeadingDigitsOfNumeral(s[1..]);
    }
  }

  /** A plain decimal numeral is read back by `parseInt` as its value. */
  lemma ParseIntOfNumeral(s: string)
    requires s != [] && AllDigits(s)
    ensures ParseInt(s) == Num(NumeralValue(s, 10))
  {
    assert !IsJsWhitespace(s[0]);
    assert TrimStart(s) == s;
    LeadingDigitsOfNumeral(s);
  }

  /** A sign followed by decimal digits reads as that signed number. */
  lemma ParseIntOfSignedNumeral(s: string)
    requires |s| > 1 && (s[0] == '+' || s[0] == '-') && AllDigits(s[1..])
    ensures var magnitude := NumeralValue(s[1..], 10);
      ParseInt(s) == Num(if s[0] == '-' then -(magnitude as int) else magnitude)
  {
    assert !IsJsWhitespace(s[0]);
    assert TrimStart(s) == s;
    var u := s[1..];
    assert u[0] != 'x';
    if |u| >= 2 {
      assert IsDigit(u[1]);
    }
    LeadingDigitsOfNumeral(u);
  }

  /** `parseInt(String(n)) === n` for every non-negative integer. */
  lemma ParseIntOfDecimalString(n: nat)
    ensures ParseInt(DecimalString(n)) == Num(n)
  {
    ParseIntOfNumeral(DecimalString(n));
    DecimalStringValue(n);
  }

  /** Distinct numbers have distinct numerals. */
  lemma DecimalStringInjective(a: nat, b: nat)
    requires DecimalString(a) == DecimalString(b)
    ensures a == b
  {
    DecimalStringValue(a);
    DecimalStringValue(b);
  }

  /**
   * A numeral followed by text that starts with a non-digit can be split off
   * uniquely: equal strings of that shape have equal numerals.
   */
  lemma NumeralPrefixUnique(a: string, x: string, b: string, y: string)
    requires AllDigits(a) && AllDigits(b)
    requires x != [] && !IsDigit(x[0]) && y != [] && !IsDigit(y[0])
    requires a + x == b + y
    ensures a == b && x == y
  {
    var m := Min(|a|, |b|);
    assert IsDigit((a + x)[m]) <==> m < |a|;
    assert IsDigit((b + y)[m]) <==> m < |b|;
    assert a == (a + x)[..|a|];
    assert b == (b + y)[..|b|];
    assert x == (a + x)[|a|..];
    assert y == (b + y)[|b|..];
  }

  /**
   * A number written between a fixed prefix and a fixed text that starts with
   * a non-digit can be read back from the string: equal strings of that shape
   * embed equal numbers.
   */
  lemma NumeralInTemplate(p: string, i: nat, x: string, j: nat, y: string)
    requires x != [] && !IsDigit(x[0]) && y != [] && !IsDigit(y[0])
    requires p + DecimalString(i) + x == p + DecimalString(j) + y
    ensures i == j
  {
    var a, b := DecimalString(i), DecimalString(j);
    assert a + x == (p + a + x)[|p|..];
    assert b + y == (p + b + y)[|p|..];
    NumeralPrefixUnique(a, x, b, y);
    DecimalStringInjective(i, j);
  }

  /**
   * A bound of `Array.prototype.slice`: NaN counts as 0, a negative bound
   * counts back from the end, and the result is clamped to the length.
   */
  function SliceBound(len: nat, n: JsNumber): (k: nat)
    ensures k <= len
    ensures n.Num? && 0 <= n.value ==> k == Min(n.value, len)
    ensures n.Num? && n.value < 0 ==> k == Max(len + n.value, 0)
    ensures n.NaN? ==> k == 0
  {
    match n
    case NaN => 0
    case Num(v) => if v < 0 then (if len + v < 0 then 0 else len + v) else (if v < len then v else len)
  }

  /** `s.slice(start, end)`: the elements from the start bound up to the end bound, none if they cross. */
  function Slice<T>(s: seq<T>, start: JsNumber, end: JsNumber): (r: seq<T>)
    ensures var a, b := SliceBound(|s|, start), SliceBound(|s|, end);
      && |r| == (if a <= b then b - a else 0)
      && forall i | 0 <= i < |r| :: r[i] == s[a + i]
  {
    var a, b := SliceBound(|s|, start), SliceBound(|s|, end);
    if a <= b then s[a..b] else []
  }
}
