/**
 * The number conversions the gateway performs on text: the global `parseInt` with its radix
 * left undefined, the conversion of an integer to its decimal text (as a template literal
 * does), and `Array.prototype.slice` with possibly-NaN bounds.
 *
 * Numbers are integers here; `None` stands for NaN wherever a number may be NaN.
 */
module JsNumbers {
  import opened Prelude

  // ---------------------------------------------------------------------------
  // Digits

  /** The value of `c` as a digit in radix up to 36 (`0-9`, `a-z`, `A-Z`); 36 when it is no digit. */
  function DigitValue(c: char): (d: nat)
    ensures d <= 36
  {
    if '0' <= c <= '9' then c as int - '0' as int
    else if 'a' <= c <= 'z' then c as int - 'a' as int + 10
    else if 'A' <= c <= 'Z' then c as int - 'A' as int + 10
    else 36
  }

  predicate IsDigitIn(c: char, radix: nat) {
    DigitValue(c) < radix
  }

  /** The decimal digit character for `d`. */
  function DigitChar(d: nat): (c: char)
    requires d < 10
    ensures IsDigitIn(c, 10) && DigitValue(c) == d
  {
    (d + '0' as int) as char
  }

  /** The length of the longest prefix of `s` made of radix-`radix` digits. */
  function DigitPrefixLength(s: string, radix: nat): (n: nat)
    ensures n <= |s|
  {
    if |s| == 0 || !IsDigitIn(s[0], radix) then 0 else 1 + DigitPrefixLength(s[1..], radix)
  }

  /** The value of a string of radix-`radix` digits, most significant first. */
  function DigitsValue(s: string, radix: nat): nat
    requires forall i :: 0 <= i < |s| ==> IsDigitIn(s[i], radix)
  {
    if s == [] then 0
    else
      var init := s[..|s| - 1];
      assert forall i :: 0 <= i < |init| ==> init[i] == s[i];
      var high := DigitsValue(init, radix);
      NatProduct(high, radix);
      high * radix + DigitValue(s[|s| - 1])
  }

  lemma NatProduct(a: nat, b: nat)
    ensures a * b >= 0
  {
  }

  // ---------------------------------------------------------------------------
  // Number to text

  /** The decimal text of a natural number, without leading zeros. */
  function NatToDecimal(n: nat): (s: string)
    ensures |s| >= 1 && forall i :: 0 <= i < |s| ==> IsDigitIn(s[i], 10)
    ensures s[0] == '0' ==> n == 0
  {
    if n < 10 then [DigitChar(n)] else NatToDecimal(n / 10) + [DigitChar(n % 10)]
  }

  /** `String(n)` for an integer `n`: a minus sign followed by the digits when negative. */
  function IntToString(n: int): string {
    if n < 0 then "-" + NatToDecimal(-n) else NatToDecimal(n)
  }

  /** The decimal text of `n` reads back as `n`. */
  lemma {:induction false} NatToDecimalValue(n: nat)
    ensures DigitsValue(NatToDecimal(n), 10) == n
  {
    var s := NatToDecimal(n);
    if n >= 10 {
      NatToDecimalValue(n / 10);
      assert s[..|s| - 1] == NatToDecimal(n / 10);
    }
  }

  /** A run of digits followed by a non-digit (or by nothing) is a digit prefix of exactly its length. */
  lemma {:induction false} DigitPrefixOfDigits(d: string, rest: string, radix: nat)
    requires forall i :: 0 <= i < |d| ==> IsDigitIn(d[i], radix)
    requires rest == [] || !IsDigitIn(rest[0], radix)
    ensures DigitPrefixLength(d + rest, radix) == |d|
  {
    if d != [] {
      assert (d + rest)[1..] == d[1..] + rest;
      DigitPrefixOfDigits(d[1..], rest, radix);
    } else {
      assert d + rest == rest;
    }
  }

  // ---------------------------------------------------------------------------
  // parseInt

  /**
   * The white space and line terminators that `parseInt` skips before the number:
   * TAB, LF, VT, FF, CR, SPACE, NBSP, the Unicode space separators, LS, PS and the BOM.
   */
  predicate IsJsWhiteSpace(c: char) {
    c == '\t' || c == '\n' || c == '\U{0B}' || c == '\U{0C}' || c == '\r' || c == ' '
    || c == '\U{A0}' || c == '\U{1680}' || ('\U{2000}' <= c <= '\U{200A}')
    || c == '\U{2028}' || c == '\U{2029}' || c == '\U{202F}' || c == '\U{205F}'
    || c == '\U{3000}' || c == '\U{FEFF}'
  }

  /** `s` without its leading white space. */
  function TrimStart(s: string): (t: string)
    ensures |t| <= |s| && t == s[|s| - |t|..]
    ensures t == [] || !IsJsWhiteSpace(t[0])
  {
    if |s| > 0 && IsJsWhiteSpace(s[0]) then TrimStart(s[1..]) else s
  }

  /** The unsigned part of `parseInt`: after a `0x`/`0X` prefix hexadecimal digits, otherwise decimal ones. */
  function ParseUnsigned(u: string): (r: Option<nat>) {
    var hex := |u| >= 2 && u[0] == '0' && (u[1] == 'x' || u[1] == 'X');
    var radix := if hex then 16 else 10;
    var digits := if hex then u[2..] else u;
    var n := DigitPrefixLength(digits, radix);
    if n == 0 then None
    else
      DigitPrefixIsDigits(digits, radix);
      Some(DigitsValue(digits[..n], radix))
  }

  /**
   * `parseInt(s)` with no radix argument: skip leading white space, take an optional sign,
   * read hexadecimal digits after a `0x`/`0X` prefix and decimal digits otherwise, and stop at
   * the first character that is no digit. `None` is NaN: no digit was found.
   */
  function ParseInt(s: string): (r: Option<int>) {
    var t := TrimStart(s);
    var signed := |t| > 0 && (t[0] == '-' || t[0] == '+');
    match ParseUnsigned(if signed then t[1..] else t)
    case None => None
    case Some(v) => Some(if signed && t[0] == '-' then -(v as int) else v as int)
  }

  lemma {:induction false} DigitPrefixIsDigits(s: string, radix: nat)
    ensures forall i :: 0 <= i < DigitPrefixLength(s, radix) ==> IsDigitIn(s[..DigitPrefixLength(s, radix)][i], radix)
  {
    if |s| > 0 && IsDigitIn(s[0], radix) {
      DigitPrefixIsDigits(s[1..], radix);
      forall i | 0 <= i < DigitPrefixLength(s, radix)
        ensures IsDigitIn(s[..DigitPrefixLength(s, radix)][i], radix)
      {
        if i > 0 { assert s[..DigitPrefixLength(s, radix)][i] == s[1..][..DigitPrefixLength(s[1..], radix)][i - 1]; }
      }
    }
  }

  /** The unsigned reader takes back the decimal text of a natural number and stops there. */
  lemma ParseUnsignedOfDecimal(m: nat, rest: string)
    requires rest == [] || (!IsDigitIn(rest[0], 10) && rest[0] != 'x' && rest[0] != 'X')
    ensures ParseUnsigned(NatToDecimal(m) + rest) == Some(m)
  {
    var d := NatToDecimal(m);
    var u := d + rest;
    assert !(|u| >= 2 && u[0] == '0' && (u[1] == 'x' || u[1] == 'X')) by {
      if |u| >= 2 && u[0] == '0' {
        assert m == 0 && |d| == 1;
        assert u[1] == rest[0];
      }
    }
    DigitPrefixOfDigits(d, rest, 10);
    assert u[..|d|] == d;
    NatToDecimalValue(m);
  }

  /**
   * `parseInt` reads back the decimal text of any integer, and stops there: whatever follows,
   * as long as it does not begin with a digit or with an `x` that would turn a lone `0` into a
   * hexadecimal prefix, is ignored.
   */
  lemma ParseIntOfDecimal(n: int, rest: string)
    requires rest == [] || (!IsDigitIn(rest[0], 10) && rest[0] != 'x' && rest[0] != 'X')
    ensures ParseInt(IntToString(n) + rest) == Some(n)
  {
    var m: nat := if n < 0 then -n else n;
    var d := NatToDecimal(m);
    var u := d + rest;
    ParseUnsignedOfDecimal(m, rest);
    DecimalDigitIsAscii(d[0]);
    assert u[0] == d[0];
    if n < 0 {
      assert IntToString(n) == "-" + d;
      assert ("-" + d) + rest == "-" + u;
      ParseIntNegative(u, m);
    } else {
      assert IntToString(n) == d;
      ParseIntUnsigned(u, m);
    }
  }

  /** A digit-led text that reads as `m` without a sign reads as `m` under `parseInt`. */
  lemma ParseIntUnsigned(u: string, m: nat)
    requires |u| > 0 && '0' <= u[0] <= '9' && ParseUnsigned(u) == Some(m)
    ensures ParseInt(u) == Some(m)
  {
    NoLeadingSpace(u);
    var t := TrimStart(u);
    assert t == u && !(t[0] == '-' || t[0] == '+');
  }

  /** With a minus sign in front, the same text reads as `-m`. */
  lemma ParseIntNegative(u: string, m: nat)
    requires |u| > 0 && '0' <= u[0] <= '9' && ParseUnsigned(u) == Some(m)
    ensures ParseInt("-" + u) == Some(-(m as int))
  {
    var s := "-" + u;
    NoLeadingSpace(s);
    var t := TrimStart(s);
    assert t == s && t[0] == '-' && t[1..] == u;
  }

  /** A text that does not begin with white space is left as it is by `TrimStart`. */
  lemma NoLeadingSpace(s: string)
    requires |s| > 0 && !IsJsWhiteSpace(s[0])
    ensures TrimStart(s) == s
  {
  }

  lemma DecimalDigitIsAscii(c: char)
    requires IsDigitIn(c, 10)
    ensures '0' <= c <= '9' && !IsJsWhiteSpace(c) && c != '-' && c != '+'
  {
  }

  /** The two defaults of the activity feed read as the numbers they spell. */
  lemma ParseIntDefaults()
    ensures ParseInt("20") == Some(20)
    ensures ParseInt("0") == Some(0)
  {
    assert DigitChar(2) == '2' && DigitChar(0) == '0';
    assert NatToDecimal(2) == ['2'];
    assert NatToDecimal(20) == NatToDecimal(2) + ['0'];
    assert IntToString(20) + "" == "20";
    ParseIntOfDecimal(20, "");
    assert IntToString(0) + "" == "0";
    ParseIntOfDecimal(0, "");
  }

  // ---------------------------------------------------------------------------
  // Arithmetic and Array.prototype.slice over possibly-NaN numbers

  /** `a + b` where either operand may be NaN. */
  function Add(a: Option<int>, b: Option<int>): (r: Option<int>)
    ensures r.Some? <==> a.Some? && b.Some?
  {
    if a.Some? && b.Some? then Some(a.value + b.value) else None
  }

  /** How `slice` turns one argument into an index of a sequence of length `len`. */
  function RelativeIndex(k: Option<int>, len: nat): (r: nat)
    ensures r <= len
  {
    match k
    case None => 0
    case Some(x) =>
      if x < 0 then (if len + x < 0 then 0 else len + x)
      else if x < len then x else len
  }

  /** `xs.slice(start, end)`: negative bounds count from the end, NaN counts as 0. */
  function Slice<T>(xs: seq<T>, start: Option<int>, end: Option<int>): seq<T> {
    var from := RelativeIndex(start, |xs|);
    var to := RelativeIndex(end, |xs|);
    if from < to then xs[from..to] else []
  }

  /**
   * For a non-negative offset and limit, `xs.slice(offset, offset + limit)` is the window of at
   * most `limit` elements starting at `offset`, cut at the end of `xs`.
   */
  lemma SliceWindow<T>(xs: seq<T>, offset: nat, limit: nat)
    ensures var r := Slice(xs, Some(offset), Add(Some(offset), Some(limit)));
      && |r| <= limit
      && (offset >= |xs| ==> r == [])
      && (offset + limit <= |xs| ==> r == xs[offset..offset + limit])
      && (offset < |xs| < offset + limit ==> r == xs[offset..])
  {
  }

  /** Whatever the bounds, slicing never yields more than the sequence holds, and nothing from nothing. */
  lemma SliceBounded<T>(xs: seq<T>, start: Option<int>, end: Option<int>)
    ensures |Slice(xs, start, end)| <= |xs|
    ensures xs == [] ==> Slice(xs, start, end) == []
    ensures forall i :: 0 <= i < |Slice(xs, start, end)| ==> Slice(xs, start, end)[i] in xs
  {
  }
}
