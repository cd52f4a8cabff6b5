/**
 * The colour-string pieces both `getColor` helpers share: the
 * `/^#([0-9a-f]{8})$/i` test, `String.prototype.substring` and
 * `parseInt(s, 16)`, and the alpha `parseInt(color.substring(7), 16) / 255`.
 */
module HexColor {
  import opened Wrappers

  /** A number as JavaScript computes it here: a value or NaN. */
  datatype Num = Num(value: real) | NaN

  predicate IsHexDigit(c: char) {
    ('0' <= c <= '9') || ('a' <= c <= 'f') || ('A' <= c <= 'F')
  }

  function HexDigitValue(c: char): (v: nat)
    requires IsHexDigit(c)
    ensures v < 16
  {
    if '0' <= c <= '9' then (c - '0') as nat
    else if 'a' <= c <= 'f' then (c - 'a') as nat + 10
    else (c - 'A') as nat + 10
  }

  /** The value of a run of hexadecimal digits, most significant first. */
  function HexValue(s: string): nat
    requires forall i :: 0 <= i < |s| ==> IsHexDigit(s[i])
  {
    if s == [] then 0 else HexValue(s[..|s| - 1]) * 16 + HexDigitValue(s[|s| - 1])
  }

  /** The regular expression `/^#([0-9a-f]{8})$/i`: a `#` and exactly eight hexadecimal digits. */
  predicate IsRrggbbaa(s: string) {
    |s| == 9 && s[0] == '#' && forall i :: 1 <= i < 9 ==> IsHexDigit(s[i])
  }

  /** `s.substring(start)`: the suffix from `start`, empty when `start` is past the end. */
  function SubstringFrom(s: string, start: nat): (r: string)
    ensures start <= |s| ==> r == s[start..]
    ensures start >= |s| ==> r == ""
  {
    if start <= |s| then s[start..] else ""
  }

  /** The white-space characters `parseInt` skips (WhiteSpace and LineTerminator of ECMAScript). */
  predicate IsJsWhiteSpace(c: char) {
    c == '\t' || c == '\n' || c == '\U{000B}' || c == '\U{000C}' || c == '\r' || c == ' '
    || c == '\U{00A0}' || c == '\U{1680}' || ('\U{2000}' <= c <= '\U{200A}')
    || c == '\U{2028}' || c == '\U{2029}' || c == '\U{202F}' || c == '\U{205F}'
    || c == '\U{3000}' || c == '\U{FEFF}'
  }

  function TrimStart(s: string): (r: string)
    ensures |r| <= |s|
    ensures r != [] ==> !IsJsWhiteSpace(r[0])
  {
    if s != [] && IsJsWhiteSpace(s[0]) then TrimStart(s[1..]) else s
  }

  /** The number of leading hexadecimal digits of `s`. */
  function HexRunLength(s: string): (n: nat)
    ensures n <= |s|
    ensures forall i :: 0 <= i < n ==> IsHexDigit(s[i])
    ensures n < |s| ==> !IsHexDigit(s[n])
  {
    if s != [] && IsHexDigit(s[0]) then 1 + HexRunLength(s[1..]) else 0
  }

  /** `s` without a leading `0x` or `0X`, which `parseInt` drops when the radix is 16. */
  function DropHexPrefix(s: string): string {
    if |s| >= 2 && s[0] == '0' && (s[1] == 'x' || s[1] == 'X') then s[2..] else s
  }

  /**
   * `parseInt(s, 16)`: skip leading white space, take an optional sign and an
   * optional `0x` prefix, then read the longest run of hexadecimal digits;
   * `None` is NaN (no digit at all).
   */
  function ParseIntHex(s: string): (r: Option<int>)
  {
    var t := TrimStart(s);
    var negative := t != [] && t[0] == '-';
    var unsigned := if t != [] && (t[0] == '-' || t[0] == '+') then t[1..] else t;
    var digits := DropHexPrefix(unsigned);
    var n := HexRunLength(digits);
    if n == 0 then None
    else
      var v: int := HexValue(digits[..n]);
      Some(if negative then -v else v)
  }

  /** The alpha `parseInt(color.substring(7), 16) / 255` both helpers compute. */
  function AlphaSuffix(color: string): Num {
    match ParseIntHex(SubstringFrom(color, 7))
    case None => NaN
    case Some(v) => Num(v as real / 255.0)
  }

  lemma {:induction false} HexValueBound(s: string)
    requires forall i :: 0 <= i < |s| ==> IsHexDigit(s[i])
    ensures |s| == 2 ==> HexValue(s) <= 255
  {
    if |s| == 2 {
      assert s[..1][..0] == [];
      assert HexValue(s[..1]) == HexDigitValue(s[0]);
    }
  }

  /**
   * For a colour matching `#rrggbbaa` the alpha is the byte `aa` over 255,
   * hence between 0 and 1.
   */
  lemma {:induction false} RrggbbaaAlpha(color: string)
    requires IsRrggbbaa(color)
    ensures AlphaSuffix(color) == Num(HexValue(color[7..]) as real / 255.0)
    ensures 0.0 <= AlphaSuffix(color).value <= 1.0
  {
    var suffix := color[7..];
    assert SubstringFrom(color, 7) == suffix;
    assert IsHexDigit(suffix[0]) && IsHexDigit(suffix[1]);
    assert TrimStart(suffix) == suffix;
    assert suffix[1] != 'x' && suffix[1] != 'X';
    assert DropHexPrefix(suffix) == suffix;
    assert HexRunLength(suffix[2..]) == 0;
    assert HexRunLength(suffix[1..]) == 1;
    assert HexRunLength(suffix) == 2;
    assert suffix[..2] == suffix;
    HexValueBound(suffix);
  }

  /**
   * A colour of seven characters or fewer (`#rrggbb`, `red`) has nothing
   * after position 7, so its parsed alpha is NaN.
   */
  lemma ShortColorAlphaIsNaN(color: string)
    requires |color| <= 7
    ensures AlphaSuffix(color) == NaN
  {
  }
}
