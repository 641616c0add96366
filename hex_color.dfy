/**
 * The colour fixture of the composition test: `parseInt(s, 16)` over
 * `String.prototype.substr`, which the RGB mixin uses to split a
 * six-digit hexadecimal colour into its red, green and blue bytes.
 */
module HexColor {
  import opened Wrappers

  /** The characters `parseInt` skips before the digits: JavaScript's white space and line terminators. */
  predicate IsJsSpace(c: char) {
    var n := c as int;
    n == 0x20 || 0x09 <= n <= 0x0D || n == 0xA0 || n == 0x1680 || 0x2000 <= n <= 0x200A
    || n == 0x2028 || n == 0x2029 || n == 0x202F || n == 0x205F || n == 0x3000 || n == 0xFEFF
  }

  predicate IsHexDigit(c: char) {
    '0' <= c <= '9' || 'a' <= c <= 'f' || 'A' <= c <= 'F'
  }

  predicate AllHex(s: string) {
    forall i | 0 <= i < |s| :: IsHexDigit(s[i])
  }

  /** The value of a hexadecimal digit (0 for any other character, which callers never pass). */
  function DigitValue(c: char): (d: nat)
    ensures d < 16
    ensures '0' <= c <= '9' ==> d == c as int - '0' as int
  {
    if '0' <= c <= '9' then c as int - '0' as int
    else if 'A' <= c <= 'F' then c as int - 'A' as int + 10
    else if 'a' <= c <= 'f' then c as int - 'a' as int + 10
    else 0
  }

  /** The upper-case digit for `d`, as the colours of the test are written. */
  function UpperDigit(d: nat): (c: char)
    requires d < 16
    ensures IsHexDigit(c) && DigitValue(c) == d
    ensures !('a' <= c <= 'f')
  {
    if d < 10 then ('0' as int + d) as char else ('A' as int + d - 10) as char
  }

  /** `s.substr(start, len)` for a non-negative start: at most `len` characters from `start` on. */
  function Substr(s: string, start: nat, len: nat): (r: string)
    ensures |r| == if start >= |s| then 0 else if start + len <= |s| then len else |s| - start
    ensures forall i | 0 <= i < |r| :: r[i] == s[start + i]
  {
    if start >= |s| then [] else if start + len <= |s| then s[start..start + len] else s[start..]
  }

  /** Drops the leading white space, as `parseInt` does first. */
  function TrimStart(s: string): (t: string)
    ensures |t| <= |s|
  {
    if s != [] && IsJsSpace(s[0]) then TrimStart(s[1..]) else s
  }

  /** The length of the longest prefix of `s` made of hexadecimal digits. */
  function HexRun(s: string): (n: nat)
    ensures n <= |s|
  {
    if s != [] && IsHexDigit(s[0]) then 1 + HexRun(s[1..]) else 0
  }

  /** `HexRun` stops exactly at the first character that is not a digit. */
  lemma {:induction false} HexRunIsMaximal(s: string)
    ensures AllHex(s[..HexRun(s)])
    ensures HexRun(s) < |s| ==> !IsHexDigit(s[HexRun(s)])
  {
    if s != [] && IsHexDigit(s[0]) {
      HexRunIsMaximal(s[1..]);
      assert s[..HexRun(s)] == [s[0]] + s[1..][..HexRun(s[1..])];
    }
  }

  lemma {:induction false} HexRunOfDigits(s: string)
    requires AllHex(s)
    ensures HexRun(s) == |s|
  {
    if s != [] {
      HexRunOfDigits(s[1..]);
    }
  }

  /** The number a string of hexadecimal digits denotes, most significant digit first. */
  function HexValue(ds: string): nat
  {
    if ds == [] then 0 else 16 * HexValue(ds[..|ds| - 1]) + DigitValue(ds[|ds| - 1])
  }

  /**
   * `parseInt(s, 16)`: skip white space, take an optional sign and an optional
   * `0x`/`0X` prefix, then the longest run of hexadecimal digits; `None` is NaN,
   * the answer when that run is empty.
   */
  function ParseInt16(s: string): Option<int> {
    var t := TrimStart(s);
    var negative := t != [] && t[0] == '-';
    var u := if t != [] && (t[0] == '-' || t[0] == '+') then t[1..] else t;
    var w := if |u| >= 2 && u[0] == '0' && (u[1] == 'x' || u[1] == 'X') then u[2..] else u;
    var n := HexRun(w);
    if n == 0 then None
    else
      var v: int := HexValue(w[..n]);
      Some(if negative then -v else v)
  }

  /** The `red`, `green` and `blue` fixture methods, applied to the string in `this.color`. */
  function Red(color: string): Option<int> { ParseInt16(Substr(color, 0, 2)) }
  function Green(color: string): Option<int> { ParseInt16(Substr(color, 2, 2)) }
  function Blue(color: string): Option<int> { ParseInt16(Substr(color, 4, 2)) }

  /** A byte as two upper-case hexadecimal digits. */
  function ByteToHex(b: nat): (r: string)
    requires b < 256
    ensures |r| == 2 && AllHex(r)
  {
    [UpperDigit(b / 16), UpperDigit(b % 16)]
  }

  /** The six-digit colour for three bytes, in the `CC3399` form the test uses. */
  function EncodeRgb(r: nat, g: nat, b: nat): (s: string)
    requires r < 256 && g < 256 && b < 256
    ensures |s| == 6 && AllHex(s)
  {
    ByteToHex(r) + ByteToHex(g) + ByteToHex(b)
  }

  lemma {:induction false} HexDigitIsNotSpace(c: char)
    requires IsHexDigit(c)
    ensures !IsJsSpace(c) && c != '-' && c != '+' && c != 'x' && c != 'X'
  {
  }

  /** A non-empty run of hexadecimal digits parses to the number it denotes. */
  lemma {:induction false} ParseHexDigits(s: string)
    requires s != [] && AllHex(s)
    ensures ParseInt16(s) == Some(HexValue(s))
  {
    HexDigitIsNotSpace(s[0]);
    assert TrimStart(s) == s;
    if |s| >= 2 {
      HexDigitIsNotSpace(s[1]);
    }
    HexRunOfDigits(s);
    assert s[..HexRun(s)] == s;
  }

  /** A two-digit pair denotes `16 * high + low`, always a byte. */
  lemma {:induction false} HexPairValue(hi: char, lo: char)
    requires IsHexDigit(hi) && IsHexDigit(lo)
    ensures HexValue([hi, lo]) == 16 * DigitValue(hi) + DigitValue(lo)
    ensures HexValue([hi, lo]) < 256
  {
    var s := [hi, lo];
    assert HexValue([hi]) == DigitValue(hi) by {
      assert [hi][..0] == [];
    }
    assert s[..1] == [hi];
    assert HexValue(s) == 16 * HexValue(s[..1]) + DigitValue(s[1]);
  }

  /** Parsing a byte's two digits gives the byte back. */
  lemma {:induction false} ByteRoundTrip(b: nat)
    requires b < 256
    ensures ParseInt16(ByteToHex(b)) == Some(b)
  {
    var s := ByteToHex(b);
    ParseHexDigits(s);
    HexPairValue(s[0], s[1]);
    assert s == [s[0], s[1]];
  }

  /**
   * For any six-digit hexadecimal colour, `red`, `green` and `blue` are the
   * bytes of its first, second and third digit pairs.
   */
  lemma {:induction false} ChannelsOfHexColor(s: string)
    requires |s| == 6 && AllHex(s)
    ensures Red(s) == Some(16 * DigitValue(s[0]) + DigitValue(s[1]))
    ensures Green(s) == Some(16 * DigitValue(s[2]) + DigitValue(s[3]))
    ensures Blue(s) == Some(16 * DigitValue(s[4]) + DigitValue(s[5]))
    ensures 0 <= Red(s).value < 256 && 0 <= Green(s).value < 256 && 0 <= Blue(s).value < 256
  {
    RedOfColor(s);
    GreenOfColor(s);
    BlueOfColor(s);
  }

  lemma {:induction false} RedOfColor(s: string)
    requires |s| == 6 && AllHex(s)
    ensures Red(s) == Some(16 * DigitValue(s[0]) + DigitValue(s[1]))
    ensures 16 * DigitValue(s[0]) + DigitValue(s[1]) < 256
  {
    PairAt(s, 0);
  }

  lemma {:induction false} GreenOfColor(s: string)
    requires |s| == 6 && AllHex(s)
    ensures Green(s) == Some(16 * DigitValue(s[2]) + DigitValue(s[3]))
    ensures 16 * DigitValue(s[2]) + DigitValue(s[3]) < 256
  {
    PairAt(s, 2);
  }

  lemma {:induction false} BlueOfColor(s: string)
    requires |s| == 6 && AllHex(s)
    ensures Blue(s) == Some(16 * DigitValue(s[4]) + DigitValue(s[5]))
    ensures 16 * DigitValue(s[4]) + DigitValue(s[5]) < 256
  {
    PairAt(s, 4);
  }

  lemma {:induction false} PairAt(s: string, k: nat)
    requires k + 2 <= |s| && AllHex(s)
    ensures ParseInt16(Substr(s, k, 2)) == Some(16 * DigitValue(s[k]) + DigitValue(s[k + 1]))
    ensures 16 * DigitValue(s[k]) + DigitValue(s[k + 1]) < 256
  {
    var p := Substr(s, k, 2);
    assert p == [s[k], s[k + 1]];
    ParseHexDigits(p);
    HexPairValue(s[k], s[k + 1]);
  }

  /** Encoding three bytes and decoding the colour gives the bytes back. */
  lemma {:induction false} RgbRoundTrip(r: nat, g: nat, b: nat)
    requires r < 256 && g < 256 && b < 256
    ensures Red(EncodeRgb(r, g, b)) == Some(r)
    ensures Green(EncodeRgb(r, g, b)) == Some(g)
    ensures Blue(EncodeRgb(r, g, b)) == Some(b)
  {
    var s := EncodeRgb(r, g, b);
    ChannelsOfHexColor(s);
    assert Substr(s, 0, 2) == ByteToHex(r);
    assert Substr(s, 2, 2) == ByteToHex(g);
    assert Substr(s, 4, 2) == ByteToHex(b);
    ByteRoundTrip(r);
    ByteRoundTrip(g);
    ByteRoundTrip(b);
  }

  /** The other direction: an upper-case six-digit colour is re-encoded from its decoded bytes. */
  lemma {:induction false} HexColorRoundTrip(s: string)
    requires |s| == 6 && AllHex(s)
    requires forall i | 0 <= i < 6 :: !('a' <= s[i] <= 'f')
    ensures Red(s).Some? && Green(s).Some? && Blue(s).Some?
    ensures 0 <= Red(s).value < 256 && 0 <= Green(s).value < 256 && 0 <= Blue(s).value < 256
    ensures EncodeRgb(Red(s).value, Green(s).value, Blue(s).value) == s
  {
    var r, g, b := 16 * DigitValue(s[0]) + DigitValue(s[1]), 16 * DigitValue(s[2]) + DigitValue(s[3]),
                   16 * DigitValue(s[4]) + DigitValue(s[5]);
    assert EncodeRgb(r, g, b) == s by { ReencodeDigits(s); }
    RgbRoundTrip(r, g, b);
  }

  /** Writing out the three digit-pair values of an upper-case colour gives the colour back. */
  lemma {:induction false} ReencodeDigits(s: string)
    requires |s| == 6 && AllHex(s)
    requires forall i | 0 <= i < 6 :: !('a' <= s[i] <= 'f')
    ensures 16 * DigitValue(s[0]) + DigitValue(s[1]) < 256
    ensures 16 * DigitValue(s[2]) + DigitValue(s[3]) < 256
    ensures 16 * DigitValue(s[4]) + DigitValue(s[5]) < 256
    ensures EncodeRgb(16 * DigitValue(s[0]) + DigitValue(s[1]), 16 * DigitValue(s[2]) + DigitValue(s[3]),
                      16 * DigitValue(s[4]) + DigitValue(s[5])) == s
  {
    var r, g, b := 16 * DigitValue(s[0]) + DigitValue(s[1]), 16 * DigitValue(s[2]) + DigitValue(s[3]),
                   16 * DigitValue(s[4]) + DigitValue(s[5]);
    assert ByteToHex(r) == [s[0], s[1]] by { PairReencodes(s[0], s[1]); }
    assert ByteToHex(g) == [s[2], s[3]] by { PairReencodes(s[2], s[3]); }
    assert ByteToHex(b) == [s[4], s[5]] by { PairReencodes(s[4], s[5]); }
    assert s == [s[0], s[1]] + [s[2], s[3]] + [s[4], s[5]];
  }

  lemma {:induction false} PairReencodes(hi: char, lo: char)
    requires IsHexDigit(hi) && IsHexDigit(lo) && !('a' <= hi <= 'f') && !('a' <= lo <= 'f')
    ensures 16 * DigitValue(hi) + DigitValue(lo) < 256
    ensures ByteToHex(16 * DigitValue(hi) + DigitValue(lo)) == [hi, lo]
  {
    var v := 16 * DigitValue(hi) + DigitValue(lo);
    assert v / 16 == DigitValue(hi) && v % 16 == DigitValue(lo);
  }

  /** The test's colour: `CC3399` decodes to 204, 51 and 153. */
  lemma {:induction false} TestColourDecodes()
    ensures Red("CC3399") == Some(204) && Green("CC3399") == Some(51) && Blue("CC3399") == Some(153)
  {
    assert EncodeRgb(204, 51, 153) == "CC3399" by {
      assert ByteToHex(204) == "CC" && ByteToHex(51) == "33" && ByteToHex(153) == "99";
    }
    RgbRoundTrip(204, 51, 153);
  }
}
