/** `rgb_to_ansi`: a `#RRGGBB` colour as an ECMA-48 truecolour foreground escape. */
module Colour {
  import opened Wrappers
  import opened Text

  /** Python slicing `s[i:j]` for `0 <= i <= j`: bounds past the end are clamped. */
  function Slice(s: string, i: nat, j: nat): (r: string)
    requires i <= j
    ensures |r| == (if j <= |s| then j - i else if i <= |s| then |s| - i else 0)
    ensures j <= |s| ==> r == s[i..j]
  {
    var hi := if j <= |s| then j else |s|;
    var lo := if i <= hi then i else hi;
    s[lo..hi]
  }

  const ESC: char := '\U{1B}'

  /** SGR 38;2;R;G;B: select a 24-bit foreground colour, parameters in decimal. */
  function TruecolourEscape(red: int, green: int, blue: int): (r: string)
    ensures |r| > 8 && r[0] == ESC && r[1..7] == "[38;2;" && r[|r| - 1] == 'm'
  {
    [ESC] + "[38;2;" + IntToString(red) + ";" + IntToString(green) + ";" + IntToString(blue) + "m"
  }

  /** `#` followed by six hex digits, possibly followed by anything. */
  predicate HexTriplet(c: string) {
    |c| >= 7 && c[0] == '#' && forall i :: 1 <= i < 7 ==> IsHexDigit(c[i])
  }

  /** The byte spelled by the hex digits at `k` and `k + 1`. */
  function HexByte(c: string, k: nat): (v: nat)
    requires k + 1 < |c| && IsHexDigit(c[k]) && IsHexDigit(c[k + 1])
    ensures v < 256
  {
    16 * DigitValue(c[k]) + DigitValue(c[k + 1])
  }

  /**
   * The escape for an optional colour. No colour (`Ok(None)`) when the
   * colour is absent, empty, does not start with `#` or is too short for
   * three two-character channels; the `int(..., 16)` failure of a channel
   * escapes as an error, since the source does not catch it.
   */
  function RgbToAnsi(colour: Option<string>): (r: Result<Option<string>>)
    ensures colour.None? || colour.value == [] || colour.value[0] != '#' || |colour.value| < 7
            ==> r == Ok(None)
    ensures r.Ok? && r.value.Some? ==> colour.Some? && |colour.value| >= 7 && colour.value[0] == '#'
    ensures r.Err? ==> r.error.InvalidLiteral? && r.error.base == 16 && |r.error.text| == 2
  {
    if colour.None? || colour.value == [] || colour.value[0] != '#' then Ok(None)
    else
      var c := colour.value;
      var red, green, blue := Slice(c, 1, 3), Slice(c, 3, 5), Slice(c, 5, 7);
      if !(|red| == |green| == |blue| == 2) then Ok(None)
      else DecodeChannels(red, green, blue)
  }

  /** `int(r, 16)`, `int(g, 16)`, `int(b, 16)` in that order; the first failure escapes. */
  function DecodeChannels(red: string, green: string, blue: string): (r: Result<Option<string>>)
    ensures r.Ok? ==> r.value.Some?
    ensures r.Ok? <==> ParseInt(red, 16).Some? && ParseInt(green, 16).Some? && ParseInt(blue, 16).Some?
    ensures r.Err? ==> r.error.InvalidLiteral? && r.error.base == 16
                       && r.error.text in {red, green, blue}
    ensures r.Err? ==> r.error.text == if ParseInt(red, 16).None? then red
                                      else if ParseInt(green, 16).None? then green
                                      else blue
  {
    match ParseInt(red, 16)
    case None => Err(InvalidLiteral(red, 16))
    case Some(x) =>
      match ParseInt(green, 16)
      case None => Err(InvalidLiteral(green, 16))
      case Some(y) =>
        match ParseInt(blue, 16)
        case None => Err(InvalidLiteral(blue, 16))
        case Some(z) => Ok(Some(TruecolourEscape(x, y, z)))
  }

  /** A well-formed `#RRGGBB` prefix yields the escape of its three decoded bytes. */
  lemma RgbToAnsiDecodes(c: string)
    requires HexTriplet(c)
    ensures RgbToAnsi(Some(c)) == Ok(Some(TruecolourEscape(HexByte(c, 1), HexByte(c, 3), HexByte(c, 5))))
  {
    var x, y, z := DecodedSlices(c);
    SliceBytes(c);
  }

  lemma DecodedSlices(c: string) returns (x: int, y: int, z: int)
    requires HexTriplet(c)
    ensures x == HexByte(c[1..3], 0) && y == HexByte(c[3..5], 0) && z == HexByte(c[5..7], 0)
    ensures RgbToAnsi(Some(c)) == Ok(Some(TruecolourEscape(x, y, z)))
  {
    var red, green, blue := c[1..3], c[3..5], c[5..7];
    assert red == [c[1], c[2]] && green == [c[3], c[4]] && blue == [c[5], c[6]];
    HexChannelsDecode(red, green, blue);
    RgbToAnsiChannels(c);
    x, y, z := HexByte(red, 0), HexByte(green, 0), HexByte(blue, 0);
  }

  lemma SliceBytes(c: string)
    requires HexTriplet(c)
    ensures HexByte(c[1..3], 0) == HexByte(c, 1)
    ensures HexByte(c[3..5], 0) == HexByte(c, 3)
    ensures HexByte(c[5..7], 0) == HexByte(c, 5)
  {
    assert c[1..3] == [c[1], c[2]] && c[3..5] == [c[3], c[4]] && c[5..7] == [c[5], c[6]];
  }

  /** Past the `#` and length tests, the result is the decoding of the three slices. */
  lemma RgbToAnsiChannels(c: string)
    requires |c| >= 7 && c[0] == '#'
    ensures RgbToAnsi(Some(c)) == DecodeChannels(c[1..3], c[3..5], c[5..7])
  {
    assert Slice(c, 1, 3) == c[1..3] && Slice(c, 3, 5) == c[3..5] && Slice(c, 5, 7) == c[5..7];
  }

  lemma HexChannelsDecode(red: string, green: string, blue: string)
    requires |red| == 2 && IsHexDigit(red[0]) && IsHexDigit(red[1])
    requires |green| == 2 && IsHexDigit(green[0]) && IsHexDigit(green[1])
    requires |blue| == 2 && IsHexDigit(blue[0]) && IsHexDigit(blue[1])
    ensures DecodeChannels(red, green, blue)
         == Ok(Some(TruecolourEscape(HexByte(red, 0), HexByte(green, 0), HexByte(blue, 0))))
  {
    var x := HexChannelValue(red);
    var y := HexChannelValue(green);
    var z := HexChannelValue(blue);
    DecodeParsedChannels(red, green, blue, x, y, z);
  }

  lemma HexChannelValue(s: string) returns (v: int)
    requires |s| == 2 && IsHexDigit(s[0]) && IsHexDigit(s[1])
    ensures ParseInt(s, 16) == Some(v) && v == HexByte(s, 0)
  {
    TwoHexDigits(s);
    v := HexByte(s, 0);
  }

  lemma DecodeParsedChannels(red: string, green: string, blue: string, x: int, y: int, z: int)
    requires ParseInt(red, 16) == Some(x)
    requires ParseInt(green, 16) == Some(y)
    requires ParseInt(blue, 16) == Some(z)
    ensures DecodeChannels(red, green, blue) == Ok(Some(TruecolourEscape(x, y, z)))
  {
  }

  /** Characters after the seventh play no part in the result. */
  lemma RgbToAnsiIgnoresTail(c: string, tail: string)
    requires |c| >= 7
    ensures RgbToAnsi(Some(c + tail)) == RgbToAnsi(Some(c))
  {
    var d := c + tail;
    assert d[0] == c[0];
    assert Slice(d, 1, 3) == Slice(c, 1, 3);
    assert Slice(d, 3, 5) == Slice(c, 3, 5);
    assert Slice(d, 5, 7) == Slice(c, 5, 7);
  }

  /** A channel whose first character is no digit, sign or space makes `int()` raise. */
  lemma NonHexChannelFails(s: string)
    requires |s| == 2 && !IsHexDigit(s[0]) && !IsSpace(s[0]) && s[0] != '+' && s[0] != '-'
    ensures ParseInt(s, 16).None?
  {
    var t := Strip(s);
    assert TrimLeft(s) == s;
    assert t != [] && t[0] == s[0];
    assert DigitPart(t, 16) == t;
    assert !ValidDigits(t, 16);
  }

  /** A `#RRGGBB` colour whose red channel starts with such a character raises. */
  lemma RgbToAnsiRejectsNonHex(c: string)
    requires |c| >= 7 && c[0] == '#'
    requires !IsHexDigit(c[1]) && !IsSpace(c[1]) && c[1] != '+' && c[1] != '-'
    ensures RgbToAnsi(Some(c)) == Err(InvalidLiteral(c[1..3], 16))
  {
    NonHexChannelFails(c[1..3]);
  }

  function HexChar(d: nat): (ch: char)
    requires d < 16
    ensures IsHexDigit(ch) && DigitValue(ch) == d
  {
    if d < 10 then ('0' as int + d) as char else ('a' as int + d - 10) as char
  }

  /** A byte as two lower-case hex digits. */
  function HexPair(n: nat): (s: string)
    requires n < 256
    ensures |s| == 2 && IsHexDigit(s[0]) && IsHexDigit(s[1])
    ensures 16 * DigitValue(s[0]) + DigitValue(s[1]) == n
  {
    [HexChar(n / 16), HexChar(n % 16)]
  }

  /** Writing three bytes as `#rrggbb` and converting gives the escape of those bytes. */
  lemma RgbRoundTrip(red: nat, green: nat, blue: nat)
    requires red < 256 && green < 256 && blue < 256
    ensures RgbToAnsi(Some("#" + HexPair(red) + HexPair(green) + HexPair(blue)))
            == Ok(Some(TruecolourEscape(red, green, blue)))
  {
    var c := HexColour(red, green, blue);
    RgbToAnsiDecodes(c);
  }

  lemma HexColour(red: nat, green: nat, blue: nat) returns (c: string)
    requires red < 256 && green < 256 && blue < 256
    ensures c == "#" + HexPair(red) + HexPair(green) + HexPair(blue)
    ensures HexTriplet(c) && HexByte(c, 1) == red && HexByte(c, 3) == green && HexByte(c, 5) == blue
  {
    c := "#" + HexPair(red) + HexPair(green) + HexPair(blue);
    assert c[1..3] == HexPair(red) && c[3..5] == HexPair(green) && c[5..7] == HexPair(blue);
  }
}
