/**
 * The Python built-ins the formatters rely on, for ASCII text: `str()` of an
 * integer, `int(text, base)` with the surrounding whitespace it ignores,
 * `str.splitlines` and the `in` substring test.
 */
module Text {
  import opened Wrappers

  // ---------------------------------------------------------------- whitespace

  /** The ASCII characters Python treats as whitespace in `int()` and `strip()`. */
  predicate IsSpace(c: char) {
    c == ' ' || ('\t' <= c <= '\r') || ('\U{1C}' <= c <= '\U{1F}')
  }

  function TrimLeft(s: string): (r: string)
    ensures |r| <= |s| && r == s[|s| - |r|..]
    ensures r == [] || !IsSpace(r[0])
    ensures forall i :: 0 <= i < |s| - |r| ==> IsSpace(s[i])
  {
    if s != [] && IsSpace(s[0]) then TrimLeft(s[1..]) else s
  }

  function TrimRight(s: string): (r: string)
    ensures |r| <= |s| && r == s[..|r|]
    ensures r == [] || !IsSpace(r[|r| - 1])
    ensures forall i :: |r| <= i < |s| ==> IsSpace(s[i])
  {
    if s != [] && IsSpace(s[|s| - 1]) then TrimRight(s[..|s| - 1]) else s
  }

  /** The surrounding whitespace `int()` ignores: drop it at both ends. */
  function Strip(s: string): (r: string)
    ensures |r| <= |s|
    ensures r == [] || (!IsSpace(r[0]) && !IsSpace(r[|r| - 1]))
    ensures (forall i :: 0 <= i < |s| ==> IsSpace(s[i])) ==> r == []
  {
    TrimRight(TrimLeft(s))
  }

  predicate NoSpace(s: string) {
    forall i :: 0 <= i < |s| ==> !IsSpace(s[i])
  }

  lemma StripNoSpace(s: string)
    requires NoSpace(s)
    ensures Strip(s) == s
  {
    assert TrimLeft(s) == s by {
      if s != [] { assert !IsSpace(s[0]); }
    }
    if s != [] { assert !IsSpace(s[|s| - 1]); }
  }

  // ---------------------------------------------------------------- digits

  type Base = b: nat | b == 10 || b == 16 witness 10

  predicate IsHexDigit(c: char) {
    ('0' <= c <= '9') || ('a' <= c <= 'f') || ('A' <= c <= 'F')
  }

  function DigitValue(c: char): (v: nat)
    requires IsHexDigit(c)
    ensures v < 16
    ensures ('0' <= c <= '9') <==> v < 10
  {
    if '0' <= c <= '9' then c as int - '0' as int
    else if 'a' <= c <= 'f' then c as int - 'a' as int + 10
    else c as int - 'A' as int + 10
  }

  predicate IsDigitIn(c: char, base: Base) {
    IsHexDigit(c) && DigitValue(c) < base
  }

  /** Every character is a digit of `base` or an underscore. */
  predicate DigitsOrUnderscores(b: string, base: Base) {
    forall i :: 0 <= i < |b| ==> b[i] == '_' || IsDigitIn(b[i], base)
  }

  /**
   * The digit part `int()` accepts: digits of the base, with single
   * underscores allowed between two digits only.
   */
  predicate ValidDigits(b: string, base: Base) {
    && |b| > 0
    && b[0] != '_'
    && b[|b| - 1] != '_'
    && DigitsOrUnderscores(b, base)
    && (forall i :: 0 <= i < |b| - 1 ==> !(b[i] == '_' && b[i + 1] == '_'))
  }

  /** The value of a digit string read most-significant first, underscores skipped. */
  function DigitsValue(b: string, base: Base): nat
    requires DigitsOrUnderscores(b, base)
  {
    if b == [] then 0
    else
      var last := b[|b| - 1];
      if last == '_' then DigitsValue(b[..|b| - 1], base)
      else DigitsValue(b[..|b| - 1], base) * base + DigitValue(last)
  }

  /** The part of a stripped, unsigned literal left once a `0x` prefix (base 16) is removed. */
  function DigitPart(u: string, base: Base): string {
    if base == 16 && |u| >= 2 && u[0] == '0' && (u[1] == 'x' || u[1] == 'X') then
      if |u| >= 3 && u[2] == '_' then u[3..] else u[2..]
    else u
  }

  /**
   * `int(s, base)` on a string: surrounding whitespace, an optional sign,
   * an optional `0x`/`0X` prefix in base 16 (optionally followed by one
   * underscore), then digits with single underscores between them.
   * `None` stands for the ValueError Python raises.
   */
  function ParseInt(s: string, base: Base): Option<int> {
    var t := Strip(s);
    var negative := |t| > 0 && t[0] == '-';
    var unsigned := if |t| > 0 && (t[0] == '-' || t[0] == '+') then t[1..] else t;
    ParseDigits(DigitPart(unsigned, base), base, negative)
  }

  function ParseDigits(digits: string, base: Base, negative: bool): (r: Option<int>)
    ensures r.Some? <==> ValidDigits(digits, base)
  {
    if ValidDigits(digits, base) then
      var v: int := DigitsValue(digits, base);
      Some(if negative then -v else v)
    else None
  }

  /** `int('')` raises: an empty string is no literal. */
  lemma ParseIntEmpty(base: Base)
    ensures ParseInt("", base).None?
  {
    ParseIntShape("", base);
  }

  /**
   * `int()` needs at least one digit after the sign, and yields a negative
   * number only for a literal that starts with `-`.
   */
  lemma ParseIntShape(s: string, base: Base)
    ensures Strip(s) == [] ==> ParseInt(s, base).None?
    ensures ParseInt(s, base).Some? && ParseInt(s, base).value < 0 ==> Strip(s)[0] == '-'
  {
    var t := Strip(s);
    var unsigned := if |t| > 0 && (t[0] == '-' || t[0] == '+') then t[1..] else t;
    assert t == [] ==> DigitPart(unsigned, base) == [];
  }

  /** A two-character string of hex digits is read as a base-16 number. */
  lemma TwoHexDigits(s: string)
    requires |s| == 2 && IsHexDigit(s[0]) && IsHexDigit(s[1])
    ensures ParseInt(s, 16) == Some(16 * DigitValue(s[0]) + DigitValue(s[1]))
  {
    var hi, lo := DigitValue(s[0]), DigitValue(s[1]);
    assert NoSpace(s);
    StripNoSpace(s);
    assert s[0] != '-' && s[0] != '+';
    assert s[1] != 'x' && s[1] != 'X';
    assert DigitPart(s, 16) == s;
    assert ValidDigits(s, 16);
    assert DigitsValue([s[0]], 16) == hi by {
      assert [s[0]][..0] == [];
    }
    assert s[..1] == [s[0]];
    assert DigitsValue(s, 16) == 16 * hi + lo;
  }

  // ---------------------------------------------------------------- str(int)

  function DigitChar(d: nat): (c: char)
    requires d < 10
    ensures '0' <= c <= '9' && IsHexDigit(c) && DigitValue(c) == d
  {
    ('0' as int + d) as char
  }

  /** `str(n)` for a natural number: its decimal digits, most significant first. */
  function Decimal(n: nat): (s: string)
    ensures |s| > 0
    ensures forall i :: 0 <= i < |s| ==> '0' <= s[i] <= '9'
  {
    if n < 10 then [DigitChar(n)] else Decimal(n / 10) + [DigitChar(n % 10)]
  }

  /** `str(i)` for any integer. */
  function IntToString(i: int): (s: string)
    ensures |s| > 0
  {
    if i < 0 then "-" + Decimal(-i) else Decimal(i)
  }

  lemma {:induction false} DecimalDigitsValue(n: nat)
    ensures DigitsOrUnderscores(Decimal(n), 10)
    ensures DigitsValue(Decimal(n), 10) == n
  {
    var s := Decimal(n);
    if n >= 10 {
      DecimalDigitsValue(n / 10);
      assert s[..|s| - 1] == Decimal(n / 10);
    }
  }

  /** `int(str(i)) == i`: decimal rendering and parsing are inverse. */
  lemma ParseIntToString(i: int)
    ensures ParseInt(IntToString(i), 10) == Some(i)
  {
    if i < 0 {
      ParseNegativeDecimal(-i);
    } else {
      ParseDecimal(i);
    }
  }

  /** The digits of `str(n)` are a valid base-10 digit part worth `n`. */
  lemma DecimalDigits(n: nat)
    ensures ValidDigits(Decimal(n), 10) && DigitPart(Decimal(n), 10) == Decimal(n)
    ensures ParseDigits(Decimal(n), 10, false) == Some(n)
    ensures ParseDigits(Decimal(n), 10, true) == Some(-(n as int))
  {
    DecimalDigitsValue(n);
  }

  /** `str(n)` starts and ends with a digit: no whitespace, no sign. */
  lemma DecimalEnds(n: nat)
    ensures var d := Decimal(n); !IsSpace(d[0]) && !IsSpace(d[|d| - 1]) && d[0] != '-' && d[0] != '+'
  {
    var d := Decimal(n);
    assert '0' <= d[0] <= '9' && '0' <= d[|d| - 1] <= '9';
  }

  lemma ParseDecimal(n: nat)
    ensures ParseInt(IntToString(n), 10) == Some(n)
  {
    assert IntToString(n) == Decimal(n);
    DecimalDigits(n);
    DecimalEnds(n);
    ParseIntUnsigned(Decimal(n), 10);
  }

  lemma ParseNegativeDecimal(n: nat)
    requires n > 0
    ensures ParseInt(IntToString(-(n as int)), 10) == Some(-(n as int))
  {
    assert IntToString(-(n as int)) == "-" + Decimal(n);
    DecimalDigits(n);
    DecimalEnds(n);
    ParseIntMinus(Decimal(n), 10);
  }

  /** Text that neither starts nor ends with whitespace is left as it is. */
  lemma StripKeeps(s: string)
    requires s != [] && !IsSpace(s[0]) && !IsSpace(s[|s| - 1])
    ensures Strip(s) == s
  {
    assert TrimLeft(s) == s;
  }

  /** Without surrounding whitespace or sign, `int()` reads the digit part as it stands. */
  lemma ParseIntUnsigned(d: string, base: Base)
    requires d != [] && !IsSpace(d[0]) && !IsSpace(d[|d| - 1]) && d[0] != '-' && d[0] != '+'
    ensures ParseInt(d, base) == ParseDigits(DigitPart(d, base), base, false)
  {
    StripKeeps(d);
  }

  /** A space before a literal without surrounding whitespace or sign is ignored. */
  lemma ParseIntPadded(d: string, base: Base)
    requires d != [] && !IsSpace(d[0]) && !IsSpace(d[|d| - 1]) && d[0] != '-' && d[0] != '+'
    ensures ParseInt(" " + d, base) == ParseDigits(DigitPart(d, base), base, false)
  {
    var s := " " + d;
    assert s[1..] == d;
    assert TrimLeft(d) == d;
    assert TrimLeft(s) == d;
    StripKeeps(d);
  }

  /** A `+` before a literal without surrounding whitespace or sign changes nothing. */
  lemma ParseIntPlus(d: string, base: Base)
    requires d != [] && !IsSpace(d[0]) && !IsSpace(d[|d| - 1]) && d[0] != '-' && d[0] != '+'
    ensures ParseInt("+" + d, base) == ParseInt(d, base)
  {
    var s := "+" + d;
    assert s[0] == '+' && s[|s| - 1] == d[|d| - 1];
    StripKeeps(s);
    assert s[1..] == d;
    ParseIntUnsigned(d, base);
  }

  /** A leading `-` before a literal without trailing whitespace negates its digit part. */
  lemma ParseIntMinus(d: string, base: Base)
    requires d != [] && !IsSpace(d[|d| - 1])
    ensures ParseInt("-" + d, base) == ParseDigits(DigitPart(d, base), base, true)
  {
    var s := "-" + d;
    assert s[0] == '-' && s[|s| - 1] == d[|d| - 1];
    StripKeeps(s);
    assert s[1..] == d;
  }

  // ---------------------------------------------------------------- splitlines

  /** The line boundaries of `str.splitlines` (`\r\n` counts as one). */
  predicate IsLineBreak(c: char) {
    c == '\n' || c == '\r' || c == '\U{0B}' || c == '\U{0C}' || c == '\U{1C}' || c == '\U{1D}'
    || c == '\U{1E}' || c == '\U{85}' || c == '\U{2028}' || c == '\U{2029}'
  }

  predicate NoLineBreak(s: string) {
    forall i :: 0 <= i < |s| ==> !IsLineBreak(s[i])
  }

  /** The index of the first line boundary, or `|s|` when there is none. */
  function LineEnd(s: string): (i: nat)
    ensures i <= |s|
    ensures i < |s| ==> IsLineBreak(s[i])
    ensures NoLineBreak(s[..i])
  {
    if s == [] || IsLineBreak(s[0]) then 0 else 1 + LineEnd(s[1..])
  }

  /** `str.splitlines()`: the lines of `s`, without their terminators, and no trailing empty line. */
  function SplitLines(s: string): (lines: seq<string>)
    ensures (lines == []) <==> (s == [])
    ensures forall k :: 0 <= k < |lines| ==> NoLineBreak(lines[k])
    decreases |s|
  {
    if s == [] then []
    else
      var i := LineEnd(s);
      if i == |s| then [s]
      else
        var next := if s[i] == '\r' && i + 1 < |s| && s[i + 1] == '\n' then i + 2 else i + 1;
        [s[..i]] + SplitLines(s[next..])
  }

  /** Lines, each followed by `\n`. */
  function Terminated(lines: seq<string>): string {
    if lines == [] then "" else lines[0] + "\n" + Terminated(lines[1..])
  }

  lemma LineEndOfLine(line: string, rest: string)
    requires NoLineBreak(line)
    ensures LineEnd(line + "\n" + rest) == |line|
    decreases |line|
  {
    if line != [] {
      assert (line + "\n" + rest)[1..] == line[1..] + "\n" + rest;
      LineEndOfLine(line[1..], rest);
    }
  }

  /** splitlines recovers the lines of a newline-terminated text. */
  lemma {:induction false} SplitTerminated(lines: seq<string>)
    requires forall k :: 0 <= k < |lines| ==> NoLineBreak(lines[k])
    ensures SplitLines(Terminated(lines)) == lines
  {
    if lines != [] {
      SplitAtNewline(lines[0], Terminated(lines[1..]));
      SplitTerminated(lines[1..]);
    }
  }

  /** A break-free line followed by `\n` is split off as the first line. */
  lemma SplitAtNewline(line: string, rest: string)
    requires NoLineBreak(line)
    ensures SplitLines(line + "\n" + rest) == [line] + SplitLines(rest)
  {
    var s := line + "\n" + rest;
    LineEndOfLine(line, rest);
    var i := |line|;
    assert s[i] == '\n';
    assert s[..i] == line;
    assert s[i + 1..] == rest;
  }

  /** Lines joined by `\n`, the last one without a terminator. */
  function JoinLines(lines: seq<string>): string {
    if lines == [] then ""
    else if |lines| == 1 then lines[0]
    else lines[0] + "\n" + JoinLines(lines[1..])
  }

  lemma LineEndWhole(s: string)
    requires NoLineBreak(s)
    ensures LineEnd(s) == |s|
    decreases |s|
  {
    if s != [] {
      LineEndWhole(s[1..]);
    }
  }

  /** Non-empty text without a line break is one line. */
  lemma SplitSingle(line: string)
    requires line != [] && NoLineBreak(line)
    ensures SplitLines(line) == [line]
  {
    LineEndWhole(line);
  }

  /** splitlines recovers the lines of a text whose last line has no terminator (and is not empty). */
  lemma {:induction false} SplitJoined(lines: seq<string>)
    requires lines != [] && lines[|lines| - 1] != ""
    requires forall k :: 0 <= k < |lines| ==> NoLineBreak(lines[k])
    ensures SplitLines(JoinLines(lines)) == lines
  {
    if |lines| == 1 {
      assert JoinLines(lines) == lines[0];
      SplitSingle(lines[0]);
    } else {
      var tail := lines[1..];
      assert tail[|tail| - 1] == lines[|lines| - 1];
      assert forall k :: 0 <= k < |tail| ==> tail[k] == lines[k + 1];
      SplitJoined(tail);
      SplitJoinedStep(lines);
    }
  }

  /** The first line and its newline, in front of a text splitlines already recovers. */
  lemma SplitJoinedStep(lines: seq<string>)
    requires |lines| > 1 && NoLineBreak(lines[0])
    requires SplitLines(JoinLines(lines[1..])) == lines[1..]
    ensures SplitLines(JoinLines(lines)) == lines
  {
    assert JoinLines(lines) == lines[0] + "\n" + JoinLines(lines[1..]);
    SplitAtNewline(lines[0], JoinLines(lines[1..]));
    assert lines == [lines[0]] + lines[1..];
  }

  // ---------------------------------------------------------------- substrings

  /** Python's `p in s` for strings. */
  predicate Contains(s: string, p: string)
    decreases |s|
  {
    p <= s || (s != [] && Contains(s[1..], p))
  }

  lemma {:induction false} ContainsLength(s: string, p: string)
    requires Contains(s, p)
    ensures |p| <= |s|
    decreases |s|
  {
    if !(p <= s) {
      ContainsLength(s[1..], p);
    }
  }

  lemma {:induction false} ContainsSuffix(a: string, p: string)
    ensures Contains(a + p, p)
    decreases |a|
  {
    if a != [] {
      assert (a + p)[1..] == a[1..] + p;
      ContainsSuffix(a[1..], p);
    }
  }
}
