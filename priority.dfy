/**
 * The priority mappers: the symbolic parse of the default formatter, the
 * integer parse of the porcelain formatter, and the two band classifiers.
 * Priorities are integers; 0 or absent means none, 1-4 high, 5 medium, 6-9 low.
 */
module Priority {
  import opened Wrappers
  import opened Text

  /** The band a priority falls in, or `None` outside 0-9 (the formatters then return nothing). */
  datatype Band = NoPriority | High | Medium | Low

  function BandOf(priority: Option<int>): (b: Option<Band>)
    ensures b.None? <==> priority.Some? && (priority.value < 0 || priority.value > 9)
  {
    match priority
    case None => Some(NoPriority)
    case Some(p) =>
      if p == 0 then Some(NoPriority)
      else if 1 <= p <= 4 then Some(High)
      else if p == 5 then Some(Medium)
      else if 6 <= p <= 9 then Some(Low)
      else None
  }

  const DEFAULT_PRIORITY_ERROR := "Priority has to be one of low, medium, high or none"
  const RANGE_ERROR := "Priority has to be in the range 0-9"

  /** The default `parse_priority`: absent or empty is no priority, the four names map to 9/5/4/0. */
  function ParsePriorityName(priority: Option<string>): (r: Result<Option<int>>)
    ensures priority.None? || priority.value == "" ==> r == Ok(None)
    ensures r.Ok? && r.value.Some? ==> r.value.value in {0, 4, 5, 9}
    ensures r.Err? <==> priority.Some? && priority.value !in {"", "low", "medium", "high", "none"}
    ensures r.Err? ==> r.error == ValueError(DEFAULT_PRIORITY_ERROR)
  {
    if priority.None? || priority.value == "" then Ok(None)
    else if priority.value == "low" then Ok(Some(9))
    else if priority.value == "medium" then Ok(Some(5))
    else if priority.value == "high" then Ok(Some(4))
    else if priority.value == "none" then Ok(Some(0))
    else Err(ValueError(DEFAULT_PRIORITY_ERROR))
  }

  /** `format_priority`: the band's name; `None` for integers outside 0-9. */
  function FormatPriority(priority: Option<int>): (r: Option<string>)
    ensures r.Some? <==> BandOf(priority).Some?
    ensures r == Some("none") <==> BandOf(priority) == Some(NoPriority)
    ensures r == Some("high") <==> BandOf(priority) == Some(High)
    ensures r == Some("medium") <==> BandOf(priority) == Some(Medium)
    ensures r == Some("low") <==> BandOf(priority) == Some(Low)
  {
    if priority.None? || priority.value == 0 then Some("none")
    else if 1 <= priority.value <= 4 then Some("high")
    else if priority.value == 5 then Some("medium")
    else if 6 <= priority.value <= 9 then Some("low")
    else None
  }

  /** `format_priority_compact`: `!!!`, `!!`, `!` or nothing, by band. */
  function FormatPriorityCompact(priority: Option<int>): (r: Option<string>)
    ensures r.Some? <==> BandOf(priority).Some?
    ensures r.Some? ==> forall i :: 0 <= i < |r.value| ==> r.value[i] == '!'
    ensures r.Some? ==> |r.value| == Glyphs(BandOf(priority).value)
  {
    if priority.None? || priority.value == 0 then Some("")
    else if 1 <= priority.value <= 4 then Some("!!!")
    else if priority.value == 5 then Some("!!")
    else if 6 <= priority.value <= 9 then Some("!")
    else None
  }

  /** The number of urgency glyphs of a band: more glyphs, more urgent. */
  function Glyphs(b: Band): nat {
    match b
    case NoPriority => 0
    case High => 3
    case Medium => 2
    case Low => 1
  }

  /** Each of the four names survives parsing and formatting back. */
  lemma NameRoundTrip(name: string)
    requires name in {"none", "high", "medium", "low"}
    ensures ParsePriorityName(Some(name)).Ok?
    ensures ParsePriorityName(Some(name)).value.Some?
    ensures FormatPriority(ParsePriorityName(Some(name)).value) == Some(name)
  {
  }

  /** Formatting any priority in 0-9 and parsing the name back stays in the same band. */
  lemma FormatThenParseKeepsBand(priority: Option<int>)
    requires BandOf(priority).Some?
    ensures FormatPriority(priority).Some?
    ensures ParsePriorityName(FormatPriority(priority)).Ok?
    ensures BandOf(ParsePriorityName(FormatPriority(priority)).value) == BandOf(priority)
  {
  }

  /** The glyph count never grows as the priority number grows from 1 to 9. */
  lemma CompactMonotone(p: int, q: int)
    requires 1 <= p <= q <= 9
    ensures |FormatPriorityCompact(Some(q)).value| <= |FormatPriorityCompact(Some(p)).value|
  {
  }

  /**
   * The porcelain `parse_priority`: absent is no priority; otherwise the text
   * must be an integer literal in 0-9, and every failure (including the
   * empty string) is a BadParameter wrapping the ValueError.
   */
  function ParsePriorityNumber(priority: Option<string>): (r: Result<Option<int>>)
    ensures priority.None? <==> r == Ok(None)
    ensures r.Ok? && r.value.Some? ==> 0 <= r.value.value <= 9
    ensures r.Ok? && r.value.Some? ==> ParseInt(priority.value, 10) == Some(r.value.value)
    ensures r.Err? ==> r.error.BadParameter?
    ensures priority.Some? && ParseInt(priority.value, 10).Some? && 0 <= ParseInt(priority.value, 10).value <= 9
            ==> r == Ok(ParseInt(priority.value, 10))
    ensures priority.Some? && ParseInt(priority.value, 10).Some? && !(0 <= ParseInt(priority.value, 10).value <= 9)
            ==> r == Err(BadParameter(ValueError(RANGE_ERROR)))
    ensures priority.Some? && ParseInt(priority.value, 10).None?
            ==> r == Err(BadParameter(InvalidLiteral(priority.value, 10)))
  {
    if priority.None? then Ok(None)
    else
      match ParseInt(priority.value, 10)
      case None => Err(BadParameter(InvalidLiteral(priority.value, 10)))
      case Some(n) =>
        if 0 <= n < 10 then Ok(Some(n)) else Err(BadParameter(ValueError(RANGE_ERROR)))
  }

  /** `str(n)` for every n in 0-9 is accepted and read back as n. */
  lemma NumberRoundTrip(n: int)
    requires 0 <= n <= 9
    ensures ParsePriorityNumber(Some(IntToString(n))) == Ok(Some(n))
  {
    ParseIntToString(n);
  }

  /** Like `int()`, the parser accepts a number in 0-9 after whitespace or a `+` sign. */
  lemma PaddedNumberAccepted(n: int)
    requires 0 <= n <= 9
    ensures ParsePriorityNumber(Some(" " + IntToString(n))) == Ok(Some(n))
    ensures ParsePriorityNumber(Some("+" + IntToString(n))) == Ok(Some(n))
  {
    var d := IntToString(n);
    assert d == Decimal(n);
    DecimalDigits(n);
    DecimalEnds(n);
    ParseIntPadded(d, 10);
    ParseIntPlus(d, 10);
    ParseIntUnsigned(d, 10);
  }

  /** Integers outside 0-9 are refused with the range message. */
  lemma NumberOutOfRange(n: int)
    requires n < 0 || n > 9
    ensures ParsePriorityNumber(Some(IntToString(n))) == Err(BadParameter(ValueError(RANGE_ERROR)))
  {
    ParseIntToString(n);
  }

  /** Unlike the default parse, the empty string is an error, not an absent priority. */
  lemma EmptyPriorityDiffers()
    ensures ParsePriorityName(Some("")) == Ok(None)
    ensures ParsePriorityNumber(Some("")) == Err(BadParameter(InvalidLiteral("", 10)))
  {
    ParseIntEmpty(10);
  }
}
