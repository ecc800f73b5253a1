/**
 * Formatting and parsing of dates and date-times for the three formatter
 * variants. The `strftime`/`strptime` format language, the natural-language
 * parser and the relative-time phrasing are library code and enter as the
 * functions of a `DateLibrary`.
 */
module Dates {
  import opened Wrappers
  import opened Text
  import opened Moments
  import opened Config

  /** What the natural-language parser returns: a local date-time and whether it found a date or a time. */
  datatype Fuzzy = Fuzzy(value: NaiveDateTime, hasDateOrTime: bool)

  datatype DateLibrary = DateLibrary(
    strftime: (Moment, string) -> string,               // value.strftime(pattern)
    strptime: (string, string) -> Option<NaiveDateTime>, // datetime.strptime(text, pattern), None on ValueError
    fuzzy: (string, NaiveDateTime) -> Fuzzy,             // parsedatetime, anchored at a wall-clock reading
    naturaltime: int -> string)                          // humanize.naturaltime(timedelta(seconds=...))

  /** The default `format_datetime`: empty when absent, else the pattern for the value's kind. */
  function FormatDatetime(f: Formatter, lib: DateLibrary, dt: Option<Moment>): (r: string)
    ensures dt.None? ==> r == ""
    ensures dt.Some? && dt.value.At? ==> r == lib.strftime(dt.value, f.datetimeFormat)
    ensures dt.Some? && dt.value.OnDate? ==> r == lib.strftime(dt.value, f.dateFormat)
  {
    match dt
    case None => ""
    case Some(At(_)) => lib.strftime(dt.value, f.datetimeFormat)
    case Some(OnDate(_)) => lib.strftime(dt.value, f.dateFormat)
  }

  // ------------------------------------------------------------ parse cascade

  /** A parse result before the zone is attached: a date, or a naive date-time. */
  datatype NaiveMoment = NaiveDay(date: Date) | NaiveAt(local: NaiveDateTime)

  /** One strict interpretation of the text: a result, or no match. */
  type Strategy = string -> Option<NaiveMoment>

  /**
   * The strict interpretations in the order they are tried: the date-time
   * pattern, the date pattern (its date part), the time pattern (its time
   * of day on `now`'s date).
   */
  function Strategies(f: Formatter, lib: DateLibrary): (s: seq<Strategy>)
    ensures |s| == 3
  {
    [ (text: string) => match lib.strptime(text, f.datetimeFormat)
                        case Some(v) => Some(NaiveAt(v))
                        case None => None,
      (text: string) => match lib.strptime(text, f.dateFormat)
                        case Some(v) => Some(NaiveDay(v.date))
                        case None => None,
      (text: string) => match lib.strptime(text, f.timeFormat)
                        case Some(v) => Some(NaiveAt(NaiveDateTime(f.now.local.date, v.second)))
                        case None => None ]
  }

  /** The result of the first strategy that matches. */
  function FirstMatch(strategies: seq<Strategy>, text: string): Option<NaiveMoment> {
    if strategies == [] then None
    else
      match strategies[0](text)
      case Some(v) => Some(v)
      case None => FirstMatch(strategies[1..], text)
  }

  /** A matching strategy wins when every earlier one fails, and later ones are never consulted. */
  lemma {:induction false} FirstMatchWins(strategies: seq<Strategy>, text: string, k: nat)
    requires k < |strategies| && strategies[k](text).Some?
    requires forall j :: 0 <= j < k ==> strategies[j](text).None?
    ensures FirstMatch(strategies, text) == strategies[k](text)
  {
    if k > 0 {
      assert strategies[0](text).None?;
      FirstMatchWins(strategies[1..], text, k - 1);
    }
  }

  /** No strategy matches exactly when each fails. */
  lemma {:induction false} FirstMatchNone(strategies: seq<Strategy>, text: string)
    ensures FirstMatch(strategies, text).None? <==> forall j :: 0 <= j < |strategies| ==> strategies[j](text).None?
  {
    if strategies != [] {
      FirstMatchNone(strategies[1..], text);
      assert forall j :: 1 <= j < |strategies| ==> strategies[j] == strategies[1..][j - 1];
    }
  }

  const NOT_RECOGNIZED := "Time description not recognized: "

  /**
   * `_parse_datetime_naive`: the three strict patterns in order, then the
   * natural-language parser, which fails when it found neither a date nor
   * a time. `wallClock` is the clock reading the library parser anchors to.
   */
  function ParseDatetimeNaive(f: Formatter, lib: DateLibrary, text: string, wallClock: NaiveDateTime): (r: Result<NaiveMoment>)
    ensures r.Err? <==> && lib.strptime(text, f.datetimeFormat).None? && lib.strptime(text, f.dateFormat).None?
                        && lib.strptime(text, f.timeFormat).None? && !lib.fuzzy(text, wallClock).hasDateOrTime
    ensures r.Err? ==> r.error == ValueError(NOT_RECOGNIZED + text)
    ensures r.Ok? && r.value.NaiveDay? ==>
      lib.strptime(text, f.datetimeFormat).None? && lib.strptime(text, f.dateFormat).Some?
      && lib.strptime(text, f.dateFormat).value.date == r.value.date
  {
    match lib.strptime(text, f.datetimeFormat)
    case Some(v) => Ok(NaiveAt(v))
    case None =>
      match lib.strptime(text, f.dateFormat)
      case Some(v) => Ok(NaiveDay(v.date))
      case None =>
        match lib.strptime(text, f.timeFormat)
        case Some(v) => Ok(NaiveAt(NaiveDateTime(f.now.local.date, v.second)))
        case None =>
          var fz := lib.fuzzy(text, wallClock);
          if !fz.hasDateOrTime then Err(ValueError(NOT_RECOGNIZED + text)) else Ok(NaiveAt(fz.value))
  }

  /** The cascade is "first matching strategy, else the natural-language parser". */
  lemma CascadeIsFirstMatch(f: Formatter, lib: DateLibrary, text: string, wallClock: NaiveDateTime)
    ensures ParseDatetimeNaive(f, lib, text, wallClock)
         == match FirstMatch(Strategies(f, lib), text)
            case Some(v) => Ok(v)
            case None =>
              var fz := lib.fuzzy(text, wallClock);
              if !fz.hasDateOrTime then Err(ValueError(NOT_RECOGNIZED + text)) else Ok(NaiveAt(fz.value))
  {
    var s := Strategies(f, lib);
    if s[0](text).Some? {
      FirstMatchWins(s, text, 0);
    } else if s[1](text).Some? {
      FirstMatchWins(s, text, 1);
    } else if s[2](text).Some? {
      FirstMatchWins(s, text, 2);
    } else {
      FirstMatchNone(s, text);
    }
  }

  /**
   * The default `parse_datetime`: absent or empty text is no value; a
   * date-time result gets the formatter's zone, a date result is kept.
   */
  function ParseDatetime(f: Formatter, lib: DateLibrary, text: Option<string>, wallClock: NaiveDateTime): (r: Result<Option<Moment>>)
    ensures text.None? || text.value == "" ==> r == Ok(None)
    ensures r.Ok? && r.value.Some? && r.value.value.At? ==> r.value.value.dateTime.offset == f.tz
    ensures r.Err? ==> r.error == ValueError(NOT_RECOGNIZED + text.value)
  {
    if text.None? || text.value == "" then Ok(None)
    else
      match ParseDatetimeNaive(f, lib, text.value, wallClock)
      case Err(e) => Err(e)
      case Ok(NaiveAt(v)) => Ok(Some(At(DateTime(v, f.tz))))
      case Ok(NaiveDay(d)) => Ok(Some(OnDate(d)))
  }

  /** Text the date-time pattern reads is that date-time, in the formatter's zone. */
  lemma ParseDatetimeFirst(f: Formatter, lib: DateLibrary, text: string, wallClock: NaiveDateTime)
    requires text != "" && lib.strptime(text, f.datetimeFormat).Some?
    ensures ParseDatetime(f, lib, Some(text), wallClock)
         == Ok(Some(At(DateTime(lib.strptime(text, f.datetimeFormat).value, f.tz))))
  {
  }

  /** Text only the date pattern reads is that date, with no zone. */
  lemma ParseDatetimeSecond(f: Formatter, lib: DateLibrary, text: string, wallClock: NaiveDateTime)
    requires text != "" && lib.strptime(text, f.datetimeFormat).None?
    requires lib.strptime(text, f.dateFormat).Some?
    ensures ParseDatetime(f, lib, Some(text), wallClock)
         == Ok(Some(OnDate(lib.strptime(text, f.dateFormat).value.date)))
  {
  }

  /** Text only the time pattern reads is that time of day on `now`'s date, in the formatter's zone. */
  lemma ParseDatetimeThird(f: Formatter, lib: DateLibrary, text: string, wallClock: NaiveDateTime)
    requires text != "" && lib.strptime(text, f.datetimeFormat).None?
    requires lib.strptime(text, f.dateFormat).None?
    requires lib.strptime(text, f.timeFormat).Some?
    ensures ParseDatetime(f, lib, Some(text), wallClock)
         == Ok(Some(At(DateTime(NaiveDateTime(f.now.local.date, lib.strptime(text, f.timeFormat).value.second), f.tz))))
  {
  }

  /** Text no pattern reads goes to the natural-language parser, which may reject it. */
  lemma ParseDatetimeFuzzy(f: Formatter, lib: DateLibrary, text: string, wallClock: NaiveDateTime)
    requires text != "" && lib.strptime(text, f.datetimeFormat).None?
    requires lib.strptime(text, f.dateFormat).None?
    requires lib.strptime(text, f.timeFormat).None?
    ensures lib.fuzzy(text, wallClock).hasDateOrTime ==>
      ParseDatetime(f, lib, Some(text), wallClock) == Ok(Some(At(DateTime(lib.fuzzy(text, wallClock).value, f.tz))))
    ensures !lib.fuzzy(text, wallClock).hasDateOrTime ==>
      ParseDatetime(f, lib, Some(text), wallClock) == Err(ValueError(NOT_RECOGNIZED + text))
  {
  }

  /**
   * Formatting a date and parsing it back gives the date, provided the date
   * pattern reads its own output and the date-time pattern does not.
   */
  lemma DateRoundTrip(f: Formatter, lib: DateLibrary, d: Date, wallClock: NaiveDateTime)
    requires lib.strftime(OnDate(d), f.dateFormat) != ""
    requires lib.strptime(lib.strftime(OnDate(d), f.dateFormat), f.datetimeFormat).None?
    requires lib.strptime(lib.strftime(OnDate(d), f.dateFormat), f.dateFormat).Some?
    requires lib.strptime(lib.strftime(OnDate(d), f.dateFormat), f.dateFormat).value.date == d
    ensures ParseDatetime(f, lib, Some(FormatDatetime(f, lib, Some(OnDate(d)))), wallClock) == Ok(Some(OnDate(d)))
  {
  }

  /**
   * Formatting a date-time and parsing it back gives the same wall-clock
   * reading in the formatter's zone: the same value when it was in that zone.
   */
  lemma DateTimeRoundTrip(f: Formatter, lib: DateLibrary, x: DateTime, wallClock: NaiveDateTime)
    requires lib.strftime(At(x), f.datetimeFormat) != ""
    requires lib.strptime(lib.strftime(At(x), f.datetimeFormat), f.datetimeFormat) == Some(x.local)
    ensures ParseDatetime(f, lib, Some(FormatDatetime(f, lib, Some(At(x)))), wallClock)
         == Ok(Some(At(DateTime(x.local, f.tz))))
    ensures x.offset == f.tz ==>
      ParseDatetime(f, lib, Some(FormatDatetime(f, lib, Some(At(x)))), wallClock) == Ok(Some(At(x)))
  {
  }

  // ------------------------------------------------------------ humanized

  const FROM_NOW := " from now"

  /** A phrase for a future time, `X from now`, is rewritten `in X`: the last nine characters go. */
  function RewriteFromNow(rv: string): (r: string)
    ensures !Contains(rv, FROM_NOW) ==> r == rv
    ensures Contains(rv, FROM_NOW) ==> |rv| >= 9 && r == "in " + rv[..|rv| - 9]
  {
    if Contains(rv, FROM_NOW) then
      ContainsLength(rv, FROM_NOW);
      "in " + rv[..|rv| - 9]
    else rv
  }

  lemma FutureRewritten(phrase: string)
    ensures RewriteFromNow(phrase + FROM_NOW) == "in " + phrase
  {
    ContainsSuffix(phrase, FROM_NOW);
    assert (phrase + FROM_NOW)[..|phrase|] == phrase;
  }

  const DATE_OPERAND_ERROR := "unsupported operand type(s) for -: 'datetime.datetime' and 'datetime.date'"

  /**
   * `HumanizedFormatter.format_datetime` as written: `self.now - dt`. For a
   * pure date this subtraction of a date from a date-time raises.
   */
  function HumanizedFormatDatetimeAsWritten(f: Formatter, lib: DateLibrary, dt: Option<Moment>): (r: Result<string>)
    ensures dt.None? ==> r == Ok("")
    ensures r.Err? <==> dt.Some? && dt.value.OnDate?
    ensures dt.Some? && dt.value.At? ==> r == Ok(RewriteFromNow(lib.naturaltime(Instant(f.now) - Instant(dt.value.dateTime))))
  {
    match dt
    case None => Ok("")
    case Some(OnDate(_)) => Err(TypeError(DATE_OPERAND_ERROR))
    case Some(At(x)) => Ok(RewriteFromNow(lib.naturaltime(Instant(f.now) - Instant(x))))
  }

  /** Every date due makes the as-written humanized formatter raise. */
  lemma HumanizedRaisesOnDates(f: Formatter, lib: DateLibrary, d: Date)
    ensures HumanizedFormatDatetimeAsWritten(f, lib, Some(OnDate(d))) == Err(TypeError(DATE_OPERAND_ERROR))
  {
  }

  /**
   * The humanized `format_datetime` as intended: a date-time is phrased from
   * its distance to `now`; a date from its distance in days to `now`'s date.
   */
  function HumanizedFormatDatetime(f: Formatter, lib: DateLibrary, dt: Option<Moment>): (r: string)
    ensures dt.None? ==> r == ""
    ensures HumanizedFormatDatetimeAsWritten(f, lib, dt).Ok? ==> r == HumanizedFormatDatetimeAsWritten(f, lib, dt).value
    ensures dt.Some? && dt.value.OnDate? ==>
      r == RewriteFromNow(lib.naturaltime((f.now.local.date.ordinal - dt.value.date.ordinal) * SECONDS_PER_DAY))
  {
    match dt
    case None => ""
    case Some(OnDate(d)) => RewriteFromNow(lib.naturaltime((f.now.local.date.ordinal - d.ordinal) * SECONDS_PER_DAY))
    case Some(At(x)) => RewriteFromNow(lib.naturaltime(Instant(f.now) - Instant(x)))
  }

  /** A due in the future reads `in X` when the library phrases it `X from now`. */
  lemma HumanizedFuture(f: Formatter, lib: DateLibrary, x: DateTime, phrase: string)
    requires lib.naturaltime(Instant(f.now) - Instant(x)) == phrase + FROM_NOW
    ensures HumanizedFormatDatetime(f, lib, Some(At(x))) == "in " + phrase
  {
    assert HumanizedFormatDatetime(f, lib, Some(At(x))) == RewriteFromNow(phrase + FROM_NOW);
    FutureRewritten(phrase);
  }

  /** A phrase without `' from now'` (a past or present one) is shown as the library wrote it. */
  lemma HumanizedPast(f: Formatter, lib: DateLibrary, x: DateTime, phrase: string)
    requires lib.naturaltime(Instant(f.now) - Instant(x)) == phrase && !Contains(phrase, FROM_NOW)
    ensures HumanizedFormatDatetimeAsWritten(f, lib, Some(At(x))) == Ok(phrase)
    ensures HumanizedFormatDatetime(f, lib, Some(At(x))) == phrase
  {
  }

  /** A date due reads `in X` when the library phrases its distance in days as `X from now`. */
  lemma HumanizedFutureDate(f: Formatter, lib: DateLibrary, d: Date, phrase: string)
    requires lib.naturaltime((f.now.local.date.ordinal - d.ordinal) * SECONDS_PER_DAY) == phrase + FROM_NOW
    ensures HumanizedFormatDatetime(f, lib, Some(OnDate(d))) == "in " + phrase
  {
    assert HumanizedFormatDatetime(f, lib, Some(OnDate(d))) == RewriteFromNow(phrase + FROM_NOW);
    FutureRewritten(phrase);
  }

  // ------------------------------------------------------------ porcelain

  /** The porcelain `format_datetime`: epoch seconds, a date read as local midnight. */
  function PorcelainFormatDatetime(f: Formatter, dt: Option<Moment>): (r: Option<int>)
    ensures dt.None? <==> r.None?
    ensures dt.Some? && dt.value.At? ==> r == Some(Instant(dt.value.dateTime))
    ensures dt.Some? && dt.value.OnDate? ==> r == Some(Instant(DateTime(NaiveDateTime(dt.value.date, 0), f.localOffset)))
  {
    match dt
    case None => None
    case Some(OnDate(d)) => Some(MidnightTimestamp(d, f.localOffset))
    case Some(At(x)) => Some(Instant(x))
  }

  /** The porcelain `parse_datetime`: a falsy value (absent or 0) is no value, else a UTC date-time. */
  function PorcelainParseDatetime(value: Option<int>): (r: Option<DateTime>)
    ensures r.None? <==> value.None? || value.value == 0
    ensures r.Some? ==> Instant(r.value) == value.value && r.value.offset == 0
  {
    if value.None? || value.value == 0 then None else Some(FromTimestampUtc(value.value))
  }

  /**
   * Porcelain output read back by porcelain input denotes the same instant,
   * in UTC, except for the epoch itself, whose timestamp 0 reads as absent.
   */
  lemma PorcelainRoundTrip(f: Formatter, x: DateTime)
    ensures Instant(x) != 0 ==>
      && PorcelainParseDatetime(PorcelainFormatDatetime(f, Some(At(x)))).Some?
      && Instant(PorcelainParseDatetime(PorcelainFormatDatetime(f, Some(At(x)))).value) == Instant(x)
    ensures Instant(x) == 0 ==> PorcelainParseDatetime(PorcelainFormatDatetime(f, Some(At(x)))).None?
  {
  }
}
