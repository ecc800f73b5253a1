/**
 * The formatter's configuration, fixed at construction: the format
 * patterns, the time zone and the `now` captured once and never re-read.
 */
module Config {
  import opened Wrappers
  import opened Moments

  /** The three formatter variants. */
  datatype Mode = Default | Humanized | Porcelain

  datatype Formatter = Formatter(
    mode: Mode,
    dateFormat: string,
    timeFormat: string,
    dtSeparator: string,
    datetimeFormat: string,
    tz: UtcOffset,
    now: DateTime,
    localOffset: UtcOffset)   // the system zone, used by naive `timestamp()`

  const DEFAULT_DATE_FORMAT := "%Y-%m-%d"
  const DEFAULT_TIME_FORMAT := "%H:%M"
  const DEFAULT_DT_SEPARATOR := " "

  /** `filter(bool, parts)`: the non-empty parts, in order. */
  function NonEmpty(parts: seq<string>): (r: seq<string>)
    ensures |r| <= |parts|
    ensures forall k :: 0 <= k < |r| ==> r[k] != "" && r[k] in parts
    ensures forall p :: p in parts && p != "" ==> p in r
    ensures (forall k :: 0 <= k < |parts| ==> parts[k] != "") ==> r == parts
  {
    if parts == [] then []
    else if parts[0] == "" then NonEmpty(parts[1..])
    else
      assert forall p :: p in parts && p != parts[0] ==> p in parts[1..];
      [parts[0]] + NonEmpty(parts[1..])
  }

  /**
   * Filtering distributes over concatenation, so the kept parts keep their
   * order: with the single-part cases of the contract this fixes the result.
   */
  lemma {:induction false} NonEmptyAppend(a: seq<string>, b: seq<string>)
    ensures NonEmpty(a + b) == NonEmpty(a) + NonEmpty(b)
  {
    if a != [] {
      var ab := a + b;
      assert ab[0] == a[0] && ab[1..] == a[1..] + b;
      NonEmptyAppend(a[1..], b);
      if a[0] == "" {
        assert NonEmpty(ab) == NonEmpty(ab[1..]);
      } else {
        assert NonEmpty(ab) == [a[0]] + NonEmpty(ab[1..]);
        assert NonEmpty(a) == [a[0]] + NonEmpty(a[1..]);
      }
    } else {
      assert a + b == b;
    }
  }

  /** `sep.join(parts)`. */
  function Join(sep: string, parts: seq<string>): (r: string)
    ensures parts == [] ==> r == ""
    ensures |parts| == 1 ==> r == parts[0]
    ensures |parts| == 2 ==> r == parts[0] + sep + parts[1]
  {
    if parts == [] then ""
    else if |parts| == 1 then parts[0]
    else parts[0] + sep + Join(sep, parts[1..])
  }

  /** The combined date-time pattern: the separator joins only the non-empty patterns. */
  function DatetimeFormat(dateFormat: string, timeFormat: string, sep: string): (r: string)
    ensures dateFormat != "" && timeFormat != "" ==> r == dateFormat + sep + timeFormat
    ensures dateFormat == "" ==> r == timeFormat
    ensures timeFormat == "" ==> r == dateFormat
  {
    var parts := [dateFormat, timeFormat];
    assert parts[1..] == [timeFormat] && parts[1..][1..] == [];
    assert NonEmpty([timeFormat]) == if timeFormat == "" then [] else [timeFormat];
    var kept := NonEmpty(parts);
    assert dateFormat != "" && timeFormat != "" ==>
      kept == [dateFormat, timeFormat] && kept[1..] == [timeFormat] && Join(sep, kept) == dateFormat + sep + timeFormat;
    Join(sep, kept)
  }

  /**
   * `__init__`: `tz_override or tzlocal()`, and `now` is the wall-clock
   * reading `clock` labelled with that zone.
   */
  function NewFormatter(mode: Mode, dateFormat: string, timeFormat: string, dtSeparator: string,
                        tzOverride: Option<UtcOffset>, localZone: UtcOffset, clock: NaiveDateTime): (f: Formatter)
    ensures Valid(f)
    ensures f.mode == mode && f.dateFormat == dateFormat && f.timeFormat == timeFormat
    ensures f.tz == (if tzOverride.Some? then tzOverride.value else localZone)
    ensures f.dtSeparator == dtSeparator && f.localOffset == localZone
    ensures f.now.local == clock
  {
    var tz := tzOverride.GetOr(localZone);
    Formatter(mode, dateFormat, timeFormat, dtSeparator, DatetimeFormat(dateFormat, timeFormat, dtSeparator),
              tz, DateTime(clock, tz), localZone)
  }

  /** What construction establishes and nothing afterwards changes. */
  predicate Valid(f: Formatter) {
    && f.datetimeFormat == DatetimeFormat(f.dateFormat, f.timeFormat, f.dtSeparator)
    && f.now.offset == f.tz
  }

  /**
   * In every constructed formatter the combined pattern is the date and time
   * patterns joined by the separator, or the one of them that is set, and
   * `now` carries the formatter's zone.
   */
  lemma ValidPatterns(f: Formatter)
    requires Valid(f)
    ensures f.dateFormat != "" && f.timeFormat != "" ==> f.datetimeFormat == f.dateFormat + f.dtSeparator + f.timeFormat
    ensures f.dateFormat == "" ==> f.datetimeFormat == f.timeFormat
    ensures f.timeFormat == "" ==> f.datetimeFormat == f.dateFormat
    ensures f.now.offset == f.tz
  {
  }

  /** With the default patterns the combined pattern is `%Y-%m-%d %H:%M`. */
  lemma DefaultDatetimeFormat()
    ensures DatetimeFormat(DEFAULT_DATE_FORMAT, DEFAULT_TIME_FORMAT, DEFAULT_DT_SEPARATOR) == "%Y-%m-%d %H:%M"
  {
  }
}
