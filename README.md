# todoman formatters in Dafny

A model of `todoman/formatters.py`, the part of todoman that turns todo
records into terminal text and reads user-entered priorities and dates back.
The model covers all three formatter variants:

- default;
- humanized (relative dates such as "in 2 days");
- porcelain (JSON for scripts).

The source makes these choices, and the model keeps them:

- A formatter is an immutable record. `__init__` sets its formats, time
  zone and captured `now` once (`Config.Formatter`, `Config.NewFormatter`).
  The variant is a `Mode`.
- Pure logic is written as functions:
  - `rgb_to_ansi`;
  - the priority parsers and band formatters;
  - every `format_datetime`;
  - the `parse_datetime` cascade;
  - the humanized rewrite;
  - `_todo_as_dict`.
- The loops of `compact_multiple` and `_columnize_list` are methods with
  `while` loops, proved against the specification functions `TableText`
  and `LabelledLines`. `detailed` has no loop: it appends the two
  columnized texts with `+=`, and `Formatters.Detailed` makes those two
  appends in turn, proved against `ExtraRows`. The rendering properties are
  lemmas about these functions.
- Python's `int(s, base)` (with the surrounding whitespace it ignores),
  `str(n)`, `str.splitlines` and the `in` test on strings are modelled
  concretely, in the `Text` module. This
  lets the colour decoding, the priority parsing and the `' from now'`
  rewrite be proved, not assumed.
- Exceptions the source raises become `Err` values of `Wrappers.Result`:
  - the `ValueError` of `int()` on a non-hex colour channel;
  - the priority `ValueError` and `click.BadParameter`;
  - "Time description not recognized";
  - the humanized `TypeError` on a date due, under Findings.

  `None` becomes `Wrappers.Option`.
- Libraries whose behaviour is not part of todoman are record fields of
  function type, passed in as parameters. These are `strftime`/`strptime`,
  `parsedatetime`, `humanize.naturaltime` (`Dates.DateLibrary`), and
  `click.style`, `tabulate` and `json.dumps` (`Records.OutputLibrary`).
  Nothing is assumed about them beyond being functions, except where a
  lemma states its own premise.
- A time zone is a fixed UTC offset in seconds. A date-time is a wall-clock
  reading plus that offset (`Moments.DateTime`). `Moments.Instant` gives
  its POSIX seconds.

Modules, one file each:

| file | module | holds |
|---|---|---|
| `wrappers.dfy` | `Wrappers` | `Option`, `Result`, the `Error` kinds |
| `text.dfy` | `Text` | the Python built-ins the source relies on |
| `colour.dfy` | `Colour` | `rgb_to_ansi` |
| `priority.dfy` | `Priority` | the priority parsers and formatters |
| `moments.dfy` | `Moments` | dates, date-times, instants |
| `config.dfy` | `Config` | the formatter record and `__init__` |
| `dates.dfy` | `Dates` | the date formatting and parsing of all variants |
| `records.dfy` | `Records` | todos, lists, cells, JSON values, the output libraries |
| `formatters.dfy` | `Formatters` | rows, compact, detailed and the porcelain renderings |

Three behaviours of the source the model keeps as written:

- **The humanized table fails on a date due.** `compact_multiple` calls
  the variant's `format_datetime` (todoman/formatters.py:68) before it
  renders the list. The humanized variant subtracts the due from a
  date-time (todoman/formatters.py:227), which raises `TypeError` for a
  date. `Formatters.TodoRow`, `Formatters.TableText` and
  `Formatters.CompactMultiple` therefore fail for such a todo, with that
  error ahead of any list-colour error. The repaired renderer, phrasing a
  date due in days, is `Formatters.CorrectedTodoRow` and
  `Formatters.CorrectedRows` (see Findings).
- **Fuzzy parsing is anchored at the wall clock.** The fuzzy step of
  `_parse_datetime_naive` (todoman/formatters.py:211) calls
  `parsedatetime` without a source time. Relative phrases are therefore
  resolved against the clock at parse time, not against the formatter's
  captured `now`. `Dates.ParseDatetime` takes that clock reading as its
  own `wallClock` parameter.
- **`now` is local wall time labelled with the formatter's zone.** The
  time-only step combines a parsed time with `now`'s date. `now` is the
  local wall-clock time relabelled with the formatter's zone
  (todoman/formatters.py:47), so with a zone override it is the local
  reading, not the current time in that zone. `Config.NewFormatter` keeps
  the clock reading as `now.local`.

## Model

| member | source | states |
|---|---|---|
| `Text.TrimLeft` | todoman/formatters.py:25-26 | the leading whitespace `int()` ignores is removed; the result is a suffix starting with a non-space |
| `Text.TrimRight` | todoman/formatters.py:25-26 | trailing whitespace is removed; the result is a prefix ending with a non-space |
| `Text.Strip` | todoman/formatters.py:25-26 | the whitespace `int()` ignores around a literal is dropped: the result is no longer than the input, neither starts nor ends with whitespace, and is empty for all-whitespace input |
| `Text.StripNoSpace` | todoman/formatters.py:25-26 | text without surrounding whitespace is left as it is |
| `Text.DigitValue` | todoman/formatters.py:25-26 | a hex digit's value is below 16, and below 10 exactly for `0`-`9` |
| `Text.ParseDigits` | todoman/formatters.py:25-26 | `int()` yields a value exactly when the digit part is well formed (digits of the base, single underscores between them) |
| `Text.ParseIntShape` | todoman/formatters.py:25-26 | `int()` of blank text fails, and a negative result comes only from a literal starting with `-` |
| `Text.ParseIntEmpty` | todoman/formatters.py:25-26 | `int('', b)` fails |
| `Text.TwoHexDigits` | todoman/formatters.py:25-26 | two hex digits parse to 16 times the first plus the second |
| `Text.DigitChar` | todoman/formatters.py:65 | the decimal digit character has the given value |
| `Text.Decimal` | todoman/formatters.py:65 | `str()` of a natural number is a non-empty run of decimal digits |
| `Text.IntToString` | todoman/formatters.py:65 | `str()` of an integer is non-empty |
| `Text.DecimalDigitsValue` | todoman/formatters.py:65 | the digits `str()` writes have the number's value |
| `Text.ParseIntToString` | todoman/formatters.py:261-262 | `int(str(i)) == i` for every integer |
| `Text.DecimalDigits` | todoman/formatters.py:261-262 | the digits of `str(n)` are a well-formed base-10 digit part worth `n`, or `-n` with a minus sign |
| `Text.DecimalEnds` | todoman/formatters.py:261-262 | `str(n)` starts and ends with a digit, so it has no surrounding whitespace and no sign |
| `Text.ParseDecimal` | todoman/formatters.py:261-262 | `int(str(n)) == n` for every natural number |
| `Text.ParseNegativeDecimal` | todoman/formatters.py:261-262 | `int(str(-n)) == -n` for every positive number |
| `Text.StripKeeps` | todoman/formatters.py:25-26 | text that neither starts nor ends with whitespace is left as it is |
| `Text.ParseIntUnsigned` | todoman/formatters.py:25-26 | for a literal without surrounding whitespace or sign, `int()` is the value of its digit part |
| `Text.ParseIntPadded` | todoman/formatters.py:25-26 | a space before a literal without surrounding whitespace or sign does not change its value |
| `Text.ParseIntPlus` | todoman/formatters.py:261-262 | a `+` before such a literal does not change its value |
| `Text.ParseIntMinus` | todoman/formatters.py:261-262 | a `-` before a literal without trailing whitespace negates the value of its digit part |
| `Text.LineEnd` | todoman/formatters.py:103 | the first line ends at a line break or at the end of the text |
| `Text.SplitLines` | todoman/formatters.py:103 | `splitlines()` is empty exactly for empty text, and no line contains a line break |
| `Text.LineEndOfLine` | todoman/formatters.py:103 | a line followed by `\n` ends where the line ends |
| `Text.SplitTerminated` | todoman/formatters.py:103 | newline-terminated break-free lines split back into exactly those lines |
| `Text.SplitAtNewline` | todoman/formatters.py:103 | a break-free line followed by `\n` is split off as the first line, and splitting goes on after it |
| `Text.SplitSingle` | todoman/formatters.py:103 | non-empty text without a line break is one line |
| `Text.LineEndWhole` | todoman/formatters.py:103 | text without a line break is a single line |
| `Text.SplitJoined` | todoman/formatters.py:103 | break-free lines joined by `\n`, the last one non-empty and unterminated, split back into exactly those lines |
| `Text.ContainsLength` | todoman/formatters.py:228 | a contained substring is no longer than the text |
| `Text.ContainsSuffix` | todoman/formatters.py:228 | a text ending in `p` contains `p` |
| `Colour.Slice` | todoman/formatters.py:20 | Python slicing clamps to the string's end; in range it is the plain subsequence |
| `Colour.TruecolourEscape` | todoman/formatters.py:25 | the escape starts with ESC and `[38;2;` and ends with `m` |
| `Colour.HexByte` | todoman/formatters.py:25-26 | a two-hex-digit channel value is below 256 |
| `Colour.RgbToAnsi` | todoman/formatters.py:13-27 | no colour for a missing, empty, non-`#` or under-7-character string; a colour only for `#` strings of length at least 7; a failure is always `int()` rejecting a 2-character base-16 channel |
| `Colour.DecodeChannels` | todoman/formatters.py:25-27 | the result is a colour exactly when all three channels decode with `int(…, 16)`; otherwise the error is the base-16 `int()` failure naming the first channel, in red, green, blue order, that does not decode |
| `Colour.RgbToAnsiDecodes` | todoman/formatters.py:13-27 | a `#RRGGBB` string gives `ESC[38;2;R;G;Bm` with each channel its base-16 byte |
| `Colour.DecodedSlices` | todoman/formatters.py:20-27 | the escape is built from the decoded values of the three slices |
| `Colour.SliceBytes` | todoman/formatters.py:20 | each 2-character slice decodes to the byte at its position |
| `Colour.RgbToAnsiChannels` | todoman/formatters.py:20-27 | for `#` strings of length at least 7 the channels are characters 1-2, 3-4, 5-6 |
| `Colour.HexChannelsDecode` | todoman/formatters.py:25-27 | three hex-digit channels give the escape of their bytes |
| `Colour.HexChannelValue` | todoman/formatters.py:25-26 | `int(channel, 16)` is the channel's byte |
| `Colour.DecodeParsedChannels` | todoman/formatters.py:25-27 | three successful `int()` calls give the escape of their values |
| `Colour.RgbToAnsiIgnoresTail` | todoman/formatters.py:20 | characters after the seventh never change the result |
| `Colour.NonHexChannelFails` | todoman/formatters.py:25 | a channel starting with a non-hex, non-space, non-sign character makes `int()` fail |
| `Colour.RgbToAnsiRejectsNonHex` | todoman/formatters.py:25-27 | such a red channel escapes as the `int()` error naming that channel |
| `Colour.HexChar` | todoman/formatters.py:25 | the hex digit written for a value decodes to it |
| `Colour.HexPair` | todoman/formatters.py:25 | a byte written as two hex digits decodes back to it |
| `Colour.RgbRoundTrip` | todoman/formatters.py:13-27 | any three bytes written as `#RRGGBB` come back as the escape of those bytes |
| `Colour.HexColour` | todoman/formatters.py:13-27 | the written `#RRGGBB` is well formed and its channels are the three bytes |
| `Priority.BandOf` | todoman/formatters.py:160-178 | a priority has a band exactly when it is absent or in 0..9 |
| `Priority.ParsePriorityName` | todoman/formatters.py:143-158 | `None` and `''` give no priority; the four names give 0, 4, 5, 9; any other text is the "one of low, medium, high or none" error |
| `Priority.FormatPriority` | todoman/formatters.py:160-168 | `none`/`high`/`medium`/`low` exactly for the bands 0 or absent / 1-4 / 5 / 6-9, and nothing outside 0..9 |
| `Priority.FormatPriorityCompact` | todoman/formatters.py:170-178 | only `!` glyphs, as many as the band's urgency (0, 3, 2, 1), and nothing outside 0..9 |
| `Priority.NameRoundTrip` | todoman/formatters.py:143-168 | formatting a parsed name gives the name back |
| `Priority.FormatThenParseKeepsBand` | todoman/formatters.py:143-168 | parsing a formatted priority keeps its band |
| `Priority.CompactMonotone` | todoman/formatters.py:170-178 | the glyph count never increases from priority 1 to 9 |
| `Priority.ParsePriorityNumber` | todoman/formatters.py:257-266 | `None` gives no priority, and only `None` does; text that `int()` reads as a number in 0..9 (including padded or signed forms such as `' 5'` or `'+5'`) gives that number; text it reads as another number gives the range error, and text it rejects gives its `ValueError`, each wrapped in `click.BadParameter` |
| `Priority.NumberRoundTrip` | todoman/formatters.py:257-266 | the text of any integer in 0..9 parses to that integer |
| `Priority.PaddedNumberAccepted` | todoman/formatters.py:257-266 | `' N'` and `'+N'` are accepted as `N` for every `N` in 0..9, as `int()` reads them |
| `Priority.NumberOutOfRange` | todoman/formatters.py:257-266 | the text of an integer outside 0..9 gives the range error, wrapped in `BadParameter` |
| `Priority.EmptyPriorityDiffers` | todoman/formatters.py:143-145 | `''` is no priority in the default variant (lines 143-145) but a `BadParameter` in porcelain, whose `parse_priority` at lines 257-266 tests only for `None` |
| `Moments.FromTimestampUtc` | todoman/formatters.py:279-283 | `fromtimestamp(t, UTC)` is the date-time at instant `t` with offset 0 |
| `Moments.MidnightTimestamp` | todoman/formatters.py:271-277 | a date's timestamp is the instant of its local midnight |
| `Config.NonEmpty` | todoman/formatters.py:41-44 | `filter(bool, …)` keeps only non-empty formats, drawn from the input; every non-empty one is kept; an input without empty parts is kept whole |
| `Config.NonEmptyAppend` | todoman/formatters.py:41-44 | filtering a concatenation is the concatenation of the filtered parts, so the order of the kept formats is the input order |
| `Config.Join` | todoman/formatters.py:41 | joining nothing is `''`, one part is that part, two parts have the separator between them |
| `Config.DatetimeFormat` | todoman/formatters.py:41-44 | date and time format joined by the separator when both are set, otherwise whichever is set |
| `Config.NewFormatter` | todoman/formatters.py:30-47 | the constructed formatter keeps its formats and separator, takes the override zone or the local one, records the local zone, and captures the clock reading as `now` in that zone |
| `Config.ValidPatterns` | todoman/formatters.py:41-47 | in every constructed formatter the combined pattern joins the set patterns with the separator, and `now` carries the formatter's zone |
| `Config.DefaultDatetimeFormat` | todoman/formatters.py:31-44 | the defaults give `%Y-%m-%d %H:%M` |
| `Dates.FormatDatetime` | todoman/formatters.py:135-141 | absent gives `''`; a date-time uses the datetime format and a date the date format |
| `Dates.Strategies` | todoman/formatters.py:193-209 | three strict parsing strategies |
| `Dates.FirstMatchWins` | todoman/formatters.py:193-209 | the first strategy that succeeds decides the result |
| `Dates.FirstMatchNone` | todoman/formatters.py:193-209 | the strategies fail together exactly when each one fails |
| `Dates.ParseDatetimeNaive` | todoman/formatters.py:191-214 | the error arises exactly when the datetime, date and time formats all reject the text and the fuzzy parser finds neither date nor time, and it is "Time description not recognized: " plus the text; a date result comes from the date format after the datetime format rejected the text |
| `Dates.CascadeIsFirstMatch` | todoman/formatters.py:191-214 | `_parse_datetime_naive` is the first match over datetime, date and time-on-`now`'s-date, then fuzzy |
| `Dates.ParseDatetime` | todoman/formatters.py:180-214 | empty input gives no result; date-times carry the formatter's zone; the only error is "Time description not recognized: " plus the input |
| `Dates.ParseDatetimeFirst` | todoman/formatters.py:180-194 | text matching the datetime format is that date-time, in the formatter's zone |
| `Dates.ParseDatetimeSecond` | todoman/formatters.py:198-201 | otherwise text matching the date format is that date, unchanged |
| `Dates.ParseDatetimeThird` | todoman/formatters.py:203-209 | otherwise text matching the time format is that time on `now`'s date |
| `Dates.ParseDatetimeFuzzy` | todoman/formatters.py:211-214 | otherwise the fuzzy result is used, or the "not recognized" error when it found neither date nor time |
| `Dates.DateRoundTrip` | todoman/formatters.py:135-214 | a formatted date parses back to the same date when only the date format reads it |
| `Dates.DateTimeRoundTrip` | todoman/formatters.py:135-214 | a formatted date-time parses back to the same wall time in the formatter's zone |
| `Dates.RewriteFromNow` | todoman/formatters.py:227-231 | output without `' from now'` is unchanged; output containing it becomes `in ` plus all but its last 9 characters |
| `Dates.FutureRewritten` | todoman/formatters.py:227-231 | `X from now` becomes `in X` |
| `Dates.HumanizedFormatDatetimeAsWritten` | todoman/formatters.py:223-231 | absent gives `''`; the `TypeError` arises exactly for a date due; a date-time due is `naturaltime` of the seconds from it to `now`, with `X from now` rewritten |
| `Dates.HumanizedRaisesOnDates` | todoman/formatters.py:227 | a date due raises the `TypeError` of subtracting a date from a date-time |
| `Dates.HumanizedFormatDatetime` | todoman/formatters.py:223-231 | absent gives `''`; agrees with the code as written wherever that does not raise; a date due is `naturaltime` of its distance in whole days to `now`'s date, rewritten the same way |
| `Dates.HumanizedPast` | todoman/formatters.py:227-231 | a phrase without `' from now'`, such as a past one, is shown exactly as the library wrote it |
| `Dates.HumanizedFuture` | todoman/formatters.py:227-231 | a future date-time that `naturaltime` calls `X from now` is shown as `in X` |
| `Dates.HumanizedFutureDate` | todoman/formatters.py:227-231 | a future date, phrased from its distance in whole days to `now`'s date as `X from now`, is shown as `in X` |
| `Dates.PorcelainFormatDatetime` | todoman/formatters.py:271-277 | absent gives `None`, and only absent does; a date-time gives its instant; a date gives the instant of its local midnight |
| `Dates.PorcelainParseDatetime` | todoman/formatters.py:279-283 | no date-time exactly for `None` and `0`; any other integer is the UTC date-time at that instant |
| `Dates.PorcelainRoundTrip` | todoman/formatters.py:271-283 | a serialised date-time reads back as the same instant, except the epoch itself, which reads back as none |
| `Formatters.SimpleAction` | todoman/formatters.py:53-54 | the action, a space, the summary in double quotes; porcelain gives the todo's JSON |
| `Formatters.FormatDatabase` | todoman/formatters.py:216-219 | fails exactly when the list colour fails to decode, with that error; otherwise the colour's escape (or nothing when there is no usable colour), `@`, the styled name |
| `Formatters.FormatDatabasePlain` | todoman/formatters.py:216-219 | a list whose colour is missing, empty, not a `#` string or shorter than 7 characters renders as `@` and the styled name |
| `Formatters.FormatDatabaseColoured` | todoman/formatters.py:216-219 | a `#RRGGBB` list renders as its truecolour escape, `@`, the styled name |
| `Formatters.PercentText` | todoman/formatters.py:63-65 | the annotation is empty exactly for an absent or zero percentage |
| `Formatters.PercentReadable` | todoman/formatters.py:63-65 | a non-zero percentage is written as ` (N%)` with `N` parsing back to it |
| `Formatters.DueText` | todoman/formatters.py:68 | the due column's text is the variant's `format_datetime`; it fails exactly for a date due in the humanized variant, with the date-subtraction `TypeError` |
| `Formatters.CorrectedDueText` | todoman/formatters.py:223-231 | agrees with the as-written due text wherever that does not fail; a humanized date due is phrased from its distance in whole days to `now`'s date |
| `Formatters.Overdue` | todoman/formatters.py:69-72 | no due or a completed todo is never overdue; a date-time due is overdue when its instant is not after `now`'s; a date due when its date is not after `now`'s date |
| `Formatters.OverdueSameInstant` | todoman/formatters.py:69-72 | two dues at the same instant, whatever their zones, are overdue alike |
| `Formatters.SummaryCell` | todoman/formatters.py:77-87 | with the list hidden: summary, space, percentage; otherwise the list's rendering sits between them, and the cell fails exactly when the list colour does |
| `Formatters.PriorityCell` | todoman/formatters.py:66 | `None` exactly outside 0..9, otherwise the band's count of `!` |
| `Formatters.DueCell` | todoman/formatters.py:68-75 | the due text, styled red exactly when overdue, then a space, then the recurrence glyph for a recurring todo |
| `Formatters.RowCells` | todoman/formatters.py:89-95 | five cells: id, `[X]` or `[ ]`, priority, due with recurrence glyph, summary |
| `Formatters.AssembleRow` | todoman/formatters.py:61-95 | a row fails exactly when the due text failed or the list is shown and its colour fails; the due failure comes first; otherwise it is the five cells |
| `Formatters.TodoRow` | todoman/formatters.py:61-95 | a row fails exactly when the due is a date in the humanized variant (with the `TypeError`) or the list is shown and its colour fails to decode; outside the humanized variant a failure is the colour's; otherwise it is the five cells |
| `Formatters.CorrectedTodoRow` | todoman/formatters.py:61-95 | with the repaired humanized due text a row fails exactly when the list is shown and its colour fails; it equals the as-written row wherever that succeeds |
| `Formatters.DueNowIsRed` | todoman/formatters.py:68-73 | a due equal to `now` (or to its date) is red exactly when the todo is open |
| `Formatters.LaterDateNotRed` | todoman/formatters.py:68-73 | a date due after `now`'s date is not red |
| `Formatters.CollectRows` | todoman/formatters.py:60-95 | the collected table has one row per todo |
| `Formatters.CollectInOrder` | todoman/formatters.py:60-95 | collected rows are one per todo, in order |
| `Formatters.CollectFailIff` | todoman/formatters.py:60-95 | collecting fails exactly when some todo's row fails |
| `Formatters.CollectAgree` | todoman/formatters.py:60-95 | two row renderers that agree wherever the first succeeds collect the same table when the first collects one |
| `Formatters.CollectErrorSticks` | todoman/formatters.py:60-95 | a failure among the first todos is the failure of the whole list |
| `Formatters.Rows` | todoman/formatters.py:59-95 | `compact_multiple`'s table has one row per todo |
| `Formatters.RowsInOrder` | todoman/formatters.py:59-97 | `compact_multiple` has one row per todo, in input order, each that todo's row |
| `Formatters.RowsFailIff` | todoman/formatters.py:59-97 | rendering fails exactly when some todo's row fails: a date due in the humanized variant, or a shown list whose colour fails to decode |
| `Formatters.CorrectedRows` | todoman/formatters.py:59-95 | the repaired table has one row per todo |
| `Formatters.CorrectedRowsAgree` | todoman/formatters.py:59-95 | the repaired table fails exactly when the list is shown and some list colour fails, and equals the as-written table wherever that succeeds |
| `Formatters.TableText` | todoman/formatters.py:59-97 | the text fails exactly when some todo's row fails; otherwise it is `tabulate` of the rows |
| `Formatters.CompactMultiple` | todoman/formatters.py:59-97 | the loop's result is the table text of all todos, or, when some row fails (a humanized date due or a list colour), that failure; porcelain gives the JSON list (its override at lines 250-252) |
| `Formatters.Compact` | todoman/formatters.py:56-57 | the table of the one-todo list with the list shown; porcelain gives the todo's JSON (its override at lines 247-248) |
| `Formatters.LabelledLines` | todoman/formatters.py:106-117 | one two-cell row per line, holding that line; the label on the first row and `None` on the rest |
| `Formatters.ColumnizeList` | todoman/formatters.py:106-117 | `[]` for an absent or empty list; otherwise one two-cell row per line, in order, the label on the first and `None` on the rest |
| `Formatters.TextLines` | todoman/formatters.py:99-104 | no lines exactly for absent or empty text |
| `Formatters.ColumnizeText` | todoman/formatters.py:99-104 | the text's lines, columnized; no rows exactly for absent or empty text |
| `Formatters.ExtraRows` | todoman/formatters.py:119-129 | the description's lines then the location's, each row two cells, the first labelled `Description`, or `Location` when there is no description |
| `Formatters.ExtraRowsEmptyIff` | todoman/formatters.py:125-129 | the secondary table is empty exactly when both description and location are absent or empty |
| `Formatters.DescriptionLines` | todoman/formatters.py:99-127 | a description of break-free lines, each terminated by a newline or with the last one unterminated and non-empty, is shown line by line, labelled once |
| `Formatters.DescriptionTextLines` | todoman/formatters.py:99-104 | such a description splits back into exactly its lines |
| `Formatters.Detailed` | todoman/formatters.py:119-133 | `compact` alone without extra rows, otherwise `compact`, a blank line, the secondary table; failures of `compact` propagate; porcelain gives the todo's JSON (its override at lines 268-269) |
| `Formatters.TodoAsDict` | todoman/formatters.py:235-245 | always the same eight keys; `completed`, `id`, `list` (its name), `summary` are the todo's; `percent`, `priority`, `location` are the todo's or null when absent; `due` is the porcelain timestamp, null exactly when the todo has none |
| `Formatters.DictDueReadable` | todoman/formatters.py:234-283 | a dict's date-time due reads back through porcelain input as the same instant, unless that instant is the epoch |
| `Formatters.DictPriorityReadable` | todoman/formatters.py:234-266 | a dict's priority in 0..9, written out, reads back through porcelain input |
| `Formatters.PorcelainCompact` | todoman/formatters.py:247-248 | the JSON of the todo's dict |
| `Formatters.PorcelainCompactMultiple` | todoman/formatters.py:250-252 | the JSON of the list of the todos' dicts, one per todo, in order |
| `Formatters.PorcelainItems` | todoman/formatters.py:251 | one dict per todo, in order |
| `Formatters.PorcelainRenderingsCoincide` | todoman/formatters.py:247-269 | in porcelain, `compact`, `detailed` and `simple_action` give the same text |
| `Formatters.ParsePriority` | todoman/formatters.py:143-158 | the default variant's name parser, or porcelain's integer parser (its override at lines 257-266); any priority it yields is in 0..9 |

## Left out

- `strftime`/`strptime` format interpretation, `parsedatetime`, `mktime`
  and `humanize.naturaltime` are functions passed in (`Dates.DateLibrary`).
  Their own behaviour is not modelled. Round-trip lemmas state what they
  need of them as premises.
- `click.style`, `tabulate` and `json.dumps` are functions passed in
  (`Records.OutputLibrary`). Their escape codes, column layout and JSON
  text are not modelled. The model covers the rows and dicts handed to
  them.
- Time zones are fixed UTC offsets. Daylight-saving zones from `tzlocal`
  or `pytz`, and the local-time conversion of `mktime` and
  `fromtimestamp`, are not modelled. The local offset is a formatter
  field.
- Reading the clock (`datetime.now()`) is a parameter of
  `Config.NewFormatter`. The fuzzy parser's own clock reading is a
  parameter of `Dates.ParseDatetime`.
- `parsedatetime.Calendar` construction (todoman/formatters.py:49-51)
  holds library state only, so it is not modelled.
- Microseconds are not modelled. Date-times have second resolution.
  `int(date.timestamp())` therefore needs no truncation.
- Naive date-times as due values are not modelled. Dues are dates or
  zone-carrying date-times, so the `TypeError` Python raises when
  comparing naive and aware values does not arise.
- Dates outside Python's supported range, and the `OverflowError` of
  `fromtimestamp` on huge instants, are not modelled. Ordinals are
  unbounded integers.
- Porcelain `parse_datetime` takes an integer or nothing. Other argument
  types are not modelled.
- `Text.ParseDigits`: Python's `int()` also accepts non-ASCII Unicode
  digits and whitespace. The model accepts ASCII digits and ASCII
  whitespace around the literal.
- `Text.ParseInt`: only bases 10 and 16 are modelled, the two the source
  uses. The function carries no contract of its own. Its properties are
  the lemmas `Text.ParseIntShape`, `Text.TwoHexDigits` and
  `Text.ParseIntToString`, and `Text.ParseDigits` for the digit part.
- `Colour.RgbToAnsi`: the contract does not name the failing channel.
  `Colour.DecodeChannels` states which channel's text is reported, and
  `Colour.RgbToAnsiChannels` connects the two.
- `Colour.TruecolourEscape`: the contract fixes the escape's frame only.
  `Colour.RgbToAnsiDecodes` and `Colour.RgbRoundTrip` state the values
  in it.
- `Dates.HumanizedFormatDatetime`: the `naturaltime` text is not
  modelled. The contracts state the result as the rewrite of the library's
  phrase. `Dates.HumanizedFuture`, `Dates.HumanizedFutureDate` and
  `Dates.HumanizedPast` give the outcome for future and other phrases,
  rather than for concrete phrases.

## Findings

| source | as written | input that shows it | evidently intended | confidence | as-written member | corrected member |
|---|---|---|---|---|---|---|
| todoman/formatters.py:227 | `HumanizedFormatter.format_datetime` computes `self.now - dt`, which raises `TypeError` when `dt` is a date: a date-time minus a date is not defined. Every humanized listing that contains a todo with a date-only due then fails. | a todo with `due = date(2024, 3, 1)` rendered by `HumanizedFormatter` | a date due is phrased relative to `now`'s date, as the default variant and the overdue rule treat dates | not executed | `Dates.HumanizedFormatDatetimeAsWritten` (`Dates.HumanizedRaisesOnDates`, `Formatters.TodoRow`) | `Dates.HumanizedFormatDatetime` (`Formatters.CorrectedTodoRow`, `Formatters.CorrectedRowsAgree`) |
