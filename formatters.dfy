/**
 * The formatter operations: one-line actions, list names, the per-todo table
 * row, the compact and detailed renderings, and the porcelain (JSON)
 * renderings that replace them in that variant.
 */
module Formatters {
  import opened Wrappers
  import opened Text
  import opened Colour
  import opened Priority
  import opened Moments
  import opened Config
  import opened Dates
  import opened Records

  // ------------------------------------------------------------ small pieces

  /** `simple_action`: the action, then the quoted summary; porcelain gives its JSON instead. */
  function SimpleAction(f: Formatter, out: OutputLibrary, action: string, todo: Todo): (r: string)
    ensures f.mode.Porcelain? ==> r == PorcelainCompact(f, out, todo)
    ensures !f.mode.Porcelain? ==>
      && |r| == |action| + |todo.summary| + 3
      && r[..|action|] == action
      && r[|action|..|action| + 2] == " \""
      && r[|action| + 2..|r| - 1] == todo.summary
      && r[|r| - 1] == '"'
  {
    if f.mode.Porcelain? then PorcelainCompact(f, out, todo)
    else action + " \"" + todo.summary + "\""
  }

  /** `format_database`: the list's colour escape (if any), `@`, the styled name. */
  function FormatDatabase(out: OutputLibrary, db: Database): (r: Result<string>)
    ensures r.Ok? <==> RgbToAnsi(db.colour).Ok?
    ensures r.Err? ==> r.error == RgbToAnsi(db.colour).error
    ensures r.Ok? ==> r.value == RgbToAnsi(db.colour).value.GetOr("") + "@" + out.style(db.name)
  {
    match RgbToAnsi(db.colour)
    case Err(e) => Err(e)
    case Ok(prefix) => Ok(prefix.GetOr("") + "@" + out.style(db.name))
  }

  /** A list without a usable colour renders as `@` and its name. */
  lemma FormatDatabasePlain(out: OutputLibrary, db: Database)
    requires db.colour.None? || db.colour.value == "" || db.colour.value[0] != '#' || |db.colour.value| < 7
    ensures FormatDatabase(out, db) == Ok("@" + out.style(db.name))
  {
    assert RgbToAnsi(db.colour) == Ok(None);
    assert "" + "@" + out.style(db.name) == "@" + out.style(db.name);
  }

  /** A `#RRGGBB` list colour renders as its truecolour escape before the `@`. */
  lemma FormatDatabaseColoured(out: OutputLibrary, db: Database)
    requires db.colour.Some? && HexTriplet(db.colour.value)
    ensures FormatDatabase(out, db) == Ok(TruecolourEscape(HexByte(db.colour.value, 1), HexByte(db.colour.value, 3),
                                                           HexByte(db.colour.value, 5)) + "@" + out.style(db.name))
  {
    RgbToAnsiDecodes(db.colour.value);
  }

  /** The percentage annotation: nothing for an absent or zero percentage, else ` (N%)`. */
  function PercentText(percent: Option<int>): (r: string)
    ensures r == "" <==> percent.None? || percent.value == 0
  {
    if percent.None? || percent.value == 0 then "" else " (" + IntToString(percent.value) + "%)"
  }

  /** The annotation can be read back: the number between ` (` and `%)` parses to the percentage. */
  lemma PercentReadable(percent: int)
    requires percent != 0
    ensures var r := PercentText(Some(percent));
      && |r| >= 5 && r[..2] == " (" && r[|r| - 2..] == "%)"
      && ParseInt(r[2..|r| - 2], 10) == Some(percent)
  {
    var r := PercentText(Some(percent));
    assert r[2..|r| - 2] == IntToString(percent);
    ParseIntToString(percent);
  }

  const RECURRING_GLYPH := "\U{27F3}"

  /**
   * The due column's text before styling, as `compact_multiple` obtains it
   * from the variant's `format_datetime`: the humanized variant raises on a
   * date due.
   */
  function DueText(f: Formatter, lib: DateLibrary, due: Option<Moment>): (r: Result<string>)
    ensures r.Err? <==> f.mode.Humanized? && due.Some? && due.value.OnDate?
    ensures r.Err? ==> r.error == TypeError(DATE_OPERAND_ERROR)
    ensures !f.mode.Humanized? ==> r == Ok(FormatDatetime(f, lib, due))
    ensures f.mode.Humanized? && r.Ok? ==> r.value == HumanizedFormatDatetime(f, lib, due)
  {
    if f.mode.Humanized? then HumanizedFormatDatetimeAsWritten(f, lib, due) else Ok(FormatDatetime(f, lib, due))
  }

  /** The due text with the humanized formatter corrected to phrase a date due in days. */
  function CorrectedDueText(f: Formatter, lib: DateLibrary, due: Option<Moment>): (r: string)
    ensures DueText(f, lib, due).Ok? ==> r == DueText(f, lib, due).value
    ensures f.mode.Humanized? && due.Some? && due.value.OnDate? ==>
      r == RewriteFromNow(lib.naturaltime((f.now.local.date.ordinal - due.value.date.ordinal) * SECONDS_PER_DAY))
  {
    if f.mode.Humanized? then HumanizedFormatDatetime(f, lib, due) else FormatDatetime(f, lib, due)
  }

  /** The overdue rule: a due, not later than `now` (its date, for a date due), on an open todo. */
  predicate Overdue(f: Formatter, todo: Todo)
    ensures todo.due.None? || todo.completed ==> !Overdue(f, todo)
    ensures todo.due.Some? && todo.due.value.At? ==>
      (Overdue(f, todo) <==> !todo.completed && Instant(todo.due.value.dateTime) <= Instant(f.now))
    ensures todo.due.Some? && todo.due.value.OnDate? ==>
      (Overdue(f, todo) <==> !todo.completed && todo.due.value.date.ordinal <= f.now.local.date.ordinal)
  {
    todo.due.Some? && AtOrBefore(todo.due.value, f.now) && !todo.completed
  }

  /** Aware comparison: two date-time dues denoting the same instant are overdue alike, whatever their zones. */
  lemma OverdueSameInstant(f: Formatter, a: Todo, b: Todo, x: DateTime, y: DateTime)
    requires a.due == Some(At(x)) && b.due == Some(At(y)) && a.completed == b.completed
    requires Instant(x) == Instant(y)
    ensures Overdue(f, a) <==> Overdue(f, b)
  {
  }

  /** The summary cell: summary, a space, the list (unless hidden), the percentage. */
  function SummaryCell(out: OutputLibrary, todo: Todo, hideList: bool): (r: Result<string>)
    ensures hideList ==> r == Ok(todo.summary + " " + PercentText(todo.percent))
    ensures !hideList ==> (r.Err? <==> RgbToAnsi(todo.list.colour).Err?)
    ensures !hideList && r.Ok? ==> r.value == todo.summary + " " + FormatDatabase(out, todo.list).value + PercentText(todo.percent)
  {
    if hideList then Ok(todo.summary + " " + PercentText(todo.percent))
    else
      match FormatDatabase(out, todo.list)
      case Err(e) => Err(e)
      case Ok(db) => Ok(todo.summary + " " + db + PercentText(todo.percent))
  }

  /** The priority cell: `None` for a priority outside 0..9, else as many `!` as the band's urgency. */
  function PriorityCell(priority: Option<int>): (c: Cell)
    ensures c.NoneCell? <==> BandOf(priority).None?
    ensures !c.IntCell?
    ensures c.TextCell? ==> |c.text| == Glyphs(BandOf(priority).value) && forall i :: 0 <= i < |c.text| ==> c.text[i] == '!'
  {
    match FormatPriorityCompact(priority)
    case Some(glyphs) => TextCell(glyphs)
    case None => NoneCell
  }

  /** The due cell: the due text, in red when overdue, a space, then the recurrence glyph. */
  function DueCell(f: Formatter, out: OutputLibrary, todo: Todo, dueText: string): (r: string)
    ensures var glyph := if todo.recurring then RECURRING_GLYPH else "";
      && |r| > |glyph|
      && r[|r| - |glyph|..] == glyph
      && r[|r| - |glyph| - 1] == ' '
      && r[..|r| - |glyph| - 1] == if Overdue(f, todo) then out.styleRed(dueText) else dueText
  {
    var due := if Overdue(f, todo) then out.styleRed(dueText) else dueText;
    var glyph := if todo.recurring then RECURRING_GLYPH else "";
    var r := due + " " + glyph;
    assert r[..|r| - |glyph| - 1] == due;
    r
  }

  /** The five cells of a todo's row once its due text and summary cell are known. */
  function RowCells(f: Formatter, out: OutputLibrary, todo: Todo, dueText: string, summary: string): (row: Row)
    ensures |row| == 5 && row[0] == IntCell(todo.id) && row[4] == TextCell(summary)
    ensures row[1] == TextCell(if todo.completed then "[X]" else "[ ]")
    ensures row[2] == PriorityCell(todo.priority)
    ensures row[3] == TextCell(DueCell(f, out, todo, dueText))
  {
    var completed := if todo.completed then "[X]" else "[ ]";
    [IntCell(todo.id), TextCell(completed), PriorityCell(todo.priority), TextCell(DueCell(f, out, todo, dueText)), TextCell(summary)]
  }

  /**
   * One iteration of the `compact_multiple` loop, given the outcome of
   * formatting the due: a due failure comes first, then the list's colour.
   */
  function AssembleRow(f: Formatter, out: OutputLibrary, todo: Todo, hideList: bool, due: Result<string>): (r: Result<Row>)
    ensures r.Err? <==> due.Err? || (!hideList && RgbToAnsi(todo.list.colour).Err?)
    ensures due.Err? ==> r == Err(due.error)
    ensures due.Ok? && r.Err? ==> r.error == RgbToAnsi(todo.list.colour).error
    ensures r.Ok? ==> r.value == RowCells(f, out, todo, due.value, SummaryCell(out, todo, hideList).value)
  {
    match due
    case Err(e) => Err(e)
    case Ok(dueText) =>
      match SummaryCell(out, todo, hideList)
      case Err(e) => Err(e)
      case Ok(summary) => Ok(RowCells(f, out, todo, dueText, summary))
  }

  /** Where a todo's row fails: a humanized date due, or a shown list whose colour fails to decode. */
  predicate RowFails(f: Formatter, todo: Todo, hideList: bool) {
    (f.mode.Humanized? && todo.due.Some? && todo.due.value.OnDate?)
    || (!hideList && RgbToAnsi(todo.list.colour).Err?)
  }

  /** The row `compact_multiple` builds for one todo, as the code is written. */
  function TodoRow(f: Formatter, lib: DateLibrary, out: OutputLibrary, todo: Todo, hideList: bool): (r: Result<Row>)
    ensures r.Err? <==> RowFails(f, todo, hideList)
    ensures f.mode.Humanized? && todo.due.Some? && todo.due.value.OnDate? ==> r == Err(TypeError(DATE_OPERAND_ERROR))
    ensures !f.mode.Humanized? && r.Err? ==> r.error == RgbToAnsi(todo.list.colour).error
    ensures r.Ok? ==> r.value == RowCells(f, out, todo, DueText(f, lib, todo.due).value, SummaryCell(out, todo, hideList).value)
  {
    AssembleRow(f, out, todo, hideList, DueText(f, lib, todo.due))
  }

  /** The row with the humanized formatter corrected: only the list colour can make it fail. */
  function CorrectedTodoRow(f: Formatter, lib: DateLibrary, out: OutputLibrary, todo: Todo, hideList: bool): (r: Result<Row>)
    ensures r.Err? <==> !hideList && RgbToAnsi(todo.list.colour).Err?
    ensures TodoRow(f, lib, out, todo, hideList).Ok? ==> r == TodoRow(f, lib, out, todo, hideList)
  {
    AssembleRow(f, out, todo, hideList, Ok(CorrectedDueText(f, lib, todo.due)))
  }

  /** An open todo due exactly now is shown in red; a completed one never is. */
  lemma DueNowIsRed(f: Formatter, todo: Todo)
    requires todo.due == Some(At(f.now)) || todo.due == Some(OnDate(f.now.local.date))
    ensures Overdue(f, todo) <==> !todo.completed
  {
  }

  /** A date due after `now`'s date is not overdue. */
  lemma LaterDateNotRed(f: Formatter, todo: Todo)
    requires todo.due.Some? && todo.due.value.OnDate?
    requires todo.due.value.date.ordinal > f.now.local.date.ordinal
    ensures !Overdue(f, todo)
  {
  }

  // ------------------------------------------------------------ compact

  /** Rows built one todo at a time, in order; the first todo whose row fails decides the error. */
  function CollectRows(row: Todo -> Result<Row>, todos: seq<Todo>): (r: Result<seq<Row>>)
    ensures r.Ok? ==> |r.value| == |todos|
  {
    if todos == [] then Ok([])
    else
      match CollectRows(row, todos[..|todos| - 1])
      case Err(e) => Err(e)
      case Ok(rows) =>
        match row(todos[|todos| - 1])
        case Err(e) => Err(e)
        case Ok(r) => Ok(rows + [r])
  }

  lemma {:induction false} CollectInOrder(row: Todo -> Result<Row>, todos: seq<Todo>)
    requires CollectRows(row, todos).Ok?
    ensures |CollectRows(row, todos).value| == |todos|
    ensures forall i :: 0 <= i < |todos| ==> row(todos[i]).Ok? && CollectRows(row, todos).value[i] == row(todos[i]).value
  {
    if todos != [] {
      var init := todos[..|todos| - 1];
      CollectInOrder(row, init);
      forall i | 0 <= i < |init| ensures todos[i] == init[i] { }
    }
  }

  lemma {:induction false} CollectFailIff(row: Todo -> Result<Row>, todos: seq<Todo>)
    ensures CollectRows(row, todos).Err? <==> exists i :: 0 <= i < |todos| && row(todos[i]).Err?
  {
    if todos != [] {
      var init := todos[..|todos| - 1];
      CollectFailIff(row, init);
      if exists i :: 0 <= i < |init| && row(init[i]).Err? {
        var i :| 0 <= i < |init| && row(init[i]).Err?;
        assert todos[i] == init[i];
      }
      if exists i :: 0 <= i < |todos| && row(todos[i]).Err? {
        var i :| 0 <= i < |todos| && row(todos[i]).Err?;
        if i < |init| { assert todos[i] == init[i]; }
      }
    }
  }

  /** A row function that agrees wherever another succeeds collects the same rows. */
  lemma {:induction false} CollectAgree(row: Todo -> Result<Row>, other: Todo -> Result<Row>, todos: seq<Todo>)
    requires CollectRows(row, todos).Ok?
    requires forall t :: row(t).Ok? ==> other(t) == row(t)
    ensures CollectRows(other, todos) == CollectRows(row, todos)
  {
    if todos != [] {
      CollectAgree(row, other, todos[..|todos| - 1]);
    }
  }

  lemma {:induction false} CollectErrorSticks(row: Todo -> Result<Row>, todos: seq<Todo>, k: nat)
    requires k <= |todos| && CollectRows(row, todos[..k]).Err?
    ensures CollectRows(row, todos) == CollectRows(row, todos[..k])
    decreases |todos| - k
  {
    if k < |todos| {
      assert todos[..k + 1][..k] == todos[..k];
      CollectErrorSticks(row, todos, k + 1);
    } else {
      assert todos[..k] == todos;
    }
  }

  /** The rows `compact_multiple` collects for a list of todos. */
  function Rows(f: Formatter, lib: DateLibrary, out: OutputLibrary, todos: seq<Todo>, hideList: bool): (r: Result<seq<Row>>)
    ensures r.Ok? ==> |r.value| == |todos|
  {
    CollectRows(t => TodoRow(f, lib, out, t, hideList), todos)
  }

  /** One row per todo, in input order. */
  lemma RowsInOrder(f: Formatter, lib: DateLibrary, out: OutputLibrary, todos: seq<Todo>, hideList: bool)
    requires Rows(f, lib, out, todos, hideList).Ok?
    ensures |Rows(f, lib, out, todos, hideList).value| == |todos|
    ensures forall i :: 0 <= i < |todos| ==>
      TodoRow(f, lib, out, todos[i], hideList).Ok? && Rows(f, lib, out, todos, hideList).value[i] == TodoRow(f, lib, out, todos[i], hideList).value
  {
    CollectInOrder(t => TodoRow(f, lib, out, t, hideList), todos);
  }

  /**
   * Rendering fails exactly when some todo's row does: a date due in the
   * humanized variant, or a shown list whose colour fails to decode.
   */
  lemma RowsFailIff(f: Formatter, lib: DateLibrary, out: OutputLibrary, todos: seq<Todo>, hideList: bool)
    ensures Rows(f, lib, out, todos, hideList).Err?
        <==> exists i :: 0 <= i < |todos| && RowFails(f, todos[i], hideList)
  {
    CollectFailIff(t => TodoRow(f, lib, out, t, hideList), todos);
  }

  /** The rows with the humanized formatter corrected. */
  function CorrectedRows(f: Formatter, lib: DateLibrary, out: OutputLibrary, todos: seq<Todo>, hideList: bool): (r: Result<seq<Row>>)
    ensures r.Ok? ==> |r.value| == |todos|
  {
    CollectRows(t => CorrectedTodoRow(f, lib, out, t, hideList), todos)
  }

  /** The corrected rows fail only on list colours, and agree with the code as written wherever it succeeds. */
  lemma CorrectedRowsAgree(f: Formatter, lib: DateLibrary, out: OutputLibrary, todos: seq<Todo>, hideList: bool)
    ensures CorrectedRows(f, lib, out, todos, hideList).Err?
        <==> !hideList && exists i :: 0 <= i < |todos| && RgbToAnsi(todos[i].list.colour).Err?
    ensures Rows(f, lib, out, todos, hideList).Ok? ==> CorrectedRows(f, lib, out, todos, hideList) == Rows(f, lib, out, todos, hideList)
  {
    var fixed := t => CorrectedTodoRow(f, lib, out, t, hideList);
    CollectFailIff(fixed, todos);
    if Rows(f, lib, out, todos, hideList).Ok? {
      CollectAgree(t => TodoRow(f, lib, out, t, hideList), fixed, todos);
    }
  }

  /** The table text of `compact_multiple` in the default and humanized variants. */
  function TableText(f: Formatter, lib: DateLibrary, out: OutputLibrary, todos: seq<Todo>, hideList: bool): (r: Result<string>)
    ensures r.Err? <==> exists i :: 0 <= i < |todos| && RowFails(f, todos[i], hideList)
    ensures r.Ok? ==> Rows(f, lib, out, todos, hideList).Ok? && r.value == out.tabulate(Rows(f, lib, out, todos, hideList).value)
  {
    RowsFailIff(f, lib, out, todos, hideList);
    match Rows(f, lib, out, todos, hideList)
    case Err(e) => Err(e)
    case Ok(rows) => Ok(out.tabulate(rows))
  }

  /** One more todo: the rows so far, extended by its row or cut short by its error. */
  lemma RowsStep(f: Formatter, lib: DateLibrary, out: OutputLibrary, todos: seq<Todo>, hideList: bool, i: nat)
    requires i < |todos| && Rows(f, lib, out, todos[..i], hideList).Ok?
    ensures TodoRow(f, lib, out, todos[i], hideList).Err? ==> Rows(f, lib, out, todos[..i + 1], hideList) == Err(TodoRow(f, lib, out, todos[i], hideList).error)
    ensures TodoRow(f, lib, out, todos[i], hideList).Ok? ==> Rows(f, lib, out, todos[..i + 1], hideList) == Ok(Rows(f, lib, out, todos[..i], hideList).value + [TodoRow(f, lib, out, todos[i], hideList).value])
  {
    assert todos[..i + 1][..i] == todos[..i];
  }

  /** Once a prefix of the todos fails, so do all of them, with the same error. */
  lemma RowsErrorSticks(f: Formatter, lib: DateLibrary, out: OutputLibrary, todos: seq<Todo>, hideList: bool, k: nat)
    requires k <= |todos| && Rows(f, lib, out, todos[..k], hideList).Err?
    ensures Rows(f, lib, out, todos, hideList) == Rows(f, lib, out, todos[..k], hideList)
  {
    CollectErrorSticks(t => TodoRow(f, lib, out, t, hideList), todos, k);
  }

  /** The table text is the error of the rows, or the laid-out rows. */
  lemma TableTextOfRows(f: Formatter, lib: DateLibrary, out: OutputLibrary, todos: seq<Todo>, hideList: bool)
    ensures Rows(f, lib, out, todos, hideList).Err? ==> TableText(f, lib, out, todos, hideList) == Err(Rows(f, lib, out, todos, hideList).error)
    ensures Rows(f, lib, out, todos, hideList).Ok? ==> TableText(f, lib, out, todos, hideList) == Ok(out.tabulate(Rows(f, lib, out, todos, hideList).value))
  {
  }

  /** `compact_multiple`: builds one row per todo in a loop, then lays the table out. */
  method CompactMultiple(f: Formatter, lib: DateLibrary, out: OutputLibrary, todos: seq<Todo>, hideList: bool)
    returns (r: Result<string>)
    ensures f.mode.Porcelain? ==> r == Ok(PorcelainCompactMultiple(f, out, todos))
    ensures !f.mode.Porcelain? ==> r == TableText(f, lib, out, todos, hideList)
  {
    if f.mode.Porcelain? {
      return Ok(PorcelainCompactMultiple(f, out, todos));
    }
    var table: seq<Row> := [];
    var i := 0;
    while i < |todos|
      invariant 0 <= i <= |todos|
      invariant Rows(f, lib, out, todos[..i], hideList) == Ok(table)
    {
      var next := TodoRow(f, lib, out, todos[i], hideList);
      RowsStep(f, lib, out, todos, hideList, i);
      if next.Err? {
        RowsErrorSticks(f, lib, out, todos, hideList, i + 1);
        TableTextOfRows(f, lib, out, todos, hideList);
        return Err(next.error);
      }
      table := table + [next.value];
      i := i + 1;
    }
    assert todos[..i] == todos;
    TableTextOfRows(f, lib, out, todos, hideList);
    r := Ok(out.tabulate(table));
  }

  /** `compact`: the one-todo case of `compact_multiple`, with the list shown. */
  method Compact(f: Formatter, lib: DateLibrary, out: OutputLibrary, todo: Todo) returns (r: Result<string>)
    ensures f.mode.Porcelain? ==> r == Ok(PorcelainCompact(f, out, todo))
    ensures !f.mode.Porcelain? ==> r == TableText(f, lib, out, [todo], false)
  {
    if f.mode.Porcelain? {
      r := Ok(PorcelainCompact(f, out, todo));
    } else {
      r := CompactMultiple(f, lib, out, [todo], false);
    }
  }

  // ------------------------------------------------------------ detailed

  /** Label-on-first-line rows: the heading beside the first line, `None` beside the others. */
  function LabelledLines(heading: string, lines: seq<string>): (rows: seq<Row>)
    ensures |rows| == |lines|
    ensures forall i :: 0 <= i < |rows| ==> |rows[i]| == 2 && rows[i][1] == TextCell(lines[i])
    ensures rows != [] ==> rows[0][0] == TextCell(heading)
    ensures forall i :: 1 <= i < |rows| ==> rows[i][0] == NoneCell
  {
    seq(|lines|, i requires 0 <= i < |lines| => [if i == 0 then TextCell(heading) else NoneCell, TextCell(lines[i])])
  }

  /** `_columnize_list`: nothing for an absent or empty list, else one two-cell row per line. */
  method ColumnizeList(heading: string, lines: Option<seq<string>>) returns (rows: seq<Row>)
    ensures lines.None? || lines.value == [] ==> rows == []
    ensures lines.Some? ==> |rows| == |lines.value|
    ensures forall i :: 0 <= i < |rows| ==> |rows[i]| == 2 && rows[i][1] == TextCell(lines.value[i])
    ensures forall i :: 0 <= i < |rows| ==> rows[i][0] == if i == 0 then TextCell(heading) else NoneCell
    ensures rows == LabelledLines(heading, lines.GetOr([]))
  {
    rows := [];
    if lines.Some? && lines.value != [] {
      var lst := lines.value;
      rows := rows + [[TextCell(heading), TextCell(lst[0])]];
      var k := 1;
      while k < |lst|
        invariant 1 <= k <= |lst|
        invariant |rows| == k
        invariant rows[0] == [TextCell(heading), TextCell(lst[0])]
        invariant forall i :: 1 <= i < k ==> rows[i] == [NoneCell, TextCell(lst[i])]
      {
        rows := rows + [[NoneCell, TextCell(lst[k])]];
        k := k + 1;
      }
    }
  }

  /** The lines of an optional text: nothing when absent or empty, else its `splitlines()`. */
  function TextLines(text: Option<string>): (lines: seq<string>)
    ensures lines == [] <==> text.None? || text.value == ""
  {
    if text.None? || text.value == "" then [] else SplitLines(text.value)
  }

  /** `_columnize_text`: the text split into lines, then columnized. */
  method ColumnizeText(heading: string, text: Option<string>) returns (rows: seq<Row>)
    ensures rows == LabelledLines(heading, TextLines(text))
    ensures rows == [] <==> text.None? || text.value == ""
  {
    var lines: Option<seq<string>> := if text.Some? && text.value != "" then Some(SplitLines(text.value)) else None;
    rows := ColumnizeList(heading, lines);
  }

  /** The secondary table of `detailed`: description rows, then location rows. */
  function ExtraRows(todo: Todo): (rows: seq<Row>)
    ensures |rows| == |TextLines(todo.description)| + |TextLines(todo.location)|
    ensures forall i :: 0 <= i < |rows| ==> |rows[i]| == 2
    ensures TextLines(todo.description) != [] ==> rows[0][0] == TextCell("Description")
    ensures TextLines(todo.description) == [] && TextLines(todo.location) != [] ==> rows[0][0] == TextCell("Location")
    ensures rows[..|TextLines(todo.description)|] == LabelledLines("Description", TextLines(todo.description))
    ensures rows[|TextLines(todo.description)|..] == LabelledLines("Location", TextLines(todo.location))
  {
    LabelledLines("Description", TextLines(todo.description)) + LabelledLines("Location", TextLines(todo.location))
  }

  /** The secondary table is empty exactly when there is neither description nor location text. */
  lemma ExtraRowsEmptyIff(todo: Todo)
    ensures ExtraRows(todo) == []
        <==> (todo.description.None? || todo.description.value == "") && (todo.location.None? || todo.location.value == "")
  {
  }

  /** A description written as newline-terminated lines comes back as exactly those lines, labelled once. */
  lemma DescriptionLines(todo: Todo, lines: seq<string>)
    requires lines != [] && forall k :: 0 <= k < |lines| ==> NoLineBreak(lines[k])
    requires todo.description == Some(Terminated(lines))
          || (lines[|lines| - 1] != "" && todo.description == Some(JoinLines(lines)))
    ensures |ExtraRows(todo)| >= |lines|
    ensures ExtraRows(todo)[0][0] == TextCell("Description")
    ensures forall k :: 0 <= k < |lines| ==> ExtraRows(todo)[k][1] == TextCell(lines[k])
    ensures forall k :: 1 <= k < |lines| ==> ExtraRows(todo)[k][0] == NoneCell
  {
    DescriptionTextLines(todo.description, lines);
    var described := LabelledLines("Description", lines);
    assert ExtraRows(todo) == described + LabelledLines("Location", TextLines(todo.location));
    forall k | 0 <= k < |lines| ensures ExtraRows(todo)[k] == described[k] { }
  }

  lemma DescriptionTextLines(text: Option<string>, lines: seq<string>)
    requires lines != [] && forall k :: 0 <= k < |lines| ==> NoLineBreak(lines[k])
    requires text == Some(Terminated(lines))
          || (lines[|lines| - 1] != "" && text == Some(JoinLines(lines)))
    ensures TextLines(text) == lines
  {
    if text == Some(Terminated(lines)) {
      assert |text.value| >= 1 by {
        assert text.value == lines[0] + "\n" + Terminated(lines[1..]);
      }
      SplitTerminated(lines);
    } else {
      assert |text.value| >= 1 by {
        if |lines| > 1 {
          assert text.value == lines[0] + "\n" + JoinLines(lines[1..]);
        }
      }
      SplitJoined(lines);
    }
  }

  /**
   * `detailed`: the compact rendering, followed by a blank line and the
   * secondary table when there is one; porcelain gives its JSON.
   */
  method Detailed(f: Formatter, lib: DateLibrary, out: OutputLibrary, todo: Todo) returns (r: Result<string>)
    ensures f.mode.Porcelain? ==> r == Ok(PorcelainCompact(f, out, todo))
    ensures !f.mode.Porcelain? && ExtraRows(todo) == [] ==> r == TableText(f, lib, out, [todo], false)
    ensures !f.mode.Porcelain? && ExtraRows(todo) != [] ==>
      r == match TableText(f, lib, out, [todo], false)
           case Err(e) => Err(e)
           case Ok(compact) => Ok(compact + "\n\n" + out.tabulate(ExtraRows(todo)))
  {
    if f.mode.Porcelain? {
      return Ok(PorcelainCompact(f, out, todo));
    }
    var extraRows: seq<Row> := [];
    var description := ColumnizeText("Description", todo.description);
    extraRows := extraRows + description;
    var location := ColumnizeText("Location", todo.location);
    extraRows := extraRows + location;
    assert extraRows == ExtraRows(todo) by {
      assert [] + description == description;
    }
    var compact := Compact(f, lib, out, todo);
    if extraRows != [] {
      r := match compact
           case Err(e) => Err(e)
           case Ok(c) => Ok(c + "\n\n" + out.tabulate(extraRows));
    } else {
      r := compact;
    }
  }

  // ------------------------------------------------------------ porcelain

  const PORCELAIN_KEYS: set<string> := {"completed", "due", "id", "list", "percent", "summary", "priority", "location"}

  /** `None` serialises as JSON null. */
  function OptionalInt(v: Option<int>): (j: Json)
    ensures j.JNull? <==> v.None?
    ensures v.Some? ==> j == JInt(v.value)
  {
    match v
    case None => JNull
    case Some(n) => JInt(n)
  }

  function OptionalString(v: Option<string>): (j: Json)
    ensures j.JNull? <==> v.None?
    ensures v.Some? ==> j == JString(v.value)
  {
    match v
    case None => JNull
    case Some(s) => JString(s)
  }

  /** `_todo_as_dict`: always the same eight keys. */
  function TodoAsDict(f: Formatter, todo: Todo): (d: map<string, Json>)
    ensures d.Keys == PORCELAIN_KEYS
    ensures d["due"].JNull? <==> todo.due.None?
    ensures d["completed"] == JBool(todo.completed) && d["id"] == JInt(todo.id)
    ensures d["due"] == OptionalInt(PorcelainFormatDatetime(f, todo.due))
    ensures d["list"] == JString(todo.list.name) && d["summary"] == JString(todo.summary)
    ensures d["percent"] == OptionalInt(todo.percent) && d["priority"] == OptionalInt(todo.priority)
    ensures d["location"] == OptionalString(todo.location)
  {
    map[
      "completed" := JBool(todo.completed),
      "due" := OptionalInt(PorcelainFormatDatetime(f, todo.due)),
      "id" := JInt(todo.id),
      "list" := JString(todo.list.name),
      "percent" := OptionalInt(todo.percent),
      "summary" := JString(todo.summary),
      "priority" := OptionalInt(todo.priority),
      "location" := OptionalString(todo.location)]
  }

  /** The serialised `due` of a date-time due is read back by porcelain input as the same instant (unless it is 0). */
  lemma DictDueReadable(f: Formatter, todo: Todo)
    requires todo.due.Some? && todo.due.value.At? && Instant(todo.due.value.dateTime) != 0
    ensures TodoAsDict(f, todo)["due"].JInt?
    ensures PorcelainParseDatetime(Some(TodoAsDict(f, todo)["due"].i)).Some?
    ensures Instant(PorcelainParseDatetime(Some(TodoAsDict(f, todo)["due"].i)).value) == Instant(todo.due.value.dateTime)
  {
  }

  /** The priority a porcelain dict carries is what the porcelain priority parser reads back. */
  lemma DictPriorityReadable(f: Formatter, todo: Todo)
    requires todo.priority.Some? && 0 <= todo.priority.value <= 9
    ensures TodoAsDict(f, todo)["priority"] == JInt(todo.priority.value)
    ensures ParsePriorityNumber(Some(IntToString(todo.priority.value))) == Ok(todo.priority)
  {
    NumberRoundTrip(todo.priority.value);
  }

  /** The porcelain `compact`, `simple_action` and `detailed`: the todo's dict as JSON. */
  function PorcelainCompact(f: Formatter, out: OutputLibrary, todo: Todo): (r: string)
    ensures exists d: map<string, Json> :: d.Keys == PORCELAIN_KEYS && d["id"] == JInt(todo.id) && r == out.dumps(JObject(d))
    ensures r == out.dumps(JObject(TodoAsDict(f, todo)))
  {
    var d := TodoAsDict(f, todo);
    assert d.Keys == PORCELAIN_KEYS && d["id"] == JInt(todo.id);
    out.dumps(JObject(d))
  }

  /** The dicts of a list of todos, in order. */
  function PorcelainItems(f: Formatter, todos: seq<Todo>): (items: seq<Json>)
    ensures |items| == |todos|
    ensures forall i :: 0 <= i < |todos| ==> items[i] == JObject(TodoAsDict(f, todos[i]))
  {
    if todos == [] then [] else [JObject(TodoAsDict(f, todos[0]))] + PorcelainItems(f, todos[1..])
  }

  /** The porcelain `compact_multiple`: the list of dicts as JSON. */
  function PorcelainCompactMultiple(f: Formatter, out: OutputLibrary, todos: seq<Todo>): (r: string)
    ensures exists items: seq<Json> :: |items| == |todos| && r == out.dumps(JArray(items))
    ensures r == out.dumps(JArray(PorcelainItems(f, todos)))
  {
    var items := PorcelainItems(f, todos);
    out.dumps(JArray(items))
  }

  /** In the porcelain variant the one-todo renderings coincide. */
  method PorcelainRenderingsCoincide(f: Formatter, lib: DateLibrary, out: OutputLibrary, action: string, todo: Todo)
    returns (compact: Result<string>, detailed: Result<string>)
    requires f.mode.Porcelain?
    ensures compact == detailed == Ok(SimpleAction(f, out, action, todo))
  {
    compact := Compact(f, lib, out, todo);
    detailed := Detailed(f, lib, out, todo);
  }

  // ------------------------------------------------------------ variant dispatch

  /** `parse_priority` of the variant: names for default and humanized, integers for porcelain. */
  function ParsePriority(f: Formatter, priority: Option<string>): (r: Result<Option<int>>)
    ensures r.Ok? && r.value.Some? ==> 0 <= r.value.value <= 9
    ensures f.mode.Porcelain? ==> r == ParsePriorityNumber(priority)
    ensures !f.mode.Porcelain? ==> r == ParsePriorityName(priority)
  {
    if f.mode.Porcelain? then ParsePriorityNumber(priority) else ParsePriorityName(priority)
  }
}
