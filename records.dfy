/**
 * The records the formatters read (todos and their lists), the cells of a
 * rendered table, the JSON values of porcelain output, and the layout and
 * serialisation libraries, which enter as functions.
 */
module Records {
  import opened Wrappers
  import opened Moments

  /** A list (calendar) a todo belongs to. */
  datatype Database = Database(name: string, colour: Option<string>)

  datatype Todo = Todo(
    id: int,
    summary: string,
    description: Option<string>,
    location: Option<string>,
    due: Option<Moment>,
    percent: Option<int>,
    priority: Option<int>,
    completed: bool,
    recurring: bool,
    list: Database)

  /** A table cell: the todo's id, some text, or Python's `None`. */
  datatype Cell = IntCell(n: int) | TextCell(text: string) | NoneCell

  type Row = seq<Cell>

  datatype Json =
    | JNull
    | JBool(b: bool)
    | JInt(i: int)
    | JString(s: string)
    | JObject(fields: map<string, Json>)
    | JArray(items: seq<Json>)

  datatype OutputLibrary = OutputLibrary(
    style: string -> string,         // click.style(text)
    styleRed: string -> string,      // click.style(text, fg='red')
    tabulate: seq<Row> -> string,    // tabulate(rows, tablefmt='plain')
    dumps: Json -> string)           // json.dumps(value, indent=4, sort_keys=True)
}
