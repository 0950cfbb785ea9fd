/** The `json/` directory under the working directory, which both the
    ledger code (cache.py) and the artifact store (outfiles.py) address:
    the ledger file `json/cache_settings.json` and one
    `json/<stage>.json` artifact per stage. Also the tables stored there
    and the Python exceptions that the modelled code lets escape. */
module Workspace {
  import opened Json
  import opened Wrappers

  /** One record of a stage's table: column name to cell. */
  type Row = map<string, Json>

  /** A stage's persisted output, in row order. */
  type Table = seq<Row>

  /** Whether a table has a column of that name: some row has the key;
      in the rows that lack it the column holds NaN. */
  predicate HasColumn(t: Table, column: string) {
    exists i :: 0 <= i < |t| && column in t[i]
  }

  /** A cell of a row, NaN (`Null`) where the row lacks the column. */
  function Cell(row: Row, column: string): Json {
    if column in row then row[column] else Null
  }

  /** The columns of a table: every key that some row has. */
  function Columns(t: Table): (cs: set<string>)
    ensures forall c :: c in cs <==> HasColumn(t, c)
  {
    if |t| == 0 then {}
    else
      var init := t[..|t| - 1];
      var cs := Columns(init) + t[|t| - 1].Keys;
      assert forall c :: HasColumn(init, c) ==> HasColumn(t, c) by {
        forall c | HasColumn(init, c) ensures HasColumn(t, c) {
          var i :| 0 <= i < |init| && c in init[i];
          assert t[i] == init[i];
        }
      }
      assert forall c :: HasColumn(t, c) ==> c in cs by {
        forall c | HasColumn(t, c) ensures c in cs {
          var i :| 0 <= i < |t| && c in t[i];
          if i < |t| - 1 {
            assert init[i] == t[i];
          }
        }
      }
      cs
  }

  /** `df.iloc[i]` for every row of a frame: each row holds every column
      of the frame, NaN where it had no value, so a row lookup raises
      exactly when the frame lacks the column. */
  function Iloc(t: Table): (r: Table)
    ensures |r| == |t|
    ensures forall i, c :: 0 <= i < |t| ==> (c in r[i] <==> HasColumn(t, c))
    ensures forall i, c :: 0 <= i < |t| && c in r[i] ==> r[i][c] == Cell(t[i], c)
  {
    var cs := Columns(t);
    seq(|t|, i requires 0 <= i < |t| => map c | c in cs :: Cell(t[i], c))
  }

  /** A number as Python's ordering comparisons and `isinstance(x, (int,
      float))` see a cell: ints, floats and booleans. NaN (`Null`) is a
      float, but it compares false with everything and is handled by the
      callers. */
  function AsNumber(j: Json): Option<real> {
    match j
    case Int(i) => Some(i as real)
    case Float(f) => Some(f)
    case Bool(b) => Some(if b then 1.0 else 0.0)
    case _ => None
  }

  /** The ledger object as `json.load` returns it. Any of its four keys
      may be missing from a file that parses; `None` stands for a missing
      key. */
  datatype Entry = Entry(
    settings: Option<seq<Field>>,
    settingsHash: Option<string>,
    timestamp: Option<string>,
    completed: Option<seq<string>>)

  /** The ledger file: absent, present but not valid JSON, or parsed. */
  datatype LedgerFile = Missing | Corrupt | Parsed(entry: Entry)

  /** Exceptions that escape the modelled code and end the run. */
  datatype PyError =
    | FileNotFound(path: string)   // reading a file that does not exist
    | KeyError(key: Json)          // a dict or row lookup of a missing key
    | TypeError                    // an ordering comparison with a non-number
    | LengthMismatch               // renaming columns with a list of the wrong length
    | ZeroStep                     // `range` called with step 0
    | SystemExit                   // raised after the NASDAQ request timed out
    | JsonDecodeError              // a file that does not parse, read outside any handler
    | RequestError                 // an HTTP request that fails other than by a timeout

  /** The directory and the files in it. Artifacts are keyed by their
      path relative to the working directory. */
  class JsonDir {
    var dirExists: bool
    var ledger: LedgerFile
    var files: map<string, Table>

    /** No file can be present in a directory that does not exist. */
    ghost predicate Valid()
      reads this
    {
      !dirExists ==> files == map[] && ledger == Missing
    }

    /** A fresh checkout: no `json/` directory yet. */
    constructor ()
      ensures Valid() && !dirExists && files == map[] && ledger == Missing
    {
      dirExists := false;
      ledger := Missing;
      files := map[];
    }
  }
}
