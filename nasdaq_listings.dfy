/** Stage 0 (screen/iterations/nasdaq_listings.py): the listing of all
    NASDAQ-screener symbols, reduced to four columns and cleaned of
    symbols with '/' or '^'. The HTTP request is replaced by its outcome,
    supplied by the caller. */
module NasdaqListings {
  import opened Json
  import opened Wrappers
  import opened Workspace
  import opened Outfiles
  import opened Cache
  import opened Stage

  const StageName: string := "nasdaq_listings"

  /** The response rows as `pd.DataFrame.from_dict` lays them out: the
      columns in order, and each row's cells (a missing cell reads as
      null). */
  datatype Frame = Frame(columns: seq<string>, rows: seq<Row>)

  /** What the request yields: a timeout, another exception on the way
      to the rows (a connection failure, a body that is not JSON, a body
      without `data.rows`), which escapes the stage unchanged, or the
      parsed rows. */
  datatype Response = TimedOut | Failed(error: PyError) | Received(frame: Frame)

  /** The columns dropped from the response. */
  const DroppedColumns: seq<string> :=
    ["sector", "url", "lastsale", "netchange", "pctchange", "volume", "country", "ipoyear"]

  /** The names given, by position, to the columns that remain. */
  const ListingColumns: seq<string> := ["Symbol", "Company Name", "Market Cap", "Industry"]

  /** `df.drop(columns=dropped)`: the remaining columns in order, or the
      KeyError for a dropped column that is not there. */
  function DropColumns(columns: seq<string>, dropped: seq<string>): (r: Result<seq<string>, PyError>)
    ensures r.Ok? <==> forall c :: c in dropped ==> c in columns
    ensures r.Ok? ==> forall c :: c in r.value <==> c in columns && c !in dropped
    ensures r.Err? ==> exists c :: c in dropped && c !in columns && r.error == KeyError(Str(c))
  {
    match FirstMissing(columns, dropped)
    case Some(c) => Err(KeyError(Str(c)))
    case None => Ok(Remaining(columns, dropped))
  }

  /** The first of `dropped` that is not among `columns`. */
  function FirstMissing(columns: seq<string>, dropped: seq<string>): (m: Option<string>)
    ensures m.None? <==> forall c :: c in dropped ==> c in columns
    ensures m.Some? ==> m.value in dropped && m.value !in columns
  {
    if dropped == [] then None
    else if dropped[0] !in columns then Some(dropped[0])
    else FirstMissing(columns, dropped[1..])
  }

  /** `columns` without the `dropped` ones, order kept. */
  function Remaining(columns: seq<string>, dropped: seq<string>): (r: seq<string>)
    ensures forall c :: c in r <==> c in columns && c !in dropped
    ensures |r| <= |columns|
  {
    if columns == [] then []
    else if columns[0] in dropped then Remaining(columns[1..], dropped)
    else [columns[0]] + Remaining(columns[1..], dropped)
  }

  /** `df.columns = ListingColumns`: renaming by position, which raises
      when the number of remaining columns is not four. */
  function RenameColumns(remaining: seq<string>, rows: seq<Row>): (r: Result<Table, PyError>)
    ensures r.Ok? <==> |remaining| == |ListingColumns|
    ensures r.Err? ==> r.error == LengthMismatch
    ensures r.Ok? ==> (|r.value| == |rows| &&
      forall i, k :: 0 <= i < |rows| && 0 <= k < |ListingColumns| ==>
        ListingColumns[k] in r.value[i] && r.value[i][ListingColumns[k]] == Cell(rows[i], remaining[k]))
  {
    if |remaining| != |ListingColumns| then Err(LengthMismatch)
    else Ok(seq(|rows|, i requires 0 <= i < |rows| =>
      map["Symbol" := Cell(rows[i], remaining[0]),
          "Company Name" := Cell(rows[i], remaining[1]),
          "Market Cap" := Cell(rows[i], remaining[2]),
          "Industry" := Cell(rows[i], remaining[3])]))
  }

  /** A row survives the clean-up unless its symbol text contains '/' or
      '^'. A non-text symbol contains neither. */
  predicate SymbolAllowed(row: Row) {
    var s := Cell(row, "Symbol");
    !(s.Str? && ('/' in s.s || '^' in s.s))
  }

  /** The boolean-mask selection of line 69. */
  function FilterSymbols(t: Table): (r: Table)
    ensures |r| <= |t|
  {
    if t == [] then []
    else if SymbolAllowed(t[0]) then [t[0]] + FilterSymbols(t[1..])
    else FilterSymbols(t[1..])
  }

  /** The selection keeps exactly the allowed rows: every row it returns
      is allowed and came from the input, and every allowed input row is
      returned. */
  lemma {:induction false} FilterSymbolsKeepsAllowed(t: Table)
    ensures forall r :: r in FilterSymbols(t) <==> r in t && SymbolAllowed(r)
  {
    if t != [] {
      FilterSymbolsKeepsAllowed(t[1..]);
      assert t == [t[0]] + t[1..];
    }
  }

  /** The selection keeps the original order: it distributes over
      concatenation, so the rows that survive appear in the order they
      had. */
  lemma {:induction false} FilterSymbolsKeepsOrder(a: Table, b: Table)
    ensures FilterSymbols(a + b) == FilterSymbols(a) + FilterSymbols(b)
  {
    if a == [] {
      assert a + b == b;
    } else {
      assert (a + b)[0] == a[0];
      assert (a + b)[1..] == a[1..] + b;
      FilterSymbolsKeepsOrder(a[1..], b);
    }
  }

  /** No symbol in the output contains '/' or '^'. */
  lemma CleanSymbols(t: Table)
    ensures forall r: Row :: r in FilterSymbols(t) && "Symbol" in r && r["Symbol"].Str? ==>
      '/' !in r["Symbol"].s && '^' !in r["Symbol"].s
  {
    FilterSymbolsKeepsAllowed(t);
  }

  /** The table the compute path writes, from the response rows. */
  function Listings(f: Frame): Result<Table, PyError> {
    match DropColumns(f.columns, DroppedColumns)
    case Err(e) => Err(e)
    case Ok(remaining) =>
      match RenameColumns(remaining, f.rows)
      case Err(e) => Err(e)
      case Ok(renamed) => Ok(FilterSymbols(renamed))
  }

  /** Dropping distributes over a split of the column list. */
  lemma {:induction false} RemainingConcat(a: seq<string>, b: seq<string>, dropped: seq<string>)
    ensures Remaining(a + b, dropped) == Remaining(a, dropped) + Remaining(b, dropped)
  {
    if a == [] {
      assert a + b == b;
    } else {
      assert (a + b)[0] == a[0];
      assert (a + b)[1..] == a[1..] + b;
      RemainingConcat(a[1..], b, dropped);
    }
  }

  /** The twelve columns of the NASDAQ screener's rows, in order. */
  const ScreenerColumns: seq<string> := ScreenerHead + ScreenerMiddle + ScreenerTail
  const ScreenerHead: seq<string> := ["symbol", "name", "lastsale", "netchange", "pctchange", "volume"]
  const ScreenerMiddle: seq<string> := ["marketCap", "country", "ipoyear"]
  const ScreenerTail: seq<string> := ["industry", "sector", "url"]

  /** Every dropped column is one of the screener's. */
  lemma ScreenerColumnsHaveDropped()
    ensures FirstMissing(ScreenerColumns, DroppedColumns).None?
  {
    var c := ScreenerColumns;
    assert c[10] == DroppedColumns[0] && c[11] == DroppedColumns[1] && c[2] == DroppedColumns[2];
    assert c[3] == DroppedColumns[3] && c[4] == DroppedColumns[4] && c[5] == DroppedColumns[5];
    assert c[7] == DroppedColumns[6] && c[8] == DroppedColumns[7];
  }

  lemma KeptColumn(col: string)
    requires col in ["symbol", "name", "marketCap", "industry"]
    ensures Remaining([col], DroppedColumns) == [col]
  {
  }

  lemma {:induction false} AllDropped(cols: seq<string>, dropped: seq<string>)
    requires forall k :: 0 <= k < |cols| ==> cols[k] in dropped
    ensures Remaining(cols, dropped) == []
  {
    if cols != [] {
      AllDropped(cols[1..], dropped);
    }
  }

  /** After the drop, the screener's columns symbol, name, marketCap and
      industry remain, in that order. */
  lemma ScreenerColumnsRemaining()
    ensures Remaining(ScreenerColumns, DroppedColumns) == ["symbol", "name", "marketCap", "industry"]
  {
    HeadColumns(ScreenerHead);
    MidColumns(ScreenerMiddle);
    TailColumns(ScreenerTail);
    LayoutRemaining(ScreenerHead, ScreenerMiddle, ScreenerTail);
  }

  lemma LayoutRemaining(head: seq<string>, mid: seq<string>, tail: seq<string>)
    requires Remaining(head, DroppedColumns) == ["symbol", "name"]
    requires Remaining(mid, DroppedColumns) == ["marketCap"]
    requires Remaining(tail, DroppedColumns) == ["industry"]
    ensures Remaining(head + mid + tail, DroppedColumns) == ["symbol", "name", "marketCap", "industry"]
  {
    RemainingConcat(head + mid, tail, DroppedColumns);
    RemainingConcat(head, mid, DroppedColumns);
  }

  lemma HeadColumns(head: seq<string>)
    requires head == ["symbol", "name", "lastsale", "netchange", "pctchange", "volume"]
    ensures Remaining(head, DroppedColumns) == ["symbol", "name"]
  {
    assert head == [head[0]] + ([head[1]] + head[2..]);
    KeptColumn(head[0]);
    KeptColumn(head[1]);
    AllDropped(head[2..], DroppedColumns);
    RemainingConcat([head[1]], head[2..], DroppedColumns);
    RemainingConcat([head[0]], [head[1]] + head[2..], DroppedColumns);
  }

  lemma MidColumns(mid: seq<string>)
    requires mid == ["marketCap", "country", "ipoyear"]
    ensures Remaining(mid, DroppedColumns) == ["marketCap"]
  {
    assert mid == [mid[0]] + mid[1..];
    KeptColumn(mid[0]);
    AllDropped(mid[1..], DroppedColumns);
    RemainingConcat([mid[0]], mid[1..], DroppedColumns);
  }

  lemma TailColumns(tail: seq<string>)
    requires tail == ["industry", "sector", "url"]
    ensures Remaining(tail, DroppedColumns) == ["industry"]
  {
    assert tail == [tail[0]] + tail[1..];
    KeptColumn(tail[0]);
    AllDropped(tail[1..], DroppedColumns);
    RemainingConcat([tail[0]], tail[1..], DroppedColumns);
  }

  /** The screener's twelve-column layout yields the four listing columns
      filled from symbol, name, marketCap and industry. */
  lemma ListingsOfScreenerLayout(rows: seq<Row>)
    ensures var renamed := RenameColumns(["symbol", "name", "marketCap", "industry"], rows);
      renamed.Ok? && Listings(Frame(ScreenerColumns, rows)) == Ok(FilterSymbols(renamed.value)) &&
      forall i :: 0 <= i < |rows| ==>
        renamed.value[i]["Symbol"] == Cell(rows[i], "symbol") &&
        renamed.value[i]["Company Name"] == Cell(rows[i], "name") &&
        renamed.value[i]["Market Cap"] == Cell(rows[i], "marketCap") &&
        renamed.value[i]["Industry"] == Cell(rows[i], "industry")
  {
    ScreenerColumnsHaveDropped();
    ScreenerColumnsRemaining();
    var renamed := RenameColumns(["symbol", "name", "marketCap", "industry"], rows);
    forall i | 0 <= i < |rows|
      ensures renamed.value[i]["Symbol"] == Cell(rows[i], "symbol")
      ensures renamed.value[i]["Company Name"] == Cell(rows[i], "name")
      ensures renamed.value[i]["Market Cap"] == Cell(rows[i], "marketCap")
      ensures renamed.value[i]["Industry"] == Cell(rows[i], "industry")
    {
      assert ListingColumns[0] == "Symbol" && ListingColumns[1] == "Company Name";
      assert ListingColumns[2] == "Market Cap" && ListingColumns[3] == "Industry";
    }
  }

  /** The stage body. `requested` tells whether the request was made. */
  method RunNasdaqListings(dir: JsonDir, ctx: Context, response: Response)
    returns (r: Result<Table, PyError>, requested: bool)
    requires dir.Valid()
    modifies dir
    ensures dir.Valid()
    ensures old(Skips(dir, ctx, StageName)) ==>
      !requested && r == old(OpenOutfile(dir, StageName)) && r.Ok? &&
      dir.files == old(dir.files) && dir.ledger == old(dir.ledger)
    ensures !old(Skips(dir, ctx, StageName)) ==> requested
    ensures !old(Skips(dir, ctx, StageName)) && response.TimedOut? ==>
      r == Err(SystemExit) && dir.files == old(dir.files) && dir.ledger == old(dir.ledger)
    ensures !old(Skips(dir, ctx, StageName)) && response.Failed? ==>
      r == Err(response.error) && dir.files == old(dir.files) && dir.ledger == old(dir.ledger)
    ensures !old(Skips(dir, ctx, StageName)) && response.Received? && Listings(response.frame).Err? ==>
      r == Listings(response.frame) && dir.files == old(dir.files) && dir.ledger == old(dir.ledger)
    ensures !old(Skips(dir, ctx, StageName)) && response.Failed? ==>
      r == Err(response.error) && dir.files == old(dir.files) && dir.ledger == old(dir.ledger)
    ensures !old(Skips(dir, ctx, StageName)) && response.Received? && Listings(response.frame).Ok? ==>
      dir.files == old(dir.files)[OutfilePath(StageName) := Listings(response.frame).value] &&
      (r.Ok? ==> r == Listings(response.frame))
    ensures Current(old(dir.ledger), ctx.Hash(), ctx.today) && r.Ok? ==>
      Current(dir.ledger, ctx.Hash(), ctx.today) && Skips(dir, ctx, StageName) &&
      OpenOutfile(dir, StageName) == r
    ensures (Current(old(dir.ledger), ctx.Hash(), ctx.today) && response.Received? &&
             Listings(response.frame).Ok?) ==> r.Ok?
    ensures forall other :: old(Skips(dir, ctx, other)) ==> Skips(dir, ctx, other)
  {
    if Skips(dir, ctx, StageName) {
      return OpenOutfile(dir, StageName), false;
    }
    requested := true;
    if response.TimedOut? {
      return Err(SystemExit), requested;
    }
    if response.Failed? {
      return Err(response.error), requested;
    }
    var df := Listings(response.frame);
    if df.Err? {
      return df, requested;
    }
    var marked := Commit(dir, ctx, StageName, df.value);
    ReadAfterWrite(old(dir.files), StageName, df.value, StageName);
    if marked.Err? {
      r := Err(marked.error);
    } else {
      r := df;
    }
  }
}
