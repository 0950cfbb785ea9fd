/** Stage 4 (screen/iterations/revenue_growth.py): keep the stocks whose
    revenue grew by at least `min_growth_percent` over the same quarter a
    year earlier, in each of the last two reported quarters, unless their
    RS rating reaches `protected_rs`. The revenue helpers of
    screen/iterations/utils are supplied by the caller. */
module RevenueGrowth {
  import opened Json
  import opened Wrappers
  import opened Workspace
  import opened Outfiles
  import opened Cache
  import opened Stage
  import Settings

  const StageName: string := "revenue_growth"
  /** The predecessor whose artifact this stage reads. */
  const InputName: string := "trend"

  /** One row of a symbol's revenue table: its reporting frame (the
      `frame` cell) and the remaining cells, which only the revenue
      helpers look at. */
  datatype RevenueRow = RevenueRow(frame: Option<string>, cells: Row)

  /** What `fetch_all_revenues` holds for a symbol: nothing, the
      foreign-stock marker, or the table of reports in date order. */
  datatype RevenueReport = NoReport | ForeignMarker | Reports(rows: seq<RevenueRow>)

  /** `previous_timeframe`, `extract_revenue` and `percent_change`. */
  datatype Helpers = Helpers(
    previousTimeframe: string -> string,
    extractRevenue: (string, seq<RevenueRow>) -> Option<real>,
    percentChange: (real, real) -> real)

  /** The dictionary `revenue_growth` returns. */
  datatype Growth = Growth(current: real, previous: real, growth: real)

  /** `revenue_growth(timeframe, df)`: the growth of the quarter against
      the same quarter a year earlier, or nothing when the timeframe or a
      revenue is missing or the earlier revenue is not positive. */
  function RevenueGrowthOf(h: Helpers, timeframe: Option<string>, rows: seq<RevenueRow>): (g: Option<Growth>)
    ensures g.Some? <==>
      timeframe.Some? &&
      h.extractRevenue(timeframe.value, rows).Some? &&
      h.extractRevenue(h.previousTimeframe(timeframe.value), rows).Some? &&
      h.extractRevenue(h.previousTimeframe(timeframe.value), rows).value > 0.0
    ensures g.Some? ==>
      g.value.current == h.extractRevenue(timeframe.value, rows).value &&
      g.value.previous == h.extractRevenue(h.previousTimeframe(timeframe.value), rows).value
    ensures g.Some? ==> g.value.previous > 0.0 && g.value.growth == h.percentChange(g.value.previous, g.value.current)
  {
    if timeframe.None? then None
    else
      var prevTimeframe := h.previousTimeframe(timeframe.value);
      var revenue := h.extractRevenue(timeframe.value, rows);
      var prevRevenue := h.extractRevenue(prevTimeframe, rows);
      if revenue.None? || prevRevenue.None? || prevRevenue.value <= 0.0 then None
      else Some(Growth(revenue.value, prevRevenue.value, h.percentChange(prevRevenue.value, revenue.value)))
  }

  /** What `extract_comparison_revenues` returns: nothing, the foreign
      marker, the latest quarter only, or both of the latest two. */
  datatype Comparison = Insufficient | Foreign | OnlyQ2(q2: Growth) | BothQuarters(q1: Growth, q2: Growth) {
    predicate HasQ2() { OnlyQ2? || BothQuarters? }
  }

  /** The frame of the `k`-th row from the end, if there is one. */
  function FrameFromEnd(rows: seq<RevenueRow>, k: nat): Option<string>
    requires k >= 1
  {
    if |rows| >= k then rows[|rows| - k].frame else None
  }

  /** `extract_comparison_revenues`, given the symbol's report. */
  function ExtractComparisonRevenues(h: Helpers, report: RevenueReport): Comparison {
    match report
    case NoReport => Insufficient
    case ForeignMarker => Foreign
    case Reports(rows) =>
      var q1 := RevenueGrowthOf(h, FrameFromEnd(rows, 2), rows);
      var q2 := RevenueGrowthOf(h, FrameFromEnd(rows, 1), rows);
      if q2.None? then Insufficient
      else if q1.None? then OnlyQ2(q2.value)
      else BothQuarters(q1.value, q2.value)
  }

  /** Q2 is the last report and Q1 the one before it; a table with fewer
      than two reports never yields Q1, and an empty one yields nothing. */
  lemma ComparisonUsesLastTwoReports(h: Helpers, rows: seq<RevenueRow>)
    ensures var c := ExtractComparisonRevenues(h, Reports(rows));
      (c.HasQ2() ==> |rows| >= 1 && Some(c.q2) == RevenueGrowthOf(h, rows[|rows| - 1].frame, rows)) &&
      (c.BothQuarters? ==> |rows| >= 2 && Some(c.q1) == RevenueGrowthOf(h, rows[|rows| - 2].frame, rows)) &&
      (c.OnlyQ2? ==> RevenueGrowthOf(h, FrameFromEnd(rows, 2), rows).None?) &&
      (c == Insufficient <==> RevenueGrowthOf(h, FrameFromEnd(rows, 1), rows).None?) &&
      (|rows| == 0 ==> c == Insufficient) &&
      (|rows| == 1 ==> !c.BothQuarters?)
  {
  }

  /** `rs < protected_rs`: a number compares, NaN (`Null`) compares
      false, and any other cell makes the comparison raise. */
  function RsBelowProtected(rs: Json): (r: Result<bool, PyError>)
    ensures r.Err? <==> rs != Null && AsNumber(rs).None?
    ensures r.Err? ==> r.error == TypeError
    ensures r == Ok(true) <==> AsNumber(rs).Some? && AsNumber(rs).value < Settings.ProtectedRs as real
  {
    if rs == Null then Ok(false)
    else match AsNumber(rs)
      case None => Err(TypeError)
      case Some(x) => Ok(x < Settings.ProtectedRs as real)
  }

  /** The row-to-row copies of a passing stock, in the order the result
      dictionary reads them. */
  const CopiedColumns: seq<string> :=
    ["Company Name", "Industry", "Price", "Market Cap", "50-day Average Volume", "% Below 52-week High"]

  /** The first of `keys` that `row` lacks. */
  function MissingKey(row: Row, keys: seq<string>): (m: Option<string>)
    ensures m.None? <==> forall k :: k in keys ==> k in row
    ensures m.Some? ==> m.value in keys && m.value !in row
  {
    if keys == [] then None
    else if keys[0] !in row then Some(keys[0])
    else MissingKey(row, keys[1..])
  }

  /** The outcome of screening one row. */
  datatype Verdict =
    | Failed(symbol: Json)  // insufficient revenue data
    | SkippedForeign        // neither failed nor passed
    | Filtered              // growth too low and RS below the bypass rating
    | Passed(row: Row)      // the record appended to the successes

  /** The record of a passing stock. */
  function PassedRow(row: Row, symbol: Json, rs: Json, c: Comparison): Row
    requires c.HasQ2()
    requires forall k :: k in CopiedColumns ==> k in row
  {
    map[
      "Symbol" := symbol,
      "Company Name" := row["Company Name"],
      "Industry" := row["Industry"],
      "RS" := rs,
      "Price" := row["Price"],
      "Market Cap" := row["Market Cap"],
      "Revenue Growth % (most recent Q)" := Float(c.q2.growth),
      "Revenue Growth % (previous Q)" := if c.OnlyQ2? then Str("N/A") else Float(c.q1.growth),
      "50-day Average Volume" := row["50-day Average Volume"],
      "% Below 52-week High" := row["% Below 52-week High"]
    ]
  }

  /** Whether the growth figures alone would filter the stock out, before
      the RS rating is looked at. */
  predicate LowGrowth(c: Comparison)
    requires c.HasQ2()
  {
    c.q2.growth < Settings.MinGrowthPercent as real ||
    (c.BothQuarters? && c.q1.growth < Settings.MinGrowthPercent as real)
  }

  /** `screen_revenue_growth` for one row `df.iloc[i]` (see `Iloc`: it
      holds every column of the frame), given the fetched revenue data:
      its verdict, or the exception that escapes it. The RS rating is
      compared only when a growth figure is too low. */
  function ScreenRevenueGrowth(h: Helpers, row: Row, revenueData: map<Json, RevenueReport>): Result<Verdict, PyError> {
    if "Symbol" !in row then Err(KeyError(Str("Symbol")))
    else if "RS" !in row then Err(KeyError(Str("RS")))
    else
      var symbol, rs := row["Symbol"], row["RS"];
      if symbol !in revenueData then Err(KeyError(symbol))
      else
        var c := ExtractComparisonRevenues(h, revenueData[symbol]);
        if c == Insufficient then Ok(Failed(symbol))
        else if c == Foreign then Ok(SkippedForeign)
        else if LowGrowth(c) && RsBelowProtected(rs).Err? then Err(TypeError)
        else if LowGrowth(c) && RsBelowProtected(rs).value then Ok(Filtered)
        else match MissingKey(row, CopiedColumns)
          case Some(k) => Err(KeyError(Str(k)))
          case None => Ok(Passed(PassedRow(row, symbol, rs, c)))
  }

  /** The pass rule: a screened stock with growth data passes iff its RS
      rating is not a number below `protected_rs` (a NaN rating never
      is), or its latest growth reaches `min_growth_percent` and so does
      the previous quarter's when there is one. Missing data fails the
      stock; a foreign stock is neither failed nor passed. The rating is
      compared only when a growth figure is low, and only then does a
      non-numeric rating raise. */
  lemma PassRule(h: Helpers, row: Row, revenueData: map<Json, RevenueReport>)
    requires "Symbol" in row && "RS" in row && row["Symbol"] in revenueData
    requires forall k :: k in CopiedColumns ==> k in row
    ensures var c := ExtractComparisonRevenues(h, revenueData[row["Symbol"]]);
      var v := ScreenRevenueGrowth(h, row, revenueData);
      var rs := row["RS"];
      var min := Settings.MinGrowthPercent as real;
      var growthOk := c.HasQ2() && c.q2.growth >= min && (c.OnlyQ2? || c.q1.growth >= min);
      var below := AsNumber(rs).Some? && AsNumber(rs).value < Settings.ProtectedRs as real;
      (v.Err? <==> c.HasQ2() && !growthOk && rs != Null && AsNumber(rs).None?) &&
      (v.Err? ==> v.error == TypeError) &&
      (v.Ok? ==>
        (v.value.Failed? <==> c == Insufficient) &&
        (v.value == SkippedForeign <==> c == Foreign) &&
        (c.HasQ2() ==> (v.value.Passed? <==> !below || growthOk)))
  {
  }

  /** A NaN rating never filters a stock out: with growth data it
      passes, however low the growth. */
  lemma NanRsPasses(h: Helpers, row: Row, revenueData: map<Json, RevenueReport>)
    requires "Symbol" in row && "RS" in row && row["Symbol"] in revenueData && row["RS"] == Null
    requires forall k :: k in CopiedColumns ==> k in row
    requires ExtractComparisonRevenues(h, revenueData[row["Symbol"]]).HasQ2()
    ensures ScreenRevenueGrowth(h, row, revenueData).Ok?
    ensures ScreenRevenueGrowth(h, row, revenueData).value.Passed?
  {
    PassRule(h, row, revenueData);
  }

  /** A passing record carries the latest growth, "N/A" exactly when
      there is no previous quarter, and the row's own cells. */
  lemma PassedRecord(h: Helpers, row: Row, revenueData: map<Json, RevenueReport>)
    requires ScreenRevenueGrowth(h, row, revenueData).Ok?
    requires ScreenRevenueGrowth(h, row, revenueData).value.Passed?
    ensures var c := ExtractComparisonRevenues(h, revenueData[row["Symbol"]]);
      var out := ScreenRevenueGrowth(h, row, revenueData).value.row;
      c.HasQ2() &&
      out["Revenue Growth % (most recent Q)"] == Float(c.q2.growth) &&
      (out["Revenue Growth % (previous Q)"] == Str("N/A") <==> c.OnlyQ2?) &&
      out["Symbol"] == row["Symbol"] && out["RS"] == row["RS"] &&
      forall k :: k in CopiedColumns ==> out[k] == row[k]
  {
    var c := ExtractComparisonRevenues(h, revenueData[row["Symbol"]]);
    assert ScreenRevenueGrowth(h, row, revenueData).value.row == PassedRow(row, row["Symbol"], row["RS"], c);
    PassedRowCells(row, row["Symbol"], row["RS"], c);
    PassedRowCopies(row, row["Symbol"], row["RS"], c);
  }

  lemma PassedRowCells(row: Row, symbol: Json, rs: Json, c: Comparison)
    requires c.HasQ2()
    requires forall k :: k in CopiedColumns ==> k in row
    ensures var out := PassedRow(row, symbol, rs, c);
      out["Revenue Growth % (most recent Q)"] == Float(c.q2.growth) &&
      (out["Revenue Growth % (previous Q)"] == Str("N/A") <==> c.OnlyQ2?) &&
      out["Symbol"] == symbol && out["RS"] == rs
  {
  }

  lemma PassedRowCopies(row: Row, symbol: Json, rs: Json, c: Comparison)
    requires c.HasQ2()
    requires forall k :: k in CopiedColumns ==> k in row
    ensures var out := PassedRow(row, symbol, rs, c);
      forall k :: k in CopiedColumns ==> out[k] == row[k]
  {
  }

  /** The module-level lists after screening: the successes, the failed
      symbols, and how many rows were filtered or skipped as foreign. */
  datatype Tally = Tally(successful: seq<Row>, failed: seq<Json>, screenedOut: nat) {
    function Add(v: Verdict): Tally {
      match v
      case Passed(r) => this.(successful := successful + [r])
      case Failed(s) => this.(failed := failed + [s])
      case _ => this.(screenedOut := screenedOut + 1)
    }
  }

  /** Screening the rows one after the other, in index order, stopping
      at the first exception. */
  function ScreenRows(h: Helpers, rows: Table, revenueData: map<Json, RevenueReport>): Result<Tally, PyError>
    decreases |rows|
  {
    if rows == [] then Ok(Tally([], [], 0))
    else match ScreenRows(h, rows[..|rows| - 1], revenueData)
      case Err(e) => Err(e)
      case Ok(t) =>
        match ScreenRevenueGrowth(h, rows[|rows| - 1], revenueData)
        case Err(e) => Err(e)
        case Ok(v) => Ok(t.Add(v))
  }

  /** Every row is counted once: passed + failed + filtered = n, so the
      reported `len(df) - passed - failed` is the number filtered or
      foreign. Each success comes from a passing row. */
  lemma {:induction false} ScreenRowsCounts(h: Helpers, rows: Table, revenueData: map<Json, RevenueReport>)
    requires ScreenRows(h, rows, revenueData).Ok?
    ensures var t := ScreenRows(h, rows, revenueData).value;
      |t.successful| + |t.failed| + t.screenedOut == |rows| &&
      forall r :: r in t.successful ==>
        exists i :: 0 <= i < |rows| && ScreenRevenueGrowth(h, rows[i], revenueData) == Ok(Passed(r))
  {
    if rows != [] {
      var init := rows[..|rows| - 1];
      ScreenRowsCounts(h, init, revenueData);
      var t := ScreenRows(h, init, revenueData).value;
      forall r | r in ScreenRows(h, rows, revenueData).value.successful
        ensures exists i :: 0 <= i < |rows| && ScreenRevenueGrowth(h, rows[i], revenueData) == Ok(Passed(r))
      {
        if r in t.successful {
          var i :| 0 <= i < |init| && ScreenRevenueGrowth(h, init[i], revenueData) == Ok(Passed(r));
          assert rows[i] == init[i];
        } else {
          assert ScreenRevenueGrowth(h, rows[|rows| - 1], revenueData) == Ok(Passed(r));
        }
      }
    }
  }

  /** The stage's loop over `range(0, len(df))`. */
  method ScreenAll(h: Helpers, rows: Table, revenueData: map<Json, RevenueReport>) returns (r: Result<Tally, PyError>)
    ensures r == ScreenRows(h, rows, revenueData)
  {
    var tally := Tally([], [], 0);
    var i := 0;
    while i < |rows|
      invariant 0 <= i <= |rows|
      invariant ScreenRows(h, rows[..i], revenueData) == Ok(tally)
    {
      assert rows[..i + 1][..i] == rows[..i];
      var v := ScreenRevenueGrowth(h, rows[i], revenueData);
      if v.Err? {
        assert ScreenRows(h, rows[..i + 1], revenueData).Err?;
        ScreenRowsStopsAtError(h, rows, i + 1, revenueData);
        return Err(v.error);
      }
      tally := tally.Add(v.value);
      i := i + 1;
    }
    assert rows[..i] == rows;
    r := Ok(tally);
  }

  /** Once a prefix raises, the whole screen raises the same exception. */
  lemma {:induction false} ScreenRowsStopsAtError(h: Helpers, rows: Table, k: nat, revenueData: map<Json, RevenueReport>)
    requires k <= |rows|
    requires ScreenRows(h, rows[..k], revenueData).Err?
    ensures ScreenRows(h, rows, revenueData) == ScreenRows(h, rows[..k], revenueData)
    decreases |rows| - k
  {
    if k < |rows| {
      assert rows[..k + 1][..k] == rows[..k];
      ScreenRowsStopsAtError(h, rows, k + 1, revenueData);
    } else {
      assert rows[..k] == rows;
    }
  }

  /** `[] if "Symbol" not in df else list(df["Symbol"])`. */
  function SymbolList(t: Table): (s: seq<Json>)
    ensures s == [] <==> !HasColumn(t, "Symbol")
    ensures s != [] ==> |s| == |t| && forall i :: 0 <= i < |t| ==> s[i] == Cell(t[i], "Symbol")
  {
    if HasColumn(t, "Symbol") then
      seq(|t|, i requires 0 <= i < |t| => Cell(t[i], "Symbol"))
    else []
  }

  /** The stage body. `fetchAllRevenues` stands for the unseen
      `fetch_all_revenues`; `tally` reports the lists the footer counts. */
  method RunRevenueGrowth(dir: JsonDir, ctx: Context, h: Helpers,
                          fetchAllRevenues: seq<Json> -> map<Json, RevenueReport>)
    returns (r: Result<Table, PyError>, tally: Option<Tally>)
    requires dir.Valid()
    modifies dir
    ensures dir.Valid()
    ensures old(Skips(dir, ctx, StageName)) ==>
      tally.None? && r == old(OpenOutfile(dir, StageName)) && r.Ok? &&
      dir.files == old(dir.files) && dir.ledger == old(dir.ledger)
    ensures !old(Skips(dir, ctx, StageName)) && old(OpenOutfile(dir, InputName)).Err? ==>
      r == old(OpenOutfile(dir, InputName)) && dir.files == old(dir.files) && dir.ledger == old(dir.ledger)
    ensures !old(Skips(dir, ctx, StageName)) && old(OpenOutfile(dir, InputName)).Ok? ==>
      var input := old(OpenOutfile(dir, InputName)).value;
      var screened := ScreenRows(h, Iloc(input), fetchAllRevenues(SymbolList(input)));
      (screened.Err? ==> r == Err(screened.error) && dir.files == old(dir.files) && dir.ledger == old(dir.ledger)) &&
      (screened.Ok? ==>
        dir.files == old(dir.files)[OutfilePath(StageName) := screened.value.successful] &&
        (r.Ok? ==> r.value == screened.value.successful && tally == Some(screened.value)))
    ensures Current(old(dir.ledger), ctx.Hash(), ctx.today) && r.Ok? ==>
      Current(dir.ledger, ctx.Hash(), ctx.today) && Skips(dir, ctx, StageName) &&
      OpenOutfile(dir, StageName) == r
    ensures forall other :: old(Skips(dir, ctx, other)) ==> Skips(dir, ctx, other)
  {
    if Skips(dir, ctx, StageName) {
      return OpenOutfile(dir, StageName), None;
    }
    var df := OpenOutfile(dir, InputName);
    if df.Err? {
      return df, None;
    }
    var revenueData := fetchAllRevenues(SymbolList(df.value));
    var screened := ScreenAll(h, Iloc(df.value), revenueData);
    if screened.Err? {
      return Err(screened.error), None;
    }
    var marked := Commit(dir, ctx, StageName, screened.value.successful);
    ReadAfterWrite(old(dir.files), StageName, screened.value.successful, StageName);
    if marked.Err? {
      return Err(marked.error), None;
    }
    r, tally := Ok(screened.value.successful), Some(screened.value);
  }
}
