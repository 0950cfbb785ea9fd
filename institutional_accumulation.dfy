/** Stage 5 (screen/iterations/institutional_accumulation.py): fetch each
    stock's institutional inflows and outflows from marketbeat.com, in
    batches of at most ten rows, under a five-minute budget checked
    between batches, writing the artifact and marking the stage after
    every batch. Page fetches are replaced by their outcomes, the clock by
    the elapsed times seen at each batch boundary, and the thread pool by
    processing a batch's rows one after the other. */
module InstitutionalAccumulation {
  import opened Json
  import opened Wrappers
  import opened Workspace
  import opened Outfiles
  import opened Cache
  import opened Stage
  import Settings

  const StageName: string := "institutional_accumulation"
  /** The predecessor whose artifact this stage reads. */
  const InputName: string := "revenue_growth"

  /** The stage's time budget in seconds. */
  const MaxTime: real := 300.0
  /** The most rows handled by one batch. */
  const MaxBatch: nat := 10

  /** The exchanges tried, in order. */
  const Exchanges: seq<string> := ["NASDAQ", "NYSE"]

  /** The values used when the figures cannot be read from the page. */
  const PlaceholderInflows: real := 1000000.0
  const PlaceholderOutflows: real := 500000.0

  /** The outcome of the non-redirected GET of a stock's page on one
      exchange: an exception, or a status code. */
  datatype Probe = Raised | Status(code: int)

  /** The first exchange, in the given order, whose page answers 200. */
  function ReachableExchange(probe: string -> Probe, exchanges: seq<string>): (r: Option<string>)
    ensures r.None? <==> forall k :: 0 <= k < |exchanges| ==> probe(exchanges[k]) != Status(200)
    ensures r.Some? ==>
      exists k :: 0 <= k < |exchanges| && exchanges[k] == r.value && probe(exchanges[k]) == Status(200) &&
        forall j :: 0 <= j < k ==> probe(exchanges[j]) != Status(200)
  {
    if exchanges == [] then None
    else if probe(exchanges[0]) == Status(200) then Some(exchanges[0])
    else
      var rest := ReachableExchange(probe, exchanges[1..]);
      assert forall k :: 1 <= k < |exchanges| ==> exchanges[k] == exchanges[1..][k - 1];
      rest
  }

  /** `fetch_exchange`: an exception moves on to the next exchange. */
  method FetchExchange(probe: string -> Probe) returns (r: Option<string>)
    ensures r == ReachableExchange(probe, Exchanges)
  {
    var i := 0;
    while i < |Exchanges|
      invariant 0 <= i <= |Exchanges|
      invariant ReachableExchange(probe, Exchanges[i..]) == ReachableExchange(probe, Exchanges)
    {
      assert Exchanges[i..][1..] == Exchanges[i + 1..];
      match probe(Exchanges[i]) {
        case Raised =>
        case Status(code) =>
          if code == 200 {
            return Some(Exchanges[i]);
          }
      }
      i := i + 1;
    }
    return None;
  }

  /** How loading the institutional-ownership page ends: the data showed
      up, the wait timed out (extraction is still tried), or another
      exception. */
  datatype PageLoad = PageLoaded | PageTimedOut | PageFailed

  /** Reading the figures from the page: the two amounts (each possibly
      unreadable), or an exception. */
  datatype Extraction = Extracted(inflows: Option<real>, outflows: Option<real>) | ExtractionRaised

  datatype Holdings = Holdings(inflows: real, outflows: real)

  /** `fetch_institutional_holdings`, given the exchange found, how the
      page load ended and how extraction ended. */
  function FetchInstitutionalHoldings(exchange: Option<string>, page: PageLoad, extraction: Extraction): Option<Holdings> {
    if exchange.None? then None
    else if page == PageFailed then None
    else match extraction
      case ExtractionRaised => Some(Holdings(PlaceholderInflows, PlaceholderOutflows))
      case Extracted(inflows, outflows) =>
        if inflows.None? || outflows.None? then None
        else Some(Holdings(inflows.value, outflows.value))
  }

  /** Holdings are missing exactly when no exchange answered, the page
      failed with something other than a timeout, or a figure was
      unreadable; when extraction itself raises, the placeholder figures
      are used and their net of 500,000 counts as accumulation. */
  lemma HoldingsDecision(exchange: Option<string>, page: PageLoad, extraction: Extraction)
    ensures var h := FetchInstitutionalHoldings(exchange, page, extraction);
      (h.None? <==> (exchange.None? || page == PageFailed ||
                     (extraction.Extracted? && (extraction.inflows.None? || extraction.outflows.None?)))) &&
      (h.Some? && extraction.ExtractionRaised? ==>
        h.value == Holdings(1000000.0, 500000.0) && h.value.inflows - h.value.outflows == 500000.0) &&
      (h.Some? && extraction.Extracted? ==>
        h.value == Holdings(extraction.inflows.value, extraction.outflows.value))
  {
  }

  /** The per-symbol outcomes the scraping would produce. */
  datatype Marketbeat = Marketbeat(probe: Json -> string -> Probe, page: Json -> PageLoad, extraction: Json -> Extraction) {
    function HoldingsOf(symbol: Json): Option<Holdings> {
      FetchInstitutionalHoldings(ReachableExchange(probe(symbol), Exchanges), page(symbol), extraction(symbol))
    }
  }

  /** Columns a success record must copy with `row[...]`. */
  const RequiredColumns: seq<string> := ["Company Name", "Industry", "RS", "Price", "Market Cap"]
  /** Columns copied with `row.get(..., None)`. */
  const CarriedColumns: seq<string> :=
    ["Revenue Growth % (most recent Q)", "Revenue Growth % (previous Q)", "50-day Average Volume", "% Below 52-week High"]

  /** The success record of a row: its symbol, the required cells, the
      net inflows (null when the holdings are missing) and the carried
      cells (null where the row lacks them). */
  datatype Success = Success(
    symbol: Json, company: Json, industry: Json, rs: Json, price: Json, marketCap: Json,
    net: Json, growthRecent: Json, growthPrevious: Json, volume: Json, belowHigh: Json)
  {
    /** The dictionary appended to `successful_stocks`. */
    function AsRow(): Row {
      map[
        "Symbol" := symbol,
        "Company Name" := company,
        "Industry" := industry,
        "RS" := rs,
        "Price" := price,
        "Market Cap" := marketCap,
        "Net Institutional Inflows" := net,
        "Revenue Growth % (most recent Q)" := growthRecent,
        "Revenue Growth % (previous Q)" := growthPrevious,
        "50-day Average Volume" := volume,
        "% Below 52-week High" := belowHigh
      ]
    }
  }

  /** The record built for a row with every required column. */
  function SuccessOf(row: Row, symbol: Json, net: Option<real>): Success
    requires forall c :: c in RequiredColumns ==> c in row
  {
    Success(symbol, row["Company Name"], row["Industry"], row["RS"], row["Price"], row["Market Cap"],
            if net.Some? then Float(net.value) else Null,
            Cell(row, "Revenue Growth % (most recent Q)"), Cell(row, "Revenue Growth % (previous Q)"),
            Cell(row, "50-day Average Volume"), Cell(row, "% Below 52-week High"))
  }

  /** `pd.DataFrame(successful_stocks)`, one row per record, in order. */
  function Records(s: seq<Success>): (t: Table)
    ensures |t| == |s|
    ensures forall i :: 0 <= i < |s| ==> t[i] == s[i].AsRow()
  {
    seq(|s|, i requires 0 <= i < |s| => s[i].AsRow())
  }

  /** What screening one row appends to the three module-level lists. */
  datatype RowOutcome = RowOutcome(failed: Option<Json>, accumulated: Option<Json>, success: Option<Success>)

  /** `screen_institutional_accumulation` for one row `df.iloc[i]` (see
      `Iloc`: it holds every column of the frame). A missing Symbol
      ends it before anything is recorded; a missing required column ends
      it after the failed/accumulated lists are updated but before the
      success record is appended. */
  function ScreenRow(row: Row, holdings: Json -> Option<Holdings>): RowOutcome {
    if "Symbol" !in row then RowOutcome(None, None, None)
    else
      var symbol := row["Symbol"];
      var h := holdings(symbol);
      var net := if h.None? then None else Some(h.value.inflows - h.value.outflows);
      var failed := if h.None? then Some(symbol) else None;
      var accumulated := if net.Some? && net.value >= 0.0 then Some(symbol) else None;
      var success := if forall c :: c in RequiredColumns ==> c in row then Some(SuccessOf(row, symbol, net)) else None;
      RowOutcome(failed, accumulated, success)
  }

  /** A row is under accumulation iff its holdings were fetched and the
      net is not negative; it fails iff its holdings are missing, so a
      failed row is never under accumulation; it yields a success record
      iff it has a symbol and the required columns, whatever the
      holdings. */
  lemma ScreenRowClassification(row: Row, holdings: Json -> Option<Holdings>)
    ensures var o := ScreenRow(row, holdings);
      (o.accumulated.Some? <==> ("Symbol" in row && holdings(row["Symbol"]).Some? &&
                                 holdings(row["Symbol"]).value.inflows - holdings(row["Symbol"]).value.outflows >= 0.0)) &&
      (o.failed.Some? <==> "Symbol" in row && holdings(row["Symbol"]).None?) &&
      !(o.failed.Some? && o.accumulated.Some?) &&
      (o.success.Some? <==> "Symbol" in row && forall c :: c in RequiredColumns ==> c in row)
  {
  }

  /** A success record keeps the row's symbol and required cells, and its
      net inflows are null exactly when the holdings are missing. */
  lemma SuccessRecord(row: Row, holdings: Json -> Option<Holdings>)
    requires ScreenRow(row, holdings).success.Some?
    ensures var rec := ScreenRow(row, holdings).success.value;
      var h := holdings(row["Symbol"]);
      rec.symbol == row["Symbol"] &&
      rec.company == row["Company Name"] && rec.industry == row["Industry"] &&
      rec.rs == row["RS"] && rec.price == row["Price"] && rec.marketCap == row["Market Cap"] &&
      rec.net == (if h.None? then Null else Float(h.value.inflows - h.value.outflows)) &&
      rec.growthRecent == Cell(row, "Revenue Growth % (most recent Q)") &&
      rec.belowHigh == Cell(row, "% Below 52-week High")
  {
  }

  /** The record's dictionary has the eleven columns of the output, each
      holding the record's value. */
  lemma SuccessColumns(s: Success)
    ensures var r := s.AsRow();
      r["Symbol"] == s.symbol && r["Company Name"] == s.company && r["Industry"] == s.industry &&
      r["RS"] == s.rs && r["Price"] == s.price && r["Market Cap"] == s.marketCap &&
      r["Net Institutional Inflows"] == s.net
  {
  }

  /** The module-level lists. */
  datatype Collected = Collected(successful: seq<Success>, failed: seq<Json>, accumulated: seq<Json>) {
    function Add(o: RowOutcome): Collected {
      Collected(
        successful + (if o.success.Some? then [o.success.value] else []),
        failed + (if o.failed.Some? then [o.failed.value] else []),
        accumulated + (if o.accumulated.Some? then [o.accumulated.value] else []))
    }
  }

  /** The lists after the first `k` rows are screened in index order. */
  function Collect(rows: Table, holdings: Json -> Option<Holdings>, k: nat): Collected
    requires k <= |rows|
  {
    if k == 0 then Collected([], [], [])
    else Collect(rows, holdings, k - 1).Add(ScreenRow(rows[k - 1], holdings))
  }

  /** Screening row `i` extends the lists of the first `i` rows. */
  lemma CollectStep(rows: Table, holdings: Json -> Option<Holdings>, i: nat)
    requires i < |rows|
    ensures Collect(rows, holdings, i + 1) == Collect(rows, holdings, i).Add(ScreenRow(rows[i], holdings))
  {
  }

  /** Each list gains at most one entry per row, and failed and
      accumulated never share a row. */
  lemma {:induction false} CollectCounts(rows: Table, holdings: Json -> Option<Holdings>, k: nat)
    requires k <= |rows|
    ensures var c := Collect(rows, holdings, k);
      |c.successful| <= k && |c.failed| + |c.accumulated| <= k
  {
    if k > 0 {
      CollectCounts(rows, holdings, k - 1);
      ScreenRowClassification(rows[k - 1], holdings);
    }
  }

  /** When every row has a symbol and the required columns, every
      screened row yields exactly one success record. */
  lemma {:induction false} CollectKeepsCompleteRows(rows: Table, holdings: Json -> Option<Holdings>, k: nat)
    requires k <= |rows|
    requires forall i :: 0 <= i < |rows| ==> "Symbol" in rows[i] && forall c :: c in RequiredColumns ==> c in rows[i]
    ensures |Collect(rows, holdings, k).successful| == k
  {
    if k > 0 {
      CollectKeepsCompleteRows(rows, holdings, k - 1);
    }
  }

  /** `min(10, len(df))`. */
  function BatchSize(n: nat): (b: nat)
    ensures b <= MaxBatch && b <= n
    ensures b == 0 <==> n == 0
  {
    if MaxBatch < n then MaxBatch else n
  }

  /** The end of the batch starting at `start`. */
  function BatchEnd(n: nat, start: nat): nat {
    if start + BatchSize(n) < n then start + BatchSize(n) else n
  }

  /** `range(0, n, b)` has this many elements. */
  function NumBatches(n: nat): nat
    requires n > 0
  {
    (n + BatchSize(n) - 1) / BatchSize(n)
  }

  /** Batch `k` covers `[k*b, min(k*b+b, n))`. The batches are non-empty
      and each but the last ends where the next begins. */
  lemma BatchesAdjacent(n: nat)
    requires n > 0
    ensures forall k :: 0 <= k < NumBatches(n) ==> k * BatchSize(n) < BatchEnd(n, k * BatchSize(n))
    ensures forall k :: 0 <= k < NumBatches(n) - 1 ==> BatchEnd(n, k * BatchSize(n)) == (k + 1) * BatchSize(n)
  {
    forall k | 0 <= k < NumBatches(n)
      ensures k * BatchSize(n) < BatchEnd(n, k * BatchSize(n))
    {
      BatchNonEmpty(n, k);
    }
    forall k | 0 <= k < NumBatches(n) - 1
      ensures BatchEnd(n, k * BatchSize(n)) == (k + 1) * BatchSize(n)
    {
      BatchFull(n, k);
    }
  }

  /** The number of the batch holding row `i`. */
  function BatchOf(n: nat, i: nat): nat
    requires i < n
  {
    i / BatchSize(n)
  }

  /** The first row of batch `k`. */
  function BatchStart(n: nat, k: nat): nat {
    k * BatchSize(n)
  }

  /** Every row index lies in exactly one batch: batch `i / b`. */
  lemma BatchesCover(n: nat)
    requires n > 0
    ensures forall i :: 0 <= i < n ==>
      BatchOf(n, i) < NumBatches(n) &&
      BatchStart(n, BatchOf(n, i)) <= i < BatchEnd(n, BatchStart(n, BatchOf(n, i)))
  {
    forall i | 0 <= i < n
      ensures BatchOf(n, i) < NumBatches(n)
      ensures BatchStart(n, BatchOf(n, i)) <= i < BatchEnd(n, BatchStart(n, BatchOf(n, i)))
    {
      RowCovered(n, i);
    }
  }

  /** Row `i` lies in batch `i / b`. */
  lemma RowCovered(n: nat, i: nat)
    requires i < n
    ensures BatchOf(n, i) < NumBatches(n)
    ensures BatchStart(n, BatchOf(n, i)) <= i < BatchEnd(n, BatchStart(n, BatchOf(n, i)))
  {
    RowInBatch(n, BatchSize(n), i);
  }

  /** Every batch of the range holds at least one row. */
  lemma BatchNonEmpty(n: nat, k: nat)
    requires n > 0 && k < NumBatches(n)
    ensures k * BatchSize(n) < BatchEnd(n, k * BatchSize(n))
  {
    var b := BatchSize(n);
    LastBatchStarts(n, b);
    MulMonotone(k, NumBatches(n) - 1, b);
  }

  /** Every batch but the last holds `b` rows and ends where the next
      begins. */
  lemma BatchFull(n: nat, k: nat)
    requires n > 0 && k + 1 < NumBatches(n)
    ensures BatchEnd(n, k * BatchSize(n)) == (k + 1) * BatchSize(n)
  {
    var b := BatchSize(n);
    LastBatchStarts(n, b);
    MulMonotone(k + 1, NumBatches(n) - 1, b);
    assert (k + 1) * b == k * b + b;
  }

  lemma MulMonotone(x: nat, y: nat, b: nat)
    requires x <= y
    ensures x * b <= y * b
  {
    assert y * b == x * b + (y - x) * b;
  }

  lemma MulLessCancel(x: nat, y: nat, b: nat)
    requires x * b < y * b
    ensures x < y
  {
    if x >= y {
      MulMonotone(y, x, b);
    }
  }

  /** `q * b <= x` bounds `q` by the quotient. */
  lemma DivLower(x: nat, b: nat, q: nat)
    requires 0 < b && q * b <= x
    ensures q <= x / b
  {
    var d := x / b;
    assert d * b + x % b == x;
    assert (d + 1) * b == d * b + b;
    MulLessCancel(q, d + 1, b);
  }

  /** With `m = ceil(n / b)` batches, the last one starts before `n`. */
  lemma LastBatchStarts(n: nat, b: nat)
    requires 0 < b <= n
    ensures (n + b - 1) / b >= 1
    ensures ((n + b - 1) / b - 1) * b < n
  {
    var m := (n + b - 1) / b;
    DivLower(n + b - 1, b, 1);
    assert m * b + (n + b - 1) % b == n + b - 1;
    assert (m - 1) * b == m * b - b;
  }

  /** Row `i` lies in batch `i / b`, which is one of the `ceil(n / b)`. */
  lemma RowInBatch(n: nat, b: nat, i: nat)
    requires 0 < b <= n && i < n
    ensures i / b < (n + b - 1) / b
    ensures (i / b) * b <= i < (i / b) * b + b
  {
    var q := i / b;
    assert q * b + i % b == i;
    assert (q + 1) * b == q * b + b;
    DivLower(n + b - 1, b, q + 1);
  }

  /** The number of batches started when the loop is at batch `k`:
      batches begin while rows remain and the elapsed time at the batch
      boundary is within the budget. */
  function StartedFrom(n: nat, clock: nat -> real, k: nat): (s: nat)
    requires n > 0
    decreases n - k * BatchSize(n)
    ensures s >= k
    ensures s * BatchSize(n) >= n || clock(s) > MaxTime
    ensures forall j :: k <= j < s ==> j * BatchSize(n) < n && clock(j) <= MaxTime
  {
    if k * BatchSize(n) >= n || clock(k) > MaxTime then k
    else
      assert (k + 1) * BatchSize(n) == k * BatchSize(n) + BatchSize(n);
      StartedFrom(n, clock, k + 1)
  }

  /** The rows screened before the loop ends. */
  function Processed(n: nat, clock: nat -> real): nat
    requires n > 0
  {
    var e := StartedFrom(n, clock, 0) * BatchSize(n);
    if e < n then e else n
  }

  /** The budget check happens only at batch boundaries: every batch that
      starts is finished, and no batch starts after a boundary at which
      the budget was exceeded. */
  lemma DeadlineAtBoundaries(n: nat, clock: nat -> real, j: nat)
    requires n > 0
    ensures var s := StartedFrom(n, clock, 0);
      (Processed(n, clock) == n || Processed(n, clock) == s * BatchSize(n)) &&
      (j * BatchSize(n) < n && clock(j) > MaxTime ==> s <= j)
  {
  }

  /** With a clock that never goes back, the batches run are exactly
      those that start within the rows at a boundary within budget. */
  lemma MonotoneClockBatches(n: nat, clock: nat -> real, j: nat)
    requires n > 0
    requires forall a: nat, b: nat :: a <= b ==> clock(a) <= clock(b)
    ensures j < StartedFrom(n, clock, 0) <==> j * BatchSize(n) < n && clock(j) <= MaxTime
  {
    var s := StartedFrom(n, clock, 0);
    if j >= s && j * BatchSize(n) < n && clock(j) <= MaxTime {
      MulMonotone(s, j, BatchSize(n));
      assert false;
    }
  }

  /** Screening rows `start..end` in index order, as the pool does for
      one batch. */
  method ScreenBatch(rows: Table, holdings: Json -> Option<Holdings>, start: nat, end: nat, acc: Collected)
    returns (out: Collected)
    requires start <= end <= |rows|
    requires acc == Collect(rows, holdings, start)
    ensures out == Collect(rows, holdings, end)
  {
    out := acc;
    var i := start;
    while i < end
      invariant start <= i <= end
      invariant out == Collect(rows, holdings, i)
    {
      CollectStep(rows, holdings, i);
      out := out.Add(ScreenRow(rows[i], holdings));
      i := i + 1;
    }
  }

  /** From ledger and files `l0, f0` to `l1, f1` a ledger current for the
      run stays current and no stage that was skippable stops being so. */
  ghost predicate Kept(ctx: Context, l0: LedgerFile, f0: map<string, Table>, l1: LedgerFile, f1: map<string, Table>) {
    (Current(l0, ctx.Hash(), ctx.today) ==> Current(l1, ctx.Hash(), ctx.today)) &&
    forall other :: SkipDecision(l0, f0, other, ctx.Hash(), ctx.today) ==> SkipDecision(l1, f1, other, ctx.Hash(), ctx.today)
  }

  lemma KeptTrans(ctx: Context, l0: LedgerFile, f0: map<string, Table>, l1: LedgerFile, f1: map<string, Table>,
                  l2: LedgerFile, f2: map<string, Table>)
    requires Kept(ctx, l0, f0, l1, f1) && Kept(ctx, l1, f1, l2, f2)
    ensures Kept(ctx, l0, f0, l2, f2)
  {
  }

  /** One batch and its checkpoint: screen rows `start..end`, then write
      every success so far and mark the stage complete, whether or not
      batches remain. */
  method ProcessBatch(dir: JsonDir, ctx: Context, rows: Table, holdings: Json -> Option<Holdings>,
                      start: nat, end: nat, acc: Collected, ghost base: map<string, Table>)
    returns (out: Collected, r: Result<(), PyError>)
    requires dir.Valid()
    requires start <= end <= |rows|
    requires acc == Collect(rows, holdings, start)
    requires dir.files == base || dir.files == base[OutfilePath(StageName) := Records(acc.successful)]
    modifies dir
    ensures dir.Valid()
    ensures out == Collect(rows, holdings, end)
    ensures dir.files == base[OutfilePath(StageName) := Records(out.successful)]
    ensures r.Ok? <==> MarkedLedger(old(dir.ledger), StageName, ctx.today).Ok?
    ensures r.Ok? ==> StageName in CompletedList(dir.ledger)
    ensures r.Err? ==> dir.ledger == old(dir.ledger)
    ensures Current(old(dir.ledger), ctx.Hash(), ctx.today) ==>
      r.Ok? && Current(dir.ledger, ctx.Hash(), ctx.today) && Skips(dir, ctx, StageName)
    ensures Kept(ctx, old(dir.ledger), old(dir.files), dir.ledger, dir.files)
  {
    out := ScreenBatch(rows, holdings, start, end, acc);
    if dir.files != base {
      WriteOverwrites(base, StageName, Records(acc.successful), Records(out.successful));
    }
    r := Commit(dir, ctx, StageName, Records(out.successful));
    MarkRecordsName(old(dir.ledger), StageName, ctx.today);
  }

  /** `min(threads, len(indices))`: the pool size for one batch. */
  function Workers(threads: nat, batchLength: nat): (w: nat)
    ensures w <= threads && w <= batchLength
    ensures w == threads || w == batchLength
  {
    if threads < batchLength then threads else batchLength
  }

  /** With the configured thread count, a batch never gets more than ten
      workers, and a non-empty batch gets none exactly on a single-core
      machine. */
  lemma WorkersForBatch(cpuCount: nat, batchLength: nat)
    ensures Workers(Settings.Threads(cpuCount), batchLength) <= MaxBatch
    ensures batchLength > 0 ==> (Workers(Settings.Threads(cpuCount), batchLength) == 0 <==> cpuCount <= 1)
  {
  }

  /** The three counts printed at the end of the stage. */
  datatype Footer = Footer(failed: nat, notAccumulated: int, accumulated: nat, passed: nat)

  function FooterOf(n: nat, c: Collected): Footer {
    Footer(|c.failed|, n - |c.failed| - |c.accumulated|, |c.accumulated|, |c.successful|)
  }

  /** The "not under accumulation" count is never negative: it includes
      every row the deadline left unscreened. */
  lemma FooterNotNegative(rows: Table, holdings: Json -> Option<Holdings>, k: nat)
    requires k <= |rows|
    ensures var f := FooterOf(|rows|, Collect(rows, holdings, k));
      f.notAccumulated >= |rows| - k >= 0 && f.passed <= k
  {
    CollectCounts(rows, holdings, k);
  }

  /** A table that fits in one batch is screened in full when the first
      boundary is within budget, and not at all otherwise. */
  lemma SingleBatch(n: nat, clock: nat -> real)
    requires 0 < n <= MaxBatch
    ensures Processed(n, clock) == (if clock(0) <= MaxTime then n else 0)
  {
    assert BatchSize(n) == n;
    if clock(0) <= MaxTime {
      assert StartedFrom(n, clock, 1) == 1;
    }
  }

  /** In a frame with the symbol and required columns, every screened
      row reaches the output, even rows with no value in some of them. */
  lemma FrameWithColumnsKeepsRows(t: Table, holdings: Json -> Option<Holdings>, k: nat)
    requires k <= |t|
    requires HasColumn(t, "Symbol") && forall c :: c in RequiredColumns ==> HasColumn(t, c)
    ensures |Collect(Iloc(t), holdings, k).successful| == k
  {
    CollectKeepsCompleteRows(Iloc(t), holdings, k);
  }

  /** Three rows of a frame with the required columns, screened before
      the budget runs out, all reach the output, whatever the marketbeat
      figures are. */
  lemma ThreeCompleteRowsPass(rows: Table, holdings: Json -> Option<Holdings>, clock: nat -> real)
    requires |rows| == 3 && clock(0) <= MaxTime
    requires HasColumn(rows, "Symbol") && forall c :: c in RequiredColumns ==> HasColumn(rows, c)
    ensures |Collect(Iloc(rows), holdings, Processed(3, clock)).successful| == 3
  {
    SingleBatch(3, clock);
    FrameWithColumnsKeepsRows(rows, holdings, 3);
  }

  /** Passing a boundary within budget does not change the count. */
  lemma StartedFromStep(n: nat, clock: nat -> real, k: nat)
    requires n > 0 && k * BatchSize(n) < n && clock(k) <= MaxTime
    ensures StartedFrom(n, clock, k) == StartedFrom(n, clock, k + 1)
  {
  }

  /** The loop stops at a boundary past the rows or past the budget. */
  lemma StartedFromStop(n: nat, clock: nat -> real, k: nat)
    requires n > 0 && (k * BatchSize(n) >= n || clock(k) > MaxTime)
    ensures StartedFrom(n, clock, k) == k
  {
  }

  /** Starting batch `k` moves the loop to boundary `k + 1` of the same
      run of batches. */
  lemma NextBatch(n: nat, clock: nat -> real, k: nat)
    requires n > 0 && k * BatchSize(n) < n && clock(k) <= MaxTime
    requires StartedFrom(n, clock, k) == StartedFrom(n, clock, 0)
    ensures StartedFrom(n, clock, k + 1) == StartedFrom(n, clock, 0)
    ensures (k + 1) * BatchSize(n) == k * BatchSize(n) + BatchSize(n)
  {
    StartedFromStep(n, clock, k);
  }

  /** Where the loop stops, the rows processed are those before the
      boundary, or all of them. */
  lemma LastBoundary(n: nat, clock: nat -> real, k: nat)
    requires n > 0 && (k * BatchSize(n) >= n || clock(k) > MaxTime)
    requires StartedFrom(n, clock, k) == StartedFrom(n, clock, 0)
    ensures Processed(n, clock) == if k * BatchSize(n) < n then k * BatchSize(n) else n
  {
    StartedFromStop(n, clock, k);
  }

  /** The loop's state at boundary `k`: the same run of batches lies
      ahead, and the lists hold the rows before the boundary. */
  ghost predicate AtBoundary(rows: Table, holdings: Json -> Option<Holdings>, clock: nat -> real, k: nat, acc: Collected)
    requires |rows| > 0
  {
    var n := |rows|;
    StartedFrom(n, clock, k) == StartedFrom(n, clock, 0) &&
    acc == Collect(rows, holdings, if BatchStart(n, k) < n then BatchStart(n, k) else n)
  }

  /** One pass of the loop body for a boundary within the rows and the
      budget: the batch starting there is screened and checkpointed. */
  method BatchAt(dir: JsonDir, ctx: Context, rows: Table, holdings: Json -> Option<Holdings>, clock: nat -> real,
                 k: nat, acc: Collected, ghost base: map<string, Table>)
    returns (out: Collected, r: Result<(), PyError>)
    requires dir.Valid() && |rows| > 0
    requires BatchStart(|rows|, k) < |rows| && clock(k) <= MaxTime
    requires AtBoundary(rows, holdings, clock, k, acc)
    requires dir.files == base || dir.files == base[OutfilePath(StageName) := Records(acc.successful)]
    modifies dir
    ensures dir.Valid()
    ensures r.Ok? ==> AtBoundary(rows, holdings, clock, k + 1, out)
    ensures dir.files == base[OutfilePath(StageName) := Records(out.successful)]
    ensures Current(old(dir.ledger), ctx.Hash(), ctx.today) ==> r.Ok?
    ensures Kept(ctx, old(dir.ledger), old(dir.files), dir.ledger, dir.files)
  {
    var n := |rows|;
    var start := BatchStart(n, k);
    out, r := ProcessBatch(dir, ctx, rows, holdings, start, BatchEnd(n, start), acc, base);
    AtNextBoundary(rows, holdings, clock, k, out);
  }

  /** Screening the batch at boundary `k` within the rows and the budget
      brings the loop to boundary `k + 1`. */
  lemma AtNextBoundary(rows: Table, holdings: Json -> Option<Holdings>, clock: nat -> real, k: nat, out: Collected)
    requires |rows| > 0 && BatchStart(|rows|, k) < |rows| && clock(k) <= MaxTime
    requires StartedFrom(|rows|, clock, k) == StartedFrom(|rows|, clock, 0)
    requires out == Collect(rows, holdings, BatchEnd(|rows|, BatchStart(|rows|, k)))
    ensures AtBoundary(rows, holdings, clock, k + 1, out)
  {
    var n, b := |rows|, BatchSize(|rows|);
    NextBatch(n, clock, k);
    assert BatchEnd(n, BatchStart(n, k)) == if (k + 1) * b < n then (k + 1) * b else n;
  }

  /** The batch loop: batches start while rows remain and the elapsed
      time at the boundary is within budget; each one is screened and
      checkpointed. A failed checkpoint ends the stage. */
  method RunBatches(dir: JsonDir, ctx: Context, rows: Table, holdings: Json -> Option<Holdings>, clock: nat -> real)
    returns (acc: Collected, r: Result<(), PyError>)
    requires dir.Valid() && |rows| > 0
    modifies dir
    ensures dir.Valid()
    ensures r.Ok? ==> acc == Collect(rows, holdings, Processed(|rows|, clock))
    ensures r.Ok? && clock(0) > MaxTime ==> dir.files == old(dir.files) && acc == Collected([], [], [])
    ensures r.Ok? && clock(0) <= MaxTime ==> dir.files == old(dir.files)[OutfilePath(StageName) := Records(acc.successful)]
    ensures Current(old(dir.ledger), ctx.Hash(), ctx.today) ==> r.Ok? && Current(dir.ledger, ctx.Hash(), ctx.today)
    ensures forall other :: old(Skips(dir, ctx, other)) ==> Skips(dir, ctx, other)
  {
    var n := |rows|;
    var b := BatchSize(n);
    acc := Collected([], [], []);
    r := Ok(());
    var k := 0;
    var start := 0;
    while start < n
      invariant start == BatchStart(n, k)
      invariant AtBoundary(rows, holdings, clock, k, acc)
      invariant r.Ok? && dir.Valid()
      invariant k > 0 ==> clock(0) <= MaxTime
      invariant dir.files == (if k == 0 then old(dir.files) else old(dir.files)[OutfilePath(StageName) := Records(acc.successful)])
      invariant Kept(ctx, old(dir.ledger), old(dir.files), dir.ledger, dir.files)
      decreases n - start
    {
      if clock(k) > MaxTime {
        break;
      }
      ghost var ledger, files := dir.ledger, dir.files;
      acc, r := BatchAt(dir, ctx, rows, holdings, clock, k, acc, old(dir.files));
      if r.Err? {
        return;
      }
      KeptTrans(ctx, old(dir.ledger), old(dir.files), ledger, files, dir.ledger, dir.files);
      NextStart(n, k);
      start := start + b;
      k := k + 1;
    }
    LoopExit(rows, holdings, clock, k, acc);
  }

  lemma NextStart(n: nat, k: nat)
    ensures BatchStart(n, k + 1) == BatchStart(n, k) + BatchSize(n)
  {
    var b := BatchSize(n);
    assert (k + 1) * b == k * b + b;
  }

  /** Where the loop stops, the lists hold the rows of every batch that
      started. */
  lemma LoopExit(rows: Table, holdings: Json -> Option<Holdings>, clock: nat -> real, k: nat, acc: Collected)
    requires |rows| > 0 && AtBoundary(rows, holdings, clock, k, acc)
    requires BatchStart(|rows|, k) >= |rows| || clock(k) > MaxTime
    ensures acc == Collect(rows, holdings, Processed(|rows|, clock))
  {
    LastBoundary(|rows|, clock, k);
  }

  /** The stage as run at import time. `mb` stands for the marketbeat
      pages, `clock(k)` for the seconds elapsed when the loop reaches
      batch `k`. */
  method RunInstitutionalAccumulation(dir: JsonDir, ctx: Context, mb: Marketbeat, clock: nat -> real)
    returns (r: Result<Table, PyError>, footer: Option<Footer>)
    requires dir.Valid()
    modifies dir
    ensures dir.Valid()
    ensures old(Skips(dir, ctx, StageName)) ==>
      footer.None? && r == old(OpenOutfile(dir, StageName)) && r.Ok? &&
      dir.files == old(dir.files) && dir.ledger == old(dir.ledger)
    ensures !old(Skips(dir, ctx, StageName)) && old(OpenOutfile(dir, InputName)).Err? ==>
      footer.None? && r == old(OpenOutfile(dir, InputName)) &&
      dir.files == old(dir.files) && dir.ledger == old(dir.ledger)
    ensures !old(Skips(dir, ctx, StageName)) && old(OpenOutfile(dir, InputName)) == Ok([]) ==>
      footer.None? && r == Err(ZeroStep) && dir.files == old(dir.files) && dir.ledger == old(dir.ledger)
    ensures !old(Skips(dir, ctx, StageName)) && old(OpenOutfile(dir, InputName)).Ok? && r.Ok? ==>
      var rows := Iloc(old(OpenOutfile(dir, InputName)).value);
      var c := Collect(rows, mb.HoldingsOf, Processed(|rows|, clock));
      r.value == Records(c.successful) && footer == Some(FooterOf(|rows|, c)) &&
      dir.files == old(dir.files)[OutfilePath(StageName) := Records(c.successful)]
    ensures (Current(old(dir.ledger), ctx.Hash(), ctx.today) && old(OpenOutfile(dir, InputName)).Ok? &&
             old(OpenOutfile(dir, InputName)) != Ok([])) ==>
      r.Ok? && Current(dir.ledger, ctx.Hash(), ctx.today) && Skips(dir, ctx, StageName)
    ensures forall other :: old(Skips(dir, ctx, other)) ==> Skips(dir, ctx, other)
  {
    footer := None;
    if Skips(dir, ctx, StageName) {
      return OpenOutfile(dir, StageName), None;
    }
    var input := OpenOutfile(dir, InputName);
    if input.Err? {
      return input, None;
    }
    var rows := Iloc(input.value);
    if |rows| == 0 {
      return Err(ZeroStep), None;
    }
    var acc, checkpoint := RunBatches(dir, ctx, rows, mb.HoldingsOf, clock);
    if checkpoint.Err? {
      return Err(checkpoint.error), None;
    }
    var marked := Commit(dir, ctx, StageName, Records(acc.successful));
    if marked.Err? {
      return Err(marked.error), None;
    }
    r := Ok(Records(acc.successful));
    footer := Some(FooterOf(|rows|, acc));
  }
}
