# Growth stock screener — a verified model of the screening pipeline

The growth stock screener runs a series of stages: NASDAQ listings,
relative strength, liquidity, trend, revenue growth and institutional
accumulation. Each stage filters the previous stage's table of stocks and
stores the result as `json/<stage>.json`. A ledger file,
`json/cache_settings.json`, records a fingerprint of the settings, the
date, and the stages completed. A second run on the same day with the
same settings can therefore skip stages that are complete and whose
artifact is present. After the stages, an HTML report scores every
surviving stock out of 10 (the "Skyrocket score") and lists the ten best.

This project models that core in Dafny, one module per source file:

| module | models |
|---|---|
| `Json` | JSON values, Python's ordering of `str` keys, and the canonical form `json.dumps(..., sort_keys=True)` gives a settings dictionary |
| `Workspace` | the `json/` directory as a class (`JsonDir`: whether it exists, the ledger file, the stored tables), rows, tables and the exceptions that escape |
| `Outfiles` | `open_outfile` / `create_outfile` |
| `Cache` | the ledger: fingerprint, reconciliation at start-up, marking a stage complete, and the skip decision |
| `Settings` | the configuration constants, the thread count, and the snapshot `get_current_settings` takes of the module namespace |
| `Stage` | the protocol each stage module runs at import time: skip and reload, or read, compute, write, mark |
| `NasdaqListings`, `RevenueGrowth`, `InstitutionalAccumulation` | the three stage modules, with their per-row screening rules |
| `Skyrocket` | `calculate_skyrocket_score` and the top-10 selection |
| `Analysis` | the report's decisions: loading the final table, the scoring loop with its error fallback, market-cap, lookback and RSI rules, and where the top-10 snippet is inserted |
| `GenerateInstitutional` | the stand-alone script that fabricates the institutional artifact and marks the stage complete |
| `RunScreen` | `run_screen.py`: reconcile the ledger, run the six stages in order, load the final artifact |

Code that mutates state is modelled imperatively. The directory is a
class whose methods state the whole new ledger and file map. The
report's list of HTML chunks is a class with `AppendCard` and
`InsertTopTen`. The caller's data frames are classes whose methods
rewrite them in place. The generator's loop writes into an array. The
loops over rows are methods with loop invariants, proved against the
pure functions that specify them. Properties that relate several calls
are lemmas.

The main results:

- **Resuming a run.** Right after the ledger is reconciled, every stage
  is skipped exactly when the directory holds a complete run with the
  same settings and date (`RunScreen.ReconciledSkipsAll`). In that case
  the screen changes no artifact and returns the stored final table
  (`RunScreen.RunScreen`).
- **Cache consistency.** Every stage that completes leaves the ledger
  current and its own stage skippable, and never makes another stage
  unskippable (the `Import*` methods, `Stage.RunStage`, `Stage.Commit`).
- **Fingerprint.** The settings fingerprint does not depend on the order
  in which keys were inserted (`Cache.SettingsHashIgnoresKeyOrder`). It
  rests on the canonical form identifying exactly the values that are
  equal up to key order (`Json.CanonicalIffKeyOrderEq`). Unlike Python's
  `==`, the fingerprint tells `1`, `1.0` and `True` apart
  (`Json.CanonicalSeparatesEqualNumbers`).
- **Screening rules.** Each stage's rules are stated as if-and-only-if
  lemmas: the revenue pass rule with its RS bypass, the institutional
  accumulation classification, and the placeholder holdings.
- **Batching.** The batches of the institutional stage are contiguous,
  non-empty and cover every row (`BatchesAdjacent`, `BatchesCover`). The
  deadline stops the stage only at a batch boundary
  (`DeadlineAtBoundaries`).
- **Scoring.** The Skyrocket score never exceeds 10 without using the
  cap, pairs every point with a reason, and is 0 exactly when the reason
  is "N/A" (`Skyrocket.ScoreProperties`).
- **Top 10.** The top-10 list holds the best numeric scores in
  non-increasing order (`Skyrocket.TopK`, `Skyrocket.TopTenProperties`).
- **Snippet placement.** The snippet is inserted exactly once
  (`Analysis.InsertionAddsOnlySnippet`). The comment the report header
  carries is not the marker the insertion searches for
  (`Analysis.HeaderCommentIsNotPlaceholder`). So with at least one stock
  card, the snippet lands right after the first card
  (`Analysis.SnippetAfterFirstCard`).

Parameters stand in for what the screener receives from outside:

- the MD5 digest;
- today's date and the stage clock;
- the NASDAQ response;
- the revenue reports;
- the marketbeat probes and pages;
- the Yahoo Finance data;
- Python's `float()` of a string;
- the text rendering of reasons.

The three stage modules whose source is not part of this model
(relative strength, liquidity, trend) follow the generic `Stage.RunStage`
protocol. Their computation is a caller-supplied function from table to
table.

## Model

All source paths are under `growth_stock_screener/`.

| member | source | states |
|---|---|---|
| Json.StrLtTransitive | growth_stock_screener/screen/iterations/utils/cache.py:18 | Python's `<` on key strings is transitive, so sorting keys is well defined |
| Json.StrLtTotal | growth_stock_screener/screen/iterations/utils/cache.py:18 | any two distinct keys are ordered one way or the other |
| Json.SortFieldsSorted | growth_stock_screener/screen/iterations/utils/cache.py:18 | `sort_keys=True` lists the fields of a dict with distinct keys in strictly increasing key order |
| Json.SortedUnique | growth_stock_screener/screen/iterations/utils/cache.py:18 | two key-sorted field lists with the same fields are identical, so the sorted dump depends only on the dict's content |
| Json.SortedFieldsIff | growth_stock_screener/screen/iterations/utils/cache.py:18 | two dicts sort to the same field list iff they have the same keys and agree on every key |
| Json.CanonicalIffKeyOrderEq | growth_stock_screener/screen/iterations/utils/cache.py:17-19 | two well-formed values have the same canonical serialisation iff they have the same keys and, recursively, equal values under each key, whatever the insertion order |
| Json.CanonicalSeparatesEqualNumbers | growth_stock_screener/screen/iterations/utils/cache.py:17-19 | the serialisation gives `1`, `1.0` and `True` three different canonical forms, though Python compares them equal |
| Workspace.Columns | growth_stock_screener/screen/iterations/revenue_growth.py:114 | a frame's columns are exactly the keys some row has |
| Workspace.Iloc | growth_stock_screener/screen/iterations/revenue_growth.py:114 | `df.iloc[i]` keeps the row count, gives every row exactly the frame's columns, and holds each row's own cell or NaN where it had none |
| Outfiles.OutfilePathInjective | growth_stock_screener/screen/iterations/utils/outfiles.py:7-9 | distinct stage names never share a `json/<name>.json` file |
| Outfiles.Lookup | growth_stock_screener/screen/iterations/utils/outfiles.py:5-11 | reading a stage's artifact succeeds iff the file is present; otherwise it raises FileNotFound on that path |
| Outfiles.CreateOutfile | growth_stock_screener/screen/iterations/utils/outfiles.py:14-25 | the directory exists afterwards; exactly the named file is (over)written with the table; the ledger is untouched |
| Outfiles.ReadAfterWrite | growth_stock_screener/screen/iterations/utils/outfiles.py:5-25 | reading back the written stage gives the written table; every other stage reads as before |
| Outfiles.WriteOverwrites | growth_stock_screener/screen/iterations/utils/outfiles.py:24-25 | a second write of the same stage replaces the first entirely |
| Cache.SettingsHashIgnoresKeyOrder | growth_stock_screener/screen/iterations/utils/cache.py:13-19 | settings with the same keys and equal values under each key get the same fingerprint whatever their key insertion order |
| Cache.SaveCacheSettings | growth_stock_screener/screen/iterations/utils/cache.py:21-54 | the ledger becomes the new settings, fingerprint and date, and it carries the completed list forward only from a ledger of the same fingerprint and day; a missing or corrupt ledger starts fresh; artifacts are untouched |
| Cache.MarkIterationComplete | growth_stock_screener/screen/iterations/utils/cache.py:56-99 | the ledger is edited as `MarkedLedger` says; a parsed ledger without a completed list raises KeyError and is left unchanged; artifacts are untouched |
| Cache.MarkRecordsName | growth_stock_screener/screen/iterations/utils/cache.py:65-92 | marking fails exactly on a parsed ledger lacking `iterations_completed`; on success the name is listed, the other three keys are kept, and the list only grows by the name; a missing or corrupt ledger is replaced by a fresh entry with an empty fingerprint |
| Cache.MarkIdempotent | growth_stock_screener/screen/iterations/utils/cache.py:79-83 | marking the same stage again changes nothing, even on a later day |
| Cache.NoSkipWithoutArtifactOrLedger | growth_stock_screener/screen/iterations/utils/cache.py:101-147 | a stage is never skipped without its artifact or without a ledger that parses |
| Cache.SkipAfterReconcile | growth_stock_screener/screen/iterations/utils/cache.py:101-147 | after start-up reconciliation, a stage is skipped iff the old ledger was of the same fingerprint and day, listed the stage, and its artifact exists |
| Cache.WriteThenMarkEnablesSkip | growth_stock_screener/screen/iterations/utils/cache.py:56-99 | writing a stage's artifact and then marking it under a ledger of this run makes that stage skippable and keeps every skippable stage skippable |
| Cache.MarkKeepsCurrent | growth_stock_screener/screen/iterations/utils/cache.py:44-47 | reconciliation leaves a ledger current for the run; marking under a current ledger succeeds, keeps it current, lists the stage and keeps the earlier entries in front |
| Settings.Threads | growth_stock_screener/screen/settings.py:34 | `min(int(0.75 * cpus), 10)` is at most 10 and at most the core count, is 0 iff there is at most one core, and is 10 iff there are at least 14 cores |
| Settings.SingleCoreHasNoThreads | growth_stock_screener/screen/settings.py:34 | a one-core machine gets 0 threads; two or more cores get at least one |
| Settings.ThresholdsConsistent | growth_stock_screener/screen/settings.py:6-25 | the minimum price is at most the maximum, and `0 <= min_rs <= protected_rs <= 100` |
| Settings.TrendSettingsShape | growth_stock_screener/screen/settings.py:15-21 | there are five trend toggles with distinct names, and only the 52-week-high proximity test is on |
| Settings.SnapshotMembers | growth_stock_screener/screen/iterations/utils/cache.py:157-161 | a name enters the snapshot with a value iff the namespace binds it to that plain value and the name is not underscore-prefixed |
| Settings.GetCurrentSettings | growth_stock_screener/screen/iterations/utils/cache.py:149-167 | the loop copies exactly the exported bindings in namespace order |
| Settings.SnapshotOfSettings | growth_stock_screener/screen/settings.py:6-34 | the snapshot of the settings module holds exactly the nine settings, once each and in source order, with their values (including the computed thread count), and has distinct keys at every depth |
| Stage.Commit | growth_stock_screener/screen/iterations/revenue_growth.py:184-187 | the artifact is written before the ledger is marked, so it survives a failed mark; under a current ledger the stage becomes skippable; no skippable stage stops being skippable |
| Stage.RunStage | growth_stock_screener/run_screen.py:32-34 | a stage whose skip test holds reloads its artifact and changes nothing; a missing input raises with nothing changed; otherwise the computed table is written; under a current ledger a successful stage is skippable afterwards and reads back as its result |
| NasdaqListings.DropColumns | growth_stock_screener/screen/iterations/nasdaq_listings.py:54-65 | dropping succeeds iff every dropped column exists, and then exactly the other columns remain; otherwise it raises the KeyError of a missing column |
| NasdaqListings.RenameColumns | growth_stock_screener/screen/iterations/nasdaq_listings.py:66 | renaming succeeds iff exactly four columns remain, and cell k of each row moves under the k-th new name; otherwise a length mismatch is raised |
| NasdaqListings.FilterSymbolsKeepsAllowed | growth_stock_screener/screen/iterations/nasdaq_listings.py:69 | a row survives the mask iff it is in the table and its symbol contains neither '/' nor '^' |
| NasdaqListings.FilterSymbolsKeepsOrder | growth_stock_screener/screen/iterations/nasdaq_listings.py:69 | the mask filters each part of a split table independently, keeping row order |
| NasdaqListings.CleanSymbols | growth_stock_screener/screen/iterations/nasdaq_listings.py:68-69 | no surviving string symbol contains '/' or '^' |
| NasdaqListings.ScreenerColumnsHaveDropped | growth_stock_screener/screen/iterations/nasdaq_listings.py:54-65 | on the screener API's column layout the drop never raises |
| NasdaqListings.ScreenerColumnsRemaining | growth_stock_screener/screen/iterations/nasdaq_listings.py:54-66 | on that layout exactly symbol, name, marketCap and industry remain, in that order |
| NasdaqListings.ListingsOfScreenerLayout | growth_stock_screener/screen/iterations/nasdaq_listings.py:51-69 | on that layout the listings are the filtered rows with Symbol, Company Name, Market Cap and Industry taken from symbol, name, marketCap and industry |
| NasdaqListings.RunNasdaqListings | growth_stock_screener/screen/iterations/nasdaq_listings.py:20-75 | a skipped stage reloads and makes no request; a timeout raises SystemExit with nothing written; any other request or decoding exception escapes unchanged with nothing written; a bad layout raises with nothing written; otherwise the filtered listings are written and the stage is marked |
| RevenueGrowth.RevenueGrowthOf | growth_stock_screener/screen/iterations/revenue_growth.py:57-74 | growth is computed iff there is a timeframe, both revenues are found and the year-ago revenue is positive; it carries both revenues and their percent change |
| RevenueGrowth.ComparisonUsesLastTwoReports | growth_stock_screener/screen/iterations/revenue_growth.py:77-109 | Q2 is the last report's growth and Q1 the one before it; data is insufficient iff the last report yields no growth; fewer than two reports never give Q1 |
| RevenueGrowth.PassRule | growth_stock_screener/screen/iterations/revenue_growth.py:143-154 | a stock fails iff its data is insufficient, is skipped iff foreign; with growth data it raises TypeError iff growth is too low and RS is a non-number other than NaN, and otherwise passes iff growth reaches `min_growth_percent` (Q2, and Q1 when present) or RS is not a number below `protected_rs` (a NaN RS compares false, so it passes) |
| RevenueGrowth.RsBelowProtected | growth_stock_screener/screen/iterations/revenue_growth.py:144-151 | `rs < protected_rs` raises TypeError iff RS is neither a number nor NaN, and holds iff RS is a number below `protected_rs` |
| RevenueGrowth.NanRsPasses | growth_stock_screener/screen/iterations/revenue_growth.py:114-154 | a row whose RS cell is NaN and that has growth data passes whatever its growth |
| RevenueGrowth.PassedRecord | growth_stock_screener/screen/iterations/revenue_growth.py:156-171 | a passing record carries the Q2 growth, "N/A" for the previous quarter exactly when there is no Q1, and the row's own symbol, RS and copied cells |
| RevenueGrowth.ScreenRowsCounts | growth_stock_screener/screen/iterations/revenue_growth.py:196-203 | passed, failed and filtered rows add up to the rows screened, and every passed record comes from a row that passes |
| RevenueGrowth.ScreenAll | growth_stock_screener/screen/iterations/revenue_growth.py:174-178 | the loop screens the rows in index order and stops at the first exception |
| RevenueGrowth.ScreenRowsStopsAtError | growth_stock_screener/screen/iterations/revenue_growth.py:177-178 | once a prefix raises, the later rows change nothing |
| RevenueGrowth.SymbolList | growth_stock_screener/screen/iterations/revenue_growth.py:53 | the symbol list is empty iff the frame has no Symbol column; otherwise it holds each row's Symbol cell in row order, NaN where the row has none |
| RevenueGrowth.RunRevenueGrowth | growth_stock_screener/screen/iterations/revenue_growth.py:28-187 | a skipped stage reloads; a missing input or a screening exception raises with nothing written; otherwise the records passed by screening the `df.iloc` rows of the input are written and the stage is marked |
| InstitutionalAccumulation.ReachableExchange | growth_stock_screener/screen/iterations/institutional_accumulation.py:57-72 | the exchange found is the first one answering 200, and there is none iff no exchange answers 200 |
| InstitutionalAccumulation.FetchExchange | growth_stock_screener/screen/iterations/institutional_accumulation.py:57-72 | the probing loop returns that first exchange |
| InstitutionalAccumulation.HoldingsDecision | growth_stock_screener/screen/iterations/institutional_accumulation.py:75-131 | holdings are missing iff no exchange answered, the page failed other than by timeout, or a figure was unreadable; a raising extraction yields the 1,000,000 / 500,000 placeholders |
| InstitutionalAccumulation.ScreenRowClassification | growth_stock_screener/screen/iterations/institutional_accumulation.py:134-199 | a row is accumulating iff its holdings were fetched with a non-negative net; it fails iff they are missing; it yields a record iff it has the symbol and required columns, whatever the holdings |
| InstitutionalAccumulation.SuccessRecord | growth_stock_screener/screen/iterations/institutional_accumulation.py:181-195 | the record copies the row's cells, holds the net inflows (null without holdings), and holds null for carried columns the row lacks |
| InstitutionalAccumulation.CollectCounts | growth_stock_screener/screen/iterations/institutional_accumulation.py:257-266 | after k rows there are at most k records and at most k failed-or-accumulating symbols |
| InstitutionalAccumulation.CollectKeepsCompleteRows | growth_stock_screener/screen/iterations/institutional_accumulation.py:179-195 | when every row is complete, every screened row reaches the output |
| InstitutionalAccumulation.BatchSize | growth_stock_screener/screen/iterations/institutional_accumulation.py:211 | the batch size is at most 10 and at most the row count, and is 0 iff there are no rows |
| InstitutionalAccumulation.BatchesAdjacent | growth_stock_screener/screen/iterations/institutional_accumulation.py:213-214 | every batch of `range(0, n, b)` is non-empty, and each full batch ends where the next one starts |
| InstitutionalAccumulation.BatchesCover | growth_stock_screener/screen/iterations/institutional_accumulation.py:213-214 | every row lies in exactly the batch numbered `i / b` |
| InstitutionalAccumulation.StartedFrom | growth_stock_screener/screen/iterations/institutional_accumulation.py:213-220 | the first batch the loop does not run is the first one past the rows or past the time budget |
| InstitutionalAccumulation.DeadlineAtBoundaries | growth_stock_screener/screen/iterations/institutional_accumulation.py:217-220 | the rows screened are all rows or a whole number of batches, and no batch past an over-budget check runs |
| InstitutionalAccumulation.ScreenBatch | growth_stock_screener/screen/iterations/institutional_accumulation.py:222-224 | a batch's pool extends the lists as screening its rows in order does |
| InstitutionalAccumulation.ProcessBatch | growth_stock_screener/screen/iterations/institutional_accumulation.py:222-229 | after a batch the artifact holds all records so far and the stage is marked; under a current ledger it is skippable; no skip is lost |
| InstitutionalAccumulation.BatchAt | growth_stock_screener/screen/iterations/institutional_accumulation.py:213-231 | one loop pass moves the lists from one batch boundary to the next |
| InstitutionalAccumulation.RunBatches | growth_stock_screener/screen/iterations/institutional_accumulation.py:202-231 | when the first check is over budget nothing is screened and nothing written; otherwise the loop leaves the lists of all rows in the batches that started before the deadline, and the artifact holds exactly their records |
| InstitutionalAccumulation.MonotoneClockBatches | growth_stock_screener/screen/iterations/institutional_accumulation.py:213-220 | with a clock that never goes back, batch j runs iff it starts inside the rows and the check before it is within budget |
| InstitutionalAccumulation.Workers | growth_stock_screener/screen/iterations/institutional_accumulation.py:224 | the pool has `min(threads, batch length)` workers |
| InstitutionalAccumulation.WorkersForBatch | growth_stock_screener/screen/iterations/institutional_accumulation.py:224 | the pool has at most 10 workers, and a non-empty batch gets no worker iff the machine has at most one core |
| InstitutionalAccumulation.FooterNotNegative | growth_stock_screener/screen/iterations/institutional_accumulation.py:257-266 | the "not under accumulation" count includes every unscreened row, so it is never negative; passed rows never exceed screened rows |
| InstitutionalAccumulation.SingleBatch | growth_stock_screener/screen/iterations/institutional_accumulation.py:211-220 | ten rows or fewer are screened entirely unless the very first check is over budget |
| InstitutionalAccumulation.ThreeCompleteRowsPass | growth_stock_screener/test_institutional.py:10-45 | the three sample rows, read through `df.iloc`, all reach the artifact, whatever marketbeat returns |
| InstitutionalAccumulation.FrameWithColumnsKeepsRows | growth_stock_screener/screen/iterations/institutional_accumulation.py:138-195 | a frame having Symbol and every column the record copies keeps a record for every screened row |
| InstitutionalAccumulation.RunInstitutionalAccumulation | growth_stock_screener/screen/iterations/institutional_accumulation.py:27-248 | a skipped stage reloads; a missing input raises; an empty input raises the zero-step error; otherwise the records of the screened `df.iloc` rows are written, the footer counts them, and under a current ledger the stage becomes skippable |
| Skyrocket.MetricOf | growth_stock_screener/screen/iterations/utils/skyrocket.py:15-16 | a metric is absent iff the key is missing or null |
| Skyrocket.Max | growth_stock_screener/screen/iterations/utils/skyrocket.py:48 | the 52-week high is a close and no close exceeds it |
| Skyrocket.Sma | growth_stock_screener/screen/iterations/utils/skyrocket.py:97-102 | a moving average exists iff there are at least `window` closes |
| Skyrocket.RevenueAward | growth_stock_screener/screen/iterations/utils/skyrocket.py:14-26 | revenue growth scores iff it converts and exceeds 15%, and scores 2 iff it exceeds 30% |
| Skyrocket.YearAward | growth_stock_screener/screen/iterations/utils/skyrocket.py:54-60 | a one-year return scores iff it exceeds 30%, and scores 2 iff it exceeds 100% |
| Skyrocket.NearHighAward | growth_stock_screener/screen/iterations/utils/skyrocket.py:62-64 | closeness to the high scores 1 iff it is computed and above -25% |
| Skyrocket.RsAward | growth_stock_screener/screen/iterations/utils/skyrocket.py:67-79 | the RS rating scores iff it converts and is at least 80, and scores 2 iff it is at least 90 |
| Skyrocket.InstitutionalAward | growth_stock_screener/screen/iterations/utils/skyrocket.py:81-91 | institutional ownership scores 1 iff it converts and exceeds 20% |
| Skyrocket.SmaAward | growth_stock_screener/screen/iterations/utils/skyrocket.py:104-117 | a moving average scores 1 iff the price converts and is above it |
| Skyrocket.Criteria | growth_stock_screener/screen/iterations/utils/skyrocket.py:14-117 | there are seven criteria, each giving 1 point up to its cap (2, 2, 1, 2, 1, 1, 1) |
| Skyrocket.ScoreProperties | growth_stock_screener/screen/iterations/utils/skyrocket.py:120-123 | the raw score is at most 10, so the cap never lowers it; the reason is "N/A" iff the score is 0; there are at most 7 reasons; the score lies between their number and twice it |
| Skyrocket.PointsMonotone | growth_stock_screener/screen/iterations/utils/skyrocket.py:17-24 | higher revenue growth, or a higher RS rating, never earns fewer points |
| Skyrocket.PricePreference | growth_stock_screener/screen/iterations/utils/skyrocket.py:31-39 | the price from `info` wins whenever present, even when it does not convert; the latest close is used only when it is absent |
| Skyrocket.GuardedDenominators | growth_stock_screener/screen/iterations/utils/skyrocket.py:41-52 | a return is computed iff the price converts and its denominator is non-zero; a price at or above a positive high is near the high |
| Skyrocket.AboveWindowEarnsTrendPoint | growth_stock_screener/screen/iterations/utils/skyrocket.py:97-108 | a price above every close of the window earns the moving-average point |
| Skyrocket.CoercedRow | growth_stock_screener/screen/iterations/utils/skyrocket.py:134 | coercion sets only the score cell, to a number or NaN, and keeps every other cell |
| Skyrocket.CoerceScores | growth_stock_screener/screen/iterations/utils/skyrocket.py:134 | every row of the frame is coerced, in place and in order |
| Skyrocket.Candidates | growth_stock_screener/screen/iterations/utils/skyrocket.py:134-135 | the rows kept by `dropna` are coerced rows of the table whose score cell is the candidate's number, at most one per row |
| Skyrocket.CandidatesComplete | growth_stock_screener/screen/iterations/utils/skyrocket.py:134-135 | every row whose score coerces to a number is kept, with that number |
| Skyrocket.CandidatesNone | growth_stock_screener/screen/iterations/utils/skyrocket.py:134-135 | nothing is kept when no score coerces to a number |
| Skyrocket.NoCandidatesIff | growth_stock_screener/screen/iterations/utils/skyrocket.py:134-135 | `dropna` leaves nothing iff no score coerces to a number |
| Skyrocket.SortDescSorted | growth_stock_screener/screen/iterations/utils/skyrocket.py:137 | the ordering has non-increasing scores and holds the same candidates |
| Skyrocket.TopK | growth_stock_screener/screen/iterations/utils/skyrocket.py:137 | `nlargest(10)` keeps `min(10, n)` candidates in non-increasing order, all from the input, and no candidate left out scores more than one kept |
| Skyrocket.TruncMonotone | growth_stock_screener/screen/iterations/utils/skyrocket.py:156 | `int()` truncation keeps the order of scores |
| Skyrocket.TopTenProperties | growth_stock_screener/screen/iterations/utils/skyrocket.py:126-170 | the snippet is empty iff there is no score column or no row; the no-candidates block appears iff no row's score coerces to a number; a list holds 1 to 10 items in non-increasing integer score, the best of the table |
| Skyrocket.GenerateTopTenHtml | growth_stock_screener/screen/iterations/utils/skyrocket.py:126-170 | the result is the top-10 snippet of the original frame; the caller's score column is coerced in place unless the function returns "" first |
| Skyrocket.ListItems | growth_stock_screener/screen/iterations/utils/skyrocket.py:153-162 | the loop lists one item per top row, in order; a frame lacking Symbol or the reason column raises the KeyError of that column |
| Analysis.LoadFinal | growth_stock_screener/screen/iterations/utils/analysis.py:25-32 | the report is built iff the final artifact loads and has rows |
| Analysis.MarketCapLabel | growth_stock_screener/screen/iterations/utils/analysis.py:250-259 | a numeric cap is shown in billions from 1e9, in millions from 1e6, else in dollars, with the scaled value; a NaN cap takes the dollars branch ("$nan"); anything else is shown as is |
| Analysis.LookbackIndex | growth_stock_screener/screen/iterations/utils/analysis.py:269-273 | the k-day return uses the k-th close from the end when there are k closes, else the first |
| Analysis.LookbacksOrdered | growth_stock_screener/screen/iterations/utils/analysis.py:268-273 | longer lookbacks never start later: 6 months, 3 months, 1 month, 1 week |
| Analysis.RsiClassOf | growth_stock_screener/screen/iterations/utils/analysis.py:476-481 | RSI is overbought iff above 70, oversold iff below 30, neutral otherwise |
| Analysis.RsiClassMonotone | growth_stock_screener/screen/iterations/utils/analysis.py:476-481 | a higher RSI is never less overbought, a lower one never less oversold |
| Analysis.InitScores | growth_stock_screener/screen/iterations/utils/analysis.py:219-221 | the added columns leave the table's score column valid for the loop (NaN or 0 to 10) and keep every other cell of every row |
| Analysis.FirstMatch | growth_stock_screener/screen/iterations/utils/analysis.py:237 | the row used for a symbol is the first with that symbol, and there is none iff no row matches |
| Analysis.SetScore | growth_stock_screener/screen/iterations/utils/analysis.py:377-378 | the score is written to every row with the symbol, and to no other row |
| Analysis.ScoreStepKeepsValid | growth_stock_screener/screen/iterations/utils/analysis.py:363-382 | after one symbol every score is still NaN or an integer from 0 to 10 |
| Analysis.ScoreLoopKeepsValid | growth_stock_screener/screen/iterations/utils/analysis.py:232-382 | the scoring loop keeps every score NaN or within 0 to 10 |
| Analysis.ScoringFallback | growth_stock_screener/screen/iterations/utils/analysis.py:363-382 | when the history cannot be extracted, the symbol's rows get 0 and "Error during scoring"; otherwise they get the Skyrocket score of its first row |
| Analysis.ScoreSymbols | growth_stock_screener/screen/iterations/utils/analysis.py:232-382 | the loop over symbols updates the frame in place as the scoring specification says |
| Analysis.FindSummaryEnd | growth_stock_screener/screen/iterations/utils/analysis.py:696-704 | the search finds the first chunk closing a div after a summary chunk or holding the placeholder, or -1 when there is none |
| Analysis.FindHeader | growth_stock_screener/screen/iterations/utils/analysis.py:714-717 | the fallback search returns the first chunk with the detailed-analysis header, and -1 exactly when no chunk from the start holds it |
| Analysis.PyInsert | growth_stock_screener/screen/iterations/utils/analysis.py:708 | the result is one longer, holds `x` at the insert position, keeps the elements before it and moves the rest up by one |
| Analysis.InsertPosition | growth_stock_screener/screen/iterations/utils/analysis.py:708-719 | `list.insert` puts a position between 0 and the length as is, clamps one past the end to the end, counts a negative one from the end, and clamps one before the start to 0 |
| Analysis.PyInsertSlices | growth_stock_screener/screen/iterations/utils/analysis.py:708 | the insertion equals the list cut at the position with `x` between the parts |
| Analysis.WithoutPlaceholder | growth_stock_screener/screen/iterations/utils/analysis.py:710 | no chunk left holds the placeholder marker, and a list without it is unchanged |
| Analysis.Report.constructor | growth_stock_screener/screen/iterations/utils/analysis.py:44-214 | the report starts with its header chunk |
| Analysis.Report.AppendCard | growth_stock_screener/screen/iterations/utils/analysis.py:686 | a stock card is appended |
| Analysis.Report.InsertTopTen | growth_stock_screener/screen/iterations/utils/analysis.py:693-719 | the two search loops and the insertion leave the chunks as the insertion specification says |
| Analysis.InsertionAddsOnlySnippet | growth_stock_screener/screen/iterations/utils/analysis.py:706-719 | without placeholders, insertion adds exactly the snippet at one position and keeps every other chunk in order |
| Analysis.SnippetAfterFirstCard | growth_stock_screener/screen/iterations/utils/analysis.py:697-708 | with a summary header and a first card, the snippet lands right after that first card |
| Analysis.NoCardsSnippetFirst | growth_stock_screener/screen/iterations/utils/analysis.py:713-717 | with no card, the snippet goes before the header holding the detailed-analysis heading |
| Analysis.HeaderCommentOpensOnce | growth_stock_screener/screen/iterations/utils/analysis.py:211 | the header's comment has 70 characters, the searched marker 42, and the comment opens only once |
| Analysis.HeaderCommentIsNotPlaceholder | growth_stock_screener/screen/iterations/utils/analysis.py:211 | the comment the header carries does not contain the marker the search looks for |
| GenerateInstitutional.PlaceholderInflow | growth_stock_screener/generate_institutional.py:19-24 | the inflow is negative iff the row index is a multiple of 5 (-1M or -6M); otherwise it is 2M times `i % 10 + 1`; it is never 0 |
| GenerateInstitutional.InflowPeriodic | growth_stock_screener/generate_institutional.py:21-24 | the inflows repeat every ten rows |
| GenerateInstitutional.NegativeRowsCount | growth_stock_screener/generate_institutional.py:21 | one row in five, rounded up, gets a negative inflow |
| GenerateInstitutional.PlaceholdersShape | growth_stock_screener/generate_institutional.py:19-24 | every row keeps its other cells and gets a float inflow, negative exactly on every fifth row |
| GenerateInstitutional.FillPlaceholders | growth_stock_screener/generate_institutional.py:19-24 | the loop writes exactly those inflows into the rows, in place |
| GenerateInstitutional.GeneratedLedger | growth_stock_screener/generate_institutional.py:32-41 | an absent ledger is left absent, a corrupt one raises, and a parsed one lists the stage afterwards |
| GenerateInstitutional.GeneratedLedgerIsMark | growth_stock_screener/generate_institutional.py:33-41 | on a parsed ledger the script edits it exactly as marking the stage complete does; it is idempotent and never creates a ledger |
| GenerateInstitutional.GeneratedStageSkips | growth_stock_screener/generate_institutional.py:31-41 | run under a current ledger, the script makes the stage skippable in that run |
| GenerateInstitutional.Generate | growth_stock_screener/generate_institutional.py:9-46 | without the input nothing changes; otherwise the generated table is written first and the ledger is edited as specified, unchanged when the edit raises |
| RunScreen.ReconciledSkipsAll | growth_stock_screener/run_screen.py:19-36 | after reconciliation every stage is skipped iff the directory holds a complete run with the same fingerprint and date |
| RunScreen.ImportNasdaqListings | growth_stock_screener/run_screen.py:31 | a skipped stage changes nothing; under a current ledger a successful stage becomes skippable; no skip is lost |
| RunScreen.ImportRelativeStrength | growth_stock_screener/run_screen.py:32 | the same guarantees for the relative-strength stage |
| RunScreen.ImportLiquidity | growth_stock_screener/run_screen.py:33 | the same guarantees for the liquidity stage |
| RunScreen.ImportTrend | growth_stock_screener/run_screen.py:34 | the same guarantees for the trend stage |
| RunScreen.ImportRevenueGrowth | growth_stock_screener/run_screen.py:35 | the same guarantees for the revenue-growth stage |
| RunScreen.ImportInstitutionalAccumulation | growth_stock_screener/run_screen.py:36 | the same guarantees for the institutional-accumulation stage |
| RunScreen.RunStages | growth_stock_screener/run_screen.py:31-36 | a successful run under a current ledger leaves all six stages skippable; if all were skippable beforehand, nothing changes |
| RunScreen.RunScreen | growth_stock_screener/run_screen.py:19-54 | a successful screen leaves every stage skippable and the ledger current; the report is built only from a final table with rows; a resumable directory is left untouched and yields its stored final table |

## Left out

- MD5 and `json.dumps` text: the digest is a parameter applied to the canonical value; collisions are not modelled.
- Floating point: floats are reals and NaN is `Null`; rounding and numpy scalar types are not modelled.
- Network, browsers and downloads: requests, Selenium and yfinance are replaced by their outcomes, given as parameters.
- Clocks: wall-clock time and today's date are parameters. The stage clock is the time read at each batch check.
- Concurrency: the thread pool screens a batch's rows in index order. With real threads, only the set of records, not their order, is determined.
- `tqdm_thread_pool_map` with 0 workers: its behaviour is not part of this model. A one-core machine is only shown to get 0 workers.
- relative_strength.py, liquidity.py and trend.py are not part of this model: those stages follow the generic stage protocol with a caller-supplied table transform.
- `fetch_all_revenues`, `extract_revenue`, `previous_timeframe` and `percent_change` are not part of this model: they are caller-supplied functions.
- summary.py and the CSV and Excel outputs of run_screen.py (lines 43-50) are not modelled: they only write files derived from the final table.
- simple_run.py, run_analysis.py and test_run.py are not modelled: they are alternative drivers.
- HTML text: chunks are strings given by the caller. Stock-card contents, price statistics, volatility, the report file write and the browser launch are left out.
- `pd.to_numeric` on booleans and strings: a caller-supplied parse. The coerced column is stored as floats.
- Reason joining: `", ".join(reasons)` is a caller-supplied rendering of the reason list.
- Write errors swallowed by `mark_iteration_complete` (lines 95-99) are not modelled: writes always succeed.
- A ledger whose JSON is not an object is not modelled: the ledger is missing, corrupt, or an object.
- Printing, banners, colours and the Python version check are left out.
- GenerateInstitutional.Generate: the script's `df.at[i, ...]` labels are assumed to equal row positions, and a corrupt `revenue_growth.json` is not modelled.
- RunScreen.RunScreen: does not state the final table's content beyond its being the stored final artifact; the stage contents are stated by each stage's own method.
