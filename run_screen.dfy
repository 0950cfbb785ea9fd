/** The entry script run_screen.py: take the settings snapshot, reconcile
    the ledger, run the six stages in order by importing their modules,
    read the final artifact, and build the report from it. A stage that
    raises ends the run. */
module RunScreen {
  import opened Json
  import opened Wrappers
  import opened Workspace
  import opened Outfiles
  import opened Cache
  import opened Settings
  import opened Stage
  import NasdaqListings
  import RevenueGrowth
  import InstitutionalAccumulation
  import Analysis

  /** The stages, in the order run_screen.py imports them. */
  const Stages: seq<string> :=
    ["nasdaq_listings", "relative_strength", "liquidity", "trend", "revenue_growth", "institutional_accumulation"]

  /** The artifact the results are read from. */
  const FinalIteration: string := "institutional_accumulation"

  /** Everything the stages take from outside the directory: the NASDAQ
      response, the relative-strength, liquidity and trend computations
      (their modules are not part of this model), the revenue helpers and
      fetch, and the MarketBeat pages with the clock. */
  datatype World = World(
    response: NasdaqListings.Response,
    relativeStrength: Table -> Table,
    liquidity: Table -> Table,
    trend: Table -> Table,
    revenueHelpers: RevenueGrowth.Helpers,
    fetchAllRevenues: seq<Json> -> map<Json, RevenueGrowth.RevenueReport>,
    marketbeat: InstitutionalAccumulation.Marketbeat,
    clock: nat -> real)

  /** A ledger and directory left by an earlier complete run with the same
      settings on the same day. */
  predicate Resumable(ledger: LedgerFile, files: map<string, Table>, h: string, today: string) {
    SameRun(ledger, h, today) &&
    forall k :: 0 <= k < |Stages| ==> Stages[k] in CompletedList(ledger) && OutfilePath(Stages[k]) in files
  }

  /** Right after the ledger is reconciled, every stage is skipped exactly
      when the directory was left by a complete run of the same settings
      on the same day. */
  lemma ReconciledSkipsAll(ledger: LedgerFile, files: map<string, Table>, settings: seq<Field>,
                           digest: Json -> string, today: string)
    ensures var h := GetSettingsHash(digest, settings);
      (forall k :: 0 <= k < |Stages| ==>
        SkipDecision(Parsed(ReconciledEntry(ledger, settings, h, today)), files, Stages[k], h, today)) <==>
      Resumable(ledger, files, h, today)
  {
    var h := GetSettingsHash(digest, settings);
    assert |Stages| == 6;
    forall k | 0 <= k < |Stages|
      ensures SkipDecision(Parsed(ReconciledEntry(ledger, settings, h, today)), files, Stages[k], h, today) <==>
        SameRun(ledger, h, today) && Stages[k] in CompletedList(ledger) && OutfilePath(Stages[k]) in files
    {
      SkipAfterReconcile(ledger, files, settings, digest, today, Stages[k]);
    }
    if forall k :: 0 <= k < |Stages| ==>
        SkipDecision(Parsed(ReconciledEntry(ledger, settings, h, today)), files, Stages[k], h, today) {
      assert SkipDecision(Parsed(ReconciledEntry(ledger, settings, h, today)), files, Stages[0], h, today);
    }
  }

  /** `import screen.iterations.nasdaq_listings`. */
  method ImportNasdaqListings(dir: JsonDir, ctx: Context, world: World) returns (r: Result<(), PyError>)
    requires dir.Valid()
    modifies dir
    ensures dir.Valid()
    ensures old(Skips(dir, ctx, Stages[0])) ==> r.Ok? && dir.files == old(dir.files) && dir.ledger == old(dir.ledger)
    ensures Current(old(dir.ledger), ctx.Hash(), ctx.today) && r.Ok? ==>
      Current(dir.ledger, ctx.Hash(), ctx.today) && Skips(dir, ctx, Stages[0])
    ensures forall other :: old(Skips(dir, ctx, other)) ==> Skips(dir, ctx, other)
  {
    var t, requested := NasdaqListings.RunNasdaqListings(dir, ctx, world.response);
    r := if t.Ok? then Ok(()) else Err(t.error);
  }

  /** `import screen.iterations.relative_strength`. */
  method ImportRelativeStrength(dir: JsonDir, ctx: Context, world: World) returns (r: Result<(), PyError>)
    requires dir.Valid()
    modifies dir
    ensures dir.Valid()
    ensures old(Skips(dir, ctx, Stages[1])) ==> r.Ok? && dir.files == old(dir.files) && dir.ledger == old(dir.ledger)
    ensures Current(old(dir.ledger), ctx.Hash(), ctx.today) && r.Ok? ==>
      Current(dir.ledger, ctx.Hash(), ctx.today) && Skips(dir, ctx, Stages[1])
    ensures forall other :: old(Skips(dir, ctx, other)) ==> Skips(dir, ctx, other)
  {
    var t, computed := RunStage(dir, ctx, Stages[1], "nasdaq_listings", world.relativeStrength);
    r := if t.Ok? then Ok(()) else Err(t.error);
  }

  /** `import screen.iterations.liquidity`. */
  method ImportLiquidity(dir: JsonDir, ctx: Context, world: World) returns (r: Result<(), PyError>)
    requires dir.Valid()
    modifies dir
    ensures dir.Valid()
    ensures old(Skips(dir, ctx, Stages[2])) ==> r.Ok? && dir.files == old(dir.files) && dir.ledger == old(dir.ledger)
    ensures Current(old(dir.ledger), ctx.Hash(), ctx.today) && r.Ok? ==>
      Current(dir.ledger, ctx.Hash(), ctx.today) && Skips(dir, ctx, Stages[2])
    ensures forall other :: old(Skips(dir, ctx, other)) ==> Skips(dir, ctx, other)
  {
    var t, computed := RunStage(dir, ctx, Stages[2], "relative_strength", world.liquidity);
    r := if t.Ok? then Ok(()) else Err(t.error);
  }

  /** `import screen.iterations.trend`. */
  method ImportTrend(dir: JsonDir, ctx: Context, world: World) returns (r: Result<(), PyError>)
    requires dir.Valid()
    modifies dir
    ensures dir.Valid()
    ensures old(Skips(dir, ctx, Stages[3])) ==> r.Ok? && dir.files == old(dir.files) && dir.ledger == old(dir.ledger)
    ensures Current(old(dir.ledger), ctx.Hash(), ctx.today) && r.Ok? ==>
      Current(dir.ledger, ctx.Hash(), ctx.today) && Skips(dir, ctx, Stages[3])
    ensures forall other :: old(Skips(dir, ctx, other)) ==> Skips(dir, ctx, other)
  {
    var t, computed := RunStage(dir, ctx, Stages[3], "liquidity", world.trend);
    r := if t.Ok? then Ok(()) else Err(t.error);
  }

  /** `import screen.iterations.revenue_growth`. */
  method ImportRevenueGrowth(dir: JsonDir, ctx: Context, world: World) returns (r: Result<(), PyError>)
    requires dir.Valid()
    modifies dir
    ensures dir.Valid()
    ensures old(Skips(dir, ctx, Stages[4])) ==> r.Ok? && dir.files == old(dir.files) && dir.ledger == old(dir.ledger)
    ensures Current(old(dir.ledger), ctx.Hash(), ctx.today) && r.Ok? ==>
      Current(dir.ledger, ctx.Hash(), ctx.today) && Skips(dir, ctx, Stages[4])
    ensures forall other :: old(Skips(dir, ctx, other)) ==> Skips(dir, ctx, other)
  {
    var t, tally := RevenueGrowth.RunRevenueGrowth(dir, ctx, world.revenueHelpers, world.fetchAllRevenues);
    r := if t.Ok? then Ok(()) else Err(t.error);
  }

  /** `import screen.iterations.institutional_accumulation`. */
  method ImportInstitutionalAccumulation(dir: JsonDir, ctx: Context, world: World) returns (r: Result<(), PyError>)
    requires dir.Valid()
    modifies dir
    ensures dir.Valid()
    ensures old(Skips(dir, ctx, Stages[5])) ==> r.Ok? && dir.files == old(dir.files) && dir.ledger == old(dir.ledger)
    ensures Current(old(dir.ledger), ctx.Hash(), ctx.today) && r.Ok? ==>
      Current(dir.ledger, ctx.Hash(), ctx.today) && Skips(dir, ctx, Stages[5])
    ensures forall other :: old(Skips(dir, ctx, other)) ==> Skips(dir, ctx, other)
  {
    var t, footer := InstitutionalAccumulation.RunInstitutionalAccumulation(dir, ctx, world.marketbeat, world.clock);
    r := if t.Ok? then Ok(()) else Err(t.error);
  }

  /** The stages listed before index `n` are all skipped. */
  predicate SkipsBefore(dir: JsonDir, ctx: Context, n: nat)
    requires n <= |Stages|
    reads dir
  {
    forall k :: 0 <= k < n ==> Skips(dir, ctx, Stages[k])
  }

  /** The six imports in order, stopping at the first that raises. Under
      a ledger current for the run, a run that gets through leaves every
      stage skippable; when every stage is skippable already, nothing is
      recomputed and nothing changes. */
  method RunStages(dir: JsonDir, ctx: Context, world: World) returns (r: Result<(), PyError>)
    requires dir.Valid()
    modifies dir
    ensures dir.Valid()
    ensures Current(old(dir.ledger), ctx.Hash(), ctx.today) && r.Ok? ==>
      Current(dir.ledger, ctx.Hash(), ctx.today) && SkipsBefore(dir, ctx, |Stages|)
    ensures old(SkipsBefore(dir, ctx, |Stages|)) ==>
      r.Ok? && dir.files == old(dir.files) && dir.ledger == old(dir.ledger)
  {
    ghost var current := Current(dir.ledger, ctx.Hash(), ctx.today);
    ghost var resumed := SkipsBefore(dir, ctx, |Stages|);
    ghost var files, ledger := dir.files, dir.ledger;
    r := ImportNasdaqListings(dir, ctx, world);
    if r.Err? {
      return;
    }
    assert current ==> Current(dir.ledger, ctx.Hash(), ctx.today) && SkipsBefore(dir, ctx, 1);
    assert resumed ==> SkipsBefore(dir, ctx, |Stages|) && dir.files == files && dir.ledger == ledger;
    r := ImportRelativeStrength(dir, ctx, world);
    if r.Err? {
      return;
    }
    assert current ==> Current(dir.ledger, ctx.Hash(), ctx.today) && SkipsBefore(dir, ctx, 2);
    assert resumed ==> SkipsBefore(dir, ctx, |Stages|) && dir.files == files && dir.ledger == ledger;
    r := ImportLiquidity(dir, ctx, world);
    if r.Err? {
      return;
    }
    assert current ==> Current(dir.ledger, ctx.Hash(), ctx.today) && SkipsBefore(dir, ctx, 3);
    assert resumed ==> SkipsBefore(dir, ctx, |Stages|) && dir.files == files && dir.ledger == ledger;
    r := ImportTrend(dir, ctx, world);
    if r.Err? {
      return;
    }
    assert current ==> Current(dir.ledger, ctx.Hash(), ctx.today) && SkipsBefore(dir, ctx, 4);
    assert resumed ==> SkipsBefore(dir, ctx, |Stages|) && dir.files == files && dir.ledger == ledger;
    r := ImportRevenueGrowth(dir, ctx, world);
    if r.Err? {
      return;
    }
    assert current ==> Current(dir.ledger, ctx.Hash(), ctx.today) && SkipsBefore(dir, ctx, 5);
    assert resumed ==> SkipsBefore(dir, ctx, |Stages|) && dir.files == files && dir.ledger == ledger;
    r := ImportInstitutionalAccumulation(dir, ctx, world);
  }

  /** The script, up to the report: `final` is the table read back from
      the last artifact, `report` the table the analysis is built from.
      The CSV and the summary workbook written in between are not
      modelled. */
  method RunScreen(dir: JsonDir, ns: seq<Binding>, digest: Json -> string, today: string, world: World)
    returns (final: Result<Table, PyError>, report: Option<Table>)
    requires dir.Valid()
    modifies dir
    ensures dir.Valid()
    ensures var ctx := Context(Snapshot(ns), digest, today);
      final.Ok? ==>
        SkipsBefore(dir, ctx, |Stages|) && Current(dir.ledger, ctx.Hash(), today) &&
        final == OpenOutfile(dir, FinalIteration)
    ensures final.Err? ==> report.None?
    ensures final.Ok? ==> report == Analysis.LoadFinal(final)
    ensures Resumable(old(dir.ledger), old(dir.files), GetSettingsHash(digest, Snapshot(ns)), today) ==>
      final.Ok? && dir.files == old(dir.files) && final == Lookup(old(dir.files), FinalIteration)
  {
    report := None;
    var settings := GetCurrentSettings(ns);
    var ctx := Context(settings, digest, today);
    SaveCacheSettings(dir, settings, digest, today);
    MarkKeepsCurrent(old(dir.ledger), settings, ctx.Hash(), today, "");
    ReconciledSkipsAll(old(dir.ledger), old(dir.files), settings, digest, today);
    ghost var resumed := Resumable(old(dir.ledger), old(dir.files), ctx.Hash(), today);
    assert resumed ==> SkipsBefore(dir, ctx, |Stages|) && dir.files == old(dir.files);

    var ran := RunStages(dir, ctx, world);
    if ran.Err? {
      return Err(ran.error), None;
    }
    assert Stages[5] == FinalIteration;
    final := OpenOutfile(dir, FinalIteration);
    if final.Err? {
      return final, None;
    }
    report := Analysis.LoadFinal(OpenOutfile(dir, FinalIteration));
  }
}
