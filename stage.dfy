/** The protocol every stage module follows at import time: ask the
    ledger whether the stage can be skipped; if so load the stage's own
    artifact, otherwise read the predecessor's artifact, compute, write
    the stage's artifact and then mark the stage complete. */
module Stage {
  import opened Json
  import opened Wrappers
  import opened Workspace
  import opened Outfiles
  import opened Cache

  /** What each stage knows about the run: the settings snapshot taken
      with `get_current_settings`, the digest standing for MD5, and
      today's date. */
  datatype Context = Context(settings: seq<Field>, digest: Json -> string, today: string) {
    function Hash(): string {
      GetSettingsHash(digest, settings)
    }
  }

  /** `should_skip_iteration(name, current_settings)` under this run. */
  predicate Skips(dir: JsonDir, ctx: Context, name: string)
    reads dir
  {
    ShouldSkipIteration(dir, name, ctx.settings, ctx.digest, ctx.today)
  }

  /** The end of a computing stage: `create_outfile(result, name)`
      followed by `mark_iteration_complete(name)`. The artifact is
      written first, so it is in place even when marking raises. */
  method Commit(dir: JsonDir, ctx: Context, name: string, data: Table) returns (r: Result<(), PyError>)
    requires dir.Valid()
    modifies dir
    ensures dir.Valid() && dir.dirExists
    ensures dir.files == old(dir.files)[OutfilePath(name) := data]
    ensures r.Ok? <==> MarkedLedger(old(dir.ledger), name, ctx.today).Ok?
    ensures dir.ledger == if r.Ok? then MarkedLedger(old(dir.ledger), name, ctx.today).value else old(dir.ledger)
    ensures Current(old(dir.ledger), ctx.Hash(), ctx.today) ==>
      r.Ok? && Current(dir.ledger, ctx.Hash(), ctx.today) && Skips(dir, ctx, name)
    ensures forall other :: old(Skips(dir, ctx, other)) ==> Skips(dir, ctx, other)
  {
    CreateOutfile(dir, data, name);
    r := MarkIterationComplete(dir, name, ctx.today);
    MarkKeepsCurrent(old(dir.ledger), ctx.settings, ctx.Hash(), ctx.today, name);
  }

  /** The relative-strength, liquidity and trend stages, whose modules are
      not part of this model: the same skip protocol around a computation
      that turns the predecessor's table into this stage's table. */
  method RunStage(dir: JsonDir, ctx: Context, name: string, input: string, compute: Table -> Table)
    returns (r: Result<Table, PyError>, computed: bool)
    requires dir.Valid()
    modifies dir
    ensures dir.Valid()
    ensures old(Skips(dir, ctx, name)) ==>
      !computed && r == old(OpenOutfile(dir, name)) && r.Ok? &&
      dir.files == old(dir.files) && dir.ledger == old(dir.ledger)
    ensures !old(Skips(dir, ctx, name)) && old(OpenOutfile(dir, input)).Err? ==>
      !computed && r == old(OpenOutfile(dir, input)) && dir.files == old(dir.files) && dir.ledger == old(dir.ledger)
    ensures !old(Skips(dir, ctx, name)) && old(OpenOutfile(dir, input)).Ok? ==>
      computed &&
      dir.files == old(dir.files)[OutfilePath(name) := compute(old(OpenOutfile(dir, input)).value)] &&
      (r.Ok? ==> r.value == compute(old(OpenOutfile(dir, input)).value))
    ensures Current(old(dir.ledger), ctx.Hash(), ctx.today) && r.Ok? ==>
      Current(dir.ledger, ctx.Hash(), ctx.today) && Skips(dir, ctx, name) &&
      OpenOutfile(dir, name) == r
    ensures Current(old(dir.ledger), ctx.Hash(), ctx.today) && old(OpenOutfile(dir, input)).Ok? ==> r.Ok?
    ensures forall other :: old(Skips(dir, ctx, other)) ==> Skips(dir, ctx, other)
  {
    if Skips(dir, ctx, name) {
      return OpenOutfile(dir, name), false;
    }
    var source := OpenOutfile(dir, input);
    if source.Err? {
      return source, false;
    }
    var result := compute(source.value);
    var marked := Commit(dir, ctx, name, result);
    ReadAfterWrite(old(dir.files), name, result, name);
    computed := true;
    if marked.Err? {
      r := Err(marked.error);
    } else {
      r := Ok(result);
    }
  }
}
