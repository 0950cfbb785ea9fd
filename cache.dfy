/** The stage ledger (screen/iterations/utils/cache.py): the settings
    fingerprint, the start-of-run reconciliation, marking a stage
    complete, and the skip decision. The current date and the MD5 digest
    are supplied by the caller. */
module Cache {
  import opened Json
  import opened Wrappers
  import opened Workspace
  import opened Outfiles

  /** `get_settings_hash`: the digest of the key-sorted serialisation of
      the settings. `digest` stands for MD5 of the JSON text; the text is
      a function of the canonical value, so only the canonical value is
      passed on. */
  function GetSettingsHash(digest: Json -> string, settings: seq<Field>): string {
    digest(Canonical(Object(settings)))
  }

  /** Settings with the same keys and the same values under each key,
      whatever the order their keys were inserted in, have the same
      fingerprint. */
  lemma SettingsHashIgnoresKeyOrder(digest: Json -> string, s1: seq<Field>, s2: seq<Field>)
    requires WellFormed(Object(s1)) && WellFormed(Object(s2))
    requires KeyOrderEq(Object(s1), Object(s2))
    ensures GetSettingsHash(digest, s1) == GetSettingsHash(digest, s2)
  {
    CanonicalIffKeyOrderEq(Object(s1), Object(s2));
  }

  /** The stored ledger was written by a run with fingerprint `h` on
      `today`. */
  predicate SameRun(ledger: LedgerFile, h: string, today: string) {
    ledger.Parsed? && ledger.entry.settingsHash == Some(h) && ledger.entry.timestamp == Some(today)
  }

  /** The completed list as `cache_data.get("iterations_completed", [])`
      sees it. */
  function CompletedList(ledger: LedgerFile): seq<string> {
    if ledger.Parsed? then ledger.entry.completed.GetOr([]) else []
  }

  /** The entry `save_cache_settings` writes: the new settings, their
      fingerprint and today's date, carrying the completed list forward
      only from a ledger of the same settings and day. A missing or
      unparseable ledger starts fresh. */
  function ReconciledEntry(ledger: LedgerFile, settings: seq<Field>, h: string, today: string): Entry {
    var kept := if SameRun(ledger, h, today) then CompletedList(ledger) else [];
    Entry(Some(settings), Some(h), Some(today), Some(kept))
  }

  /** `save_cache_settings`. */
  method SaveCacheSettings(dir: JsonDir, settings: seq<Field>, digest: Json -> string, today: string)
    requires dir.Valid()
    modifies dir
    ensures dir.Valid() && dir.dirExists && dir.files == old(dir.files)
    ensures dir.ledger == Parsed(ReconciledEntry(old(dir.ledger), settings, GetSettingsHash(digest, settings), today))
  {
    var h := GetSettingsHash(digest, settings);
    var entry := Entry(Some(settings), Some(h), Some(today), Some([]));
    if !dir.dirExists {
      dir.dirExists := true;
    }
    match dir.ledger {
      case Parsed(stored) =>
        if stored.settingsHash == Some(h) && stored.timestamp == Some(today) {
          entry := entry.(completed := Some(stored.completed.GetOr([])));
        }
      case _ =>
    }
    dir.ledger := Parsed(entry);
  }

  /** The ledger `mark_iteration_complete` creates when there is none, or
      when the file does not parse. */
  function FreshEntry(name: string, today: string): Entry {
    Entry(Some([]), Some(""), Some(today), Some([name]))
  }

  /** The ledger after marking `name` complete, or the KeyError raised
      when a parsed ledger has no `iterations_completed` key. */
  function MarkedLedger(ledger: LedgerFile, name: string, today: string): Result<LedgerFile, PyError> {
    match ledger
    case Parsed(e) =>
      if name in e.completed.GetOr([]) then Ok(ledger)
      else if e.completed.None? then Err(KeyError(Str("iterations_completed")))
      else Ok(Parsed(e.(completed := Some(e.completed.value + [name]))))
    case _ => Ok(Parsed(FreshEntry(name, today)))
  }

  /** `mark_iteration_complete`. */
  method MarkIterationComplete(dir: JsonDir, name: string, today: string) returns (r: Result<(), PyError>)
    requires dir.Valid()
    modifies dir
    ensures dir.Valid() && dir.dirExists && dir.files == old(dir.files)
    ensures MarkedLedger(old(dir.ledger), name, today).Ok? <==> r.Ok?
    ensures r.Ok? ==> dir.ledger == MarkedLedger(old(dir.ledger), name, today).value
    ensures r.Err? ==> dir.ledger == old(dir.ledger) && r.error == KeyError(Str("iterations_completed"))
  {
    if !dir.dirExists {
      dir.dirExists := true;
    }
    var updated: LedgerFile;
    match dir.ledger {
      case Parsed(e) =>
        if name !in e.completed.GetOr([]) {
          if e.completed.None? {
            return Err(KeyError(Str("iterations_completed")));
          }
          updated := Parsed(e.(completed := Some(e.completed.value + [name])));
        } else {
          updated := dir.ledger;
        }
      case _ =>
        updated := Parsed(FreshEntry(name, today));
    }
    dir.ledger := updated;
    r := Ok(());
  }

  /** Marking records the name, fails only on a parsed ledger without a
      completed list, and otherwise leaves settings, fingerprint, date and
      the earlier entries in their order untouched. */
  lemma MarkRecordsName(ledger: LedgerFile, name: string, today: string)
    ensures MarkedLedger(ledger, name, today).Err? <==>
      ledger.Parsed? && ledger.entry.completed.None?
    ensures MarkedLedger(ledger, name, today).Ok? ==>
      var l := MarkedLedger(ledger, name, today).value;
      l.Parsed? && l.entry.completed.Some? && name in l.entry.completed.value
    ensures MarkedLedger(ledger, name, today).Ok? && ledger.Parsed? ==>
      var e, e' := ledger.entry, MarkedLedger(ledger, name, today).value.entry;
      e'.settings == e.settings && e'.settingsHash == e.settingsHash && e'.timestamp == e.timestamp &&
      (e'.completed == e.completed || e'.completed == Some(e.completed.value + [name]))
    ensures !ledger.Parsed? ==> MarkedLedger(ledger, name, today) == Ok(Parsed(FreshEntry(name, today)))
  {
  }

  /** Marking twice is the same as marking once. */
  lemma MarkIdempotent(ledger: LedgerFile, name: string, today: string, later: string)
    requires MarkedLedger(ledger, name, today).Ok?
    ensures MarkedLedger(MarkedLedger(ledger, name, today).value, name, later) ==
      MarkedLedger(ledger, name, today)
  {
  }

  /** The skip decision on a given ledger and set of files. */
  predicate SkipDecision(ledger: LedgerFile, files: map<string, Table>, name: string, h: string, today: string) {
    SameRun(ledger, h, today) && name in CompletedList(ledger) && OutfilePath(name) in files
  }

  /** `should_skip_iteration`: a read-only query of the directory. */
  function ShouldSkipIteration(dir: JsonDir, name: string, currentSettings: seq<Field>,
                               digest: Json -> string, today: string): bool
    reads dir
  {
    SkipDecision(dir.ledger, dir.files, name, GetSettingsHash(digest, currentSettings), today)
  }

  /** A stage is never skipped when its artifact is gone, and never when
      the ledger is missing or unparseable, whatever else holds. */
  lemma NoSkipWithoutArtifactOrLedger(ledger: LedgerFile, files: map<string, Table>,
                                       name: string, h: string, today: string)
    ensures OutfilePath(name) !in files ==> !SkipDecision(ledger, files, name, h, today)
    ensures !ledger.Parsed? ==> !SkipDecision(ledger, files, name, h, today)
  {
  }

  /** Resume semantics: right after reconciliation a stage is skipped iff
      the previous ledger was written with the same settings on the same
      day, listed the stage, and the stage's artifact is still there. */
  lemma SkipAfterReconcile(ledger: LedgerFile, files: map<string, Table>, settings: seq<Field>,
                           digest: Json -> string, today: string, name: string)
    ensures var h := GetSettingsHash(digest, settings);
      SkipDecision(Parsed(ReconciledEntry(ledger, settings, h, today)), files, name, h, today) <==>
      SameRun(ledger, h, today) && name in CompletedList(ledger) && OutfilePath(name) in files
  {
  }

  /** Writing a stage's artifact and then marking it complete, under a
      ledger that matches the run, makes the stage skippable; writing or
      marking another stage never makes it unskippable. */
  lemma WriteThenMarkEnablesSkip(ledger: LedgerFile, files: map<string, Table>, name: string,
                                 data: Table, h: string, today: string, other: string)
    requires SameRun(ledger, h, today)
    requires MarkedLedger(ledger, name, today).Ok?
    ensures var l := MarkedLedger(ledger, name, today).value;
      var f := files[OutfilePath(name) := data];
      SkipDecision(l, f, name, h, today) &&
      (SkipDecision(ledger, files, other, h, today) ==> SkipDecision(l, f, other, h, today))
  {
  }

  /** A ledger as `save_cache_settings` leaves it for this run: written
      with fingerprint `h` on `today`, with a completed list present. */
  predicate Current(ledger: LedgerFile, h: string, today: string) {
    SameRun(ledger, h, today) && ledger.entry.completed.Some?
  }

  /** Reconciliation makes the ledger current for the run, and marking a
      stage under a current ledger succeeds and keeps it current, earlier
      entries first. */
  lemma MarkKeepsCurrent(ledger: LedgerFile, settings: seq<Field>, h: string, today: string, name: string)
    ensures Current(Parsed(ReconciledEntry(ledger, settings, h, today)), h, today)
    ensures Current(ledger, h, today) ==>
      var m := MarkedLedger(ledger, name, today);
      m.Ok? && Current(m.value, h, today) && name in CompletedList(m.value) &&
      CompletedList(ledger) <= CompletedList(m.value)
  {
  }
}
