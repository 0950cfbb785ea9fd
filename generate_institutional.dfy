/** The stand-alone script generate_institutional.py: it copies the
    revenue-growth artifact into the institutional-accumulation artifact
    with a made-up "Net Institutional Inflows" column, and lists the
    institutional-accumulation stage as complete in the ledger, so that a
    later screen run skips the stage. */
module GenerateInstitutional {
  import opened Json
  import opened Wrappers
  import opened Workspace
  import opened Outfiles
  import opened Cache

  const InflowColumn: string := "Net Institutional Inflows"
  const StageName: string := "institutional_accumulation"
  const InputName: string := "revenue_growth"

  /** The placeholder inflow of row `i`: a loss of one to six million on
      every fifth row, otherwise a gain of two million times `i % 10 + 1`. */
  function PlaceholderInflow(i: nat): (v: int)
    ensures v < 0 <==> i % 5 == 0
    ensures v < 0 ==> (i % 10 == 0 && v == -1000000) || (i % 10 == 5 && v == -6000000)
    ensures v > 0 ==> v % 2000000 == 0 && 4000000 <= v <= 20000000 && v / 2000000 == i % 10 + 1
    ensures v != 0
  {
    if i % 5 == 0 then -1000000 * (i % 10 + 1) else 2000000 * (i % 10 + 1)
  }

  /** The values repeat every ten rows. */
  lemma InflowPeriodic(i: nat)
    ensures PlaceholderInflow(i + 10) == PlaceholderInflow(i)
  {
    assert (i + 10) % 10 == i % 10;
    assert (i + 10) % 5 == i % 5;
  }

  /** The number of rows below `n` that get a negative inflow. */
  function NegativeRows(n: nat): nat {
    if n == 0 then 0 else NegativeRows(n - 1) + (if PlaceholderInflow(n - 1) < 0 then 1 else 0)
  }

  /** One row in five, rounded up, gets a negative inflow: rows 0, 5,
      10, and so on. */
  lemma {:induction false} NegativeRowsCount(n: nat)
    ensures NegativeRows(n) == (n + 4) / 5
  {
    if n > 0 {
      NegativeRowsCount(n - 1);
      var k := (n - 1) / 5;
      assert n - 1 == 5 * k + (n - 1) % 5;
    }
  }

  /** The table the loop leaves: each row gets the column (pandas stores
      the values in a float column); every other cell is kept. */
  function WithPlaceholders(t: Table): (r: Table)
    ensures |r| == |t|
  {
    seq(|t|, i requires 0 <= i < |t| => t[i][InflowColumn := Float(PlaceholderInflow(i) as real)])
  }

  /** The generated table keeps every row and every other column, and
      its inflows are negative exactly on every fifth row. */
  lemma PlaceholdersShape(t: Table)
    ensures var r := WithPlaceholders(t);
      |r| == |t| &&
      (forall i :: 0 <= i < |t| ==>
        (InflowColumn in r[i] && r[i][InflowColumn].Float? && (r[i][InflowColumn].f < 0.0 <==> i % 5 == 0))) &&
      (forall i, c :: 0 <= i < |t| && c != InflowColumn ==> (c in r[i] <==> c in t[i])) &&
      (forall i, c :: 0 <= i < |t| && c != InflowColumn && c in t[i] ==> r[i][c] == t[i][c])
  {
  }

  /** The loop of lines 19-24, writing into the frame's rows in place. */
  method FillPlaceholders(rows: array<Row>)
    modifies rows
    ensures rows[..] == WithPlaceholders(old(rows[..]))
  {
    var i := 0;
    while i < rows.Length
      invariant 0 <= i <= rows.Length
      invariant forall j :: 0 <= j < i ==> rows[j] == old(rows[j])[InflowColumn := Float(PlaceholderInflow(j) as real)]
      invariant forall j :: i <= j < rows.Length ==> rows[j] == old(rows[j])
    {
      if i % 5 == 0 {
        rows[i] := rows[i][InflowColumn := Float((-1000000 * (i % 10 + 1)) as real)];
      } else {
        rows[i] := rows[i][InflowColumn := Float((2000000 * (i % 10 + 1)) as real)];
      }
      i := i + 1;
    }
  }

  /** The ledger edit of lines 32-41: nothing when the file is absent;
      the decode error when it does not parse; otherwise the stage name is
      appended unless already listed, with the KeyError of a missing list.
      Settings, fingerprint and date are left as they are. */
  function GeneratedLedger(ledger: LedgerFile): (r: Result<LedgerFile, PyError>)
    ensures ledger.Missing? ==> r == Ok(Missing)
    ensures ledger.Corrupt? ==> r == Err(JsonDecodeError)
    ensures ledger.Parsed? && r.Ok? ==>
      (r.value.Parsed? && r.value.entry.completed.Some? && StageName in r.value.entry.completed.value)
  {
    match ledger
    case Missing => Ok(Missing)
    case Corrupt => Err(JsonDecodeError)
    case Parsed(e) =>
      if StageName in e.completed.GetOr([]) then Ok(ledger)
      else if e.completed.None? then Err(KeyError(Str("iterations_completed")))
      else Ok(Parsed(e.(completed := Some(e.completed.value + [StageName]))))
  }

  /** On a ledger that parses, the script edits it exactly as marking the
      stage complete does; it never creates a ledger, and running it twice
      is the same as running it once. */
  lemma GeneratedLedgerIsMark(ledger: LedgerFile, today: string)
    ensures ledger.Parsed? ==> GeneratedLedger(ledger) == MarkedLedger(ledger, StageName, today)
    ensures GeneratedLedger(ledger).Ok? ==>
      GeneratedLedger(GeneratedLedger(ledger).value) == GeneratedLedger(ledger)
    ensures GeneratedLedger(ledger) == Ok(Missing) <==> ledger.Missing?
  {
  }

  /** Run under a ledger already current for a screen run, the script
      makes the stage skippable in that run. */
  lemma GeneratedStageSkips(ledger: LedgerFile, files: map<string, Table>, t: Table, h: string, today: string)
    requires Current(ledger, h, today)
    ensures GeneratedLedger(ledger).Ok?
    ensures SkipDecision(GeneratedLedger(ledger).value, files[OutfilePath(StageName) := t], StageName, h, today)
  {
  }

  /** The script. Without `json/revenue_growth.json` it only reports the
      error; otherwise it writes the generated table and then edits the
      ledger, so the artifact is in place even when the edit raises. */
  method Generate(dir: JsonDir) returns (r: Result<(), PyError>)
    requires dir.Valid()
    modifies dir
    ensures dir.Valid()
    ensures OutfilePath(InputName) !in old(dir.files) ==>
      r.Ok? && dir.files == old(dir.files) && dir.ledger == old(dir.ledger)
    ensures OutfilePath(InputName) in old(dir.files) ==>
      dir.files == old(dir.files)[OutfilePath(StageName) := WithPlaceholders(old(dir.files)[OutfilePath(InputName)])] &&
      (r.Ok? <==> GeneratedLedger(old(dir.ledger)).Ok?) &&
      (r.Ok? ==> dir.ledger == GeneratedLedger(old(dir.ledger)).value) &&
      (r.Err? ==> r.error == GeneratedLedger(old(dir.ledger)).error && dir.ledger == old(dir.ledger))
  {
    var inputPath := OutfilePath(InputName);
    if inputPath !in dir.files {
      return Ok(());
    }
    var t := dir.files[inputPath];
    var rows := new Row[|t|](i requires 0 <= i < |t| => t[i]);
    assert rows[..] == t;
    FillPlaceholders(rows);
    dir.files := dir.files[OutfilePath(StageName) := rows[..]];
    match dir.ledger {
      case Missing =>
        r := Ok(());
      case Corrupt =>
        r := Err(JsonDecodeError);
      case Parsed(e) =>
        if StageName !in e.completed.GetOr([]) {
          if e.completed.None? {
            return Err(KeyError(Str("iterations_completed")));
          }
          dir.ledger := Parsed(e.(completed := Some(e.completed.value + [StageName])));
        }
        r := Ok(());
    }
  }
}
