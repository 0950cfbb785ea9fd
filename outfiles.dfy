/** The artifact store (screen/iterations/utils/outfiles.py): each stage's
    table is written to and read from `json/<name>.json`; a write
    replaces the whole file. */
module Outfiles {
  import opened Wrappers
  import opened Workspace

  /** The path both `open_outfile` and `create_outfile` use for a name. */
  function OutfilePath(name: string): string {
    "json/" + name + ".json"
  }

  /** Distinct names never share a file. */
  lemma OutfilePathInjective(a: string, b: string)
    ensures OutfilePath(a) == OutfilePath(b) <==> a == b
  {
    if OutfilePath(a) == OutfilePath(b) {
      var pa, pb := OutfilePath(a), OutfilePath(b);
      assert |a| == |b|;
      assert a == pa[5..5 + |a|];
      assert b == pb[5..5 + |b|];
    }
  }

  /** What reading `name` from a set of files gives. */
  function Lookup(files: map<string, Table>, name: string): (r: Result<Table, PyError>)
    ensures r.Ok? <==> OutfilePath(name) in files
    ensures r.Err? ==> r.error == FileNotFound(OutfilePath(name))
  {
    var path := OutfilePath(name);
    if path in files then Ok(files[path]) else Err(FileNotFound(path))
  }

  /** `open_outfile`: the table last written under `name`, or the error
      `pd.read_json` raises for a missing file. */
  function OpenOutfile(dir: JsonDir, name: string): Result<Table, PyError>
    reads dir
  {
    Lookup(dir.files, name)
  }

  /** `create_outfile`: create the directory if needed, then replace the
      file's content with `data` (mode "w", never append). */
  method CreateOutfile(dir: JsonDir, data: Table, name: string)
    requires dir.Valid()
    modifies dir
    ensures dir.Valid() && dir.dirExists
    ensures dir.files == old(dir.files)[OutfilePath(name) := data]
    ensures dir.ledger == old(dir.ledger)
  {
    if !dir.dirExists {
      dir.dirExists := true;
    }
    dir.files := dir.files[OutfilePath(name) := data];
  }

  /** A read after a write returns the table written under that name, and
      every other name reads as before. */
  lemma ReadAfterWrite(files: map<string, Table>, name: string, data: Table, other: string)
    ensures Lookup(files[OutfilePath(name) := data], other) ==
      if other == name then Ok(data) else Lookup(files, other)
  {
    OutfilePathInjective(name, other);
  }

  /** Writes replace rather than append: writing twice under a name leaves
      only the second table, and writing the same table again changes
      nothing. */
  lemma WriteOverwrites(files: map<string, Table>, name: string, first: Table, second: Table)
    ensures files[OutfilePath(name) := first][OutfilePath(name) := second] ==
      files[OutfilePath(name) := second]
    ensures Lookup(files[OutfilePath(name) := first][OutfilePath(name) := second], name) == Ok(second)
  {
  }
}
