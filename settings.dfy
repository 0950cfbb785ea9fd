/** The screener's configuration module (screen/settings.py): the filter
    thresholds, the trend toggles, the worker-thread count, and the
    module namespace from which the settings snapshot is taken. */
module Settings {
  import opened Json

  /** Minimum RS rating to pass (an integer from 0 to 100). */
  const MinRs: int := 80
  /** Minimum market capitalisation in USD (written as an int literal). */
  const MinMarketCap: int := 10000000
  /** Price band in USD. Python floats are taken at their decimal value. */
  const MinPrice: real := 0.20
  const MaxPrice: real := 4.00
  /** Minimum 50-day average volume. */
  const MinVolume: int := 10000
  /** Minimum quarterly revenue growth in percent (an int literal under a
      float annotation). */
  const MinGrowthPercent: int := 20
  /** RS rating from which a stock bypasses the revenue screen. */
  const ProtectedRs: int := 90

  /** The trend toggles, in declaration order. */
  const TrendSettings: seq<(string, bool)> := [
    ("Price >= 50-day SMA", false),
    ("Price >= 200-day SMA", false),
    ("10-day SMA >= 20-day SMA", false),
    ("20-day SMA >= 50-day SMA", false),
    ("Price within 50% of 52-week High", true)
  ]

  /** `threads = min(int(cpu_count * 0.75), 10)`. For a non-negative
      count the float product is exact and `int` truncates, so this is
      the floor of three quarters of the core count, capped at 10. */
  function Threads(cpuCount: nat): (t: nat)
    ensures t <= 10 && t <= cpuCount
    ensures t == 0 <==> cpuCount <= 1
    ensures t == 10 <==> cpuCount >= 14
  {
    var q := (3 * cpuCount) / 4;
    if q < 10 then q else 10
  }

  /** On a single-core machine the formula yields no threads at all,
      although the setting is documented as a positive integer. */
  lemma SingleCoreHasNoThreads()
    ensures Threads(1) == 0
    ensures forall c: nat :: c >= 2 ==> Threads(c) >= 1
  {
  }

  /** The thresholds are mutually consistent: the price band is not empty
      and both RS ratings are within 0..100 with the bypass rating above
      the pass rating. */
  lemma ThresholdsConsistent()
    ensures MinPrice <= MaxPrice
    ensures 0 <= MinRs <= ProtectedRs <= 100
  {
  }

  /** Exactly five trend toggles with distinct names; only the
      52-week-high proximity test is switched on. */
  lemma TrendSettingsShape()
    ensures |TrendSettings| == 5
    ensures forall i, j :: 0 <= i < j < |TrendSettings| ==> TrendSettings[i].0 != TrendSettings[j].0
    ensures forall i :: 0 <= i < |TrendSettings| ==>
      (TrendSettings[i].1 <==> TrendSettings[i].0 == "Price within 50% of 52-week High")
  {
  }

  /** A value bound in a Python module namespace. */
  datatype PyValue =
    | Data(json: Json)   // a plain, JSON-serialisable value
    | ModuleObject       // an imported module
    | CallableObject     // a function or class

  /** One entry of `vars(settings)`: a name and the value bound to it. */
  type Binding = (string, PyValue)

  predicate IsPrivate(name: string) {
    |name| > 0 && name[0] == '_'
  }

  /** The bindings that enter the snapshot: not underscore-prefixed, not
      callable and not a module. */
  predicate Exported(b: Binding) {
    !IsPrivate(b.0) && b.1.Data?
  }

  /** The snapshot the namespace yields, in namespace order. */
  function Snapshot(ns: seq<Binding>): (d: seq<Field>)
    ensures |d| <= |ns|
  {
    if ns == [] then []
    else if Exported(ns[0]) then [(ns[0].0, ns[0].1.json)] + Snapshot(ns[1..])
    else Snapshot(ns[1..])
  }

  /** A name enters the snapshot exactly when some exported binding has it,
      and then with that binding's value. */
  lemma {:induction false} SnapshotMembers(ns: seq<Binding>, name: string, v: Json)
    ensures (name, v) in Snapshot(ns) <==> (name, Data(v)) in ns && !IsPrivate(name)
  {
    if ns != [] {
      SnapshotMembers(ns[1..], name, v);
      assert ns == [ns[0]] + ns[1..];
    }
  }

  /** `get_current_settings`: walk the namespace and copy every exported
      binding into a fresh dictionary; `trend_settings` is a dict already,
      and copying a JSON value changes nothing. */
  method GetCurrentSettings(ns: seq<Binding>) returns (d: seq<Field>)
    ensures d == Snapshot(ns)
  {
    d := [];
    var i := 0;
    while i < |ns|
      invariant 0 <= i <= |ns|
      invariant d + Snapshot(ns[i..]) == Snapshot(ns)
    {
      assert ns[i..] == [ns[i]] + ns[i + 1..];
      var (key, value) := ns[i];
      if !IsPrivate(key) && !value.CallableObject? {
        if !value.ModuleObject? {
          d := d + [(key, value.json)];
        }
      }
      i := i + 1;
    }
  }

  /** The trend toggles as a JSON object. */
  function TrendSettingsJson(): Json {
    Object(seq(|TrendSettings|, i requires 0 <= i < |TrendSettings| =>
      (TrendSettings[i].0, Bool(TrendSettings[i].1))))
  }

  /** Concatenating namespaces concatenates their snapshots. */
  lemma {:induction false} SnapshotConcat(a: seq<Binding>, b: seq<Binding>)
    ensures Snapshot(a + b) == Snapshot(a) + Snapshot(b)
  {
    if a != [] {
      assert (a + b)[0] == a[0];
      assert (a + b)[1..] == a[1..] + b;
      SnapshotConcat(a[1..], b);
    } else {
      assert a + b == b;
    }
  }

  /** A namespace with no exported binding contributes nothing. */
  lemma {:induction false} SnapshotOfHidden(ns: seq<Binding>)
    requires forall i :: 0 <= i < |ns| ==> !Exported(ns[i])
    ensures Snapshot(ns) == []
  {
    if ns != [] {
      SnapshotOfHidden(ns[1..]);
    }
  }

  /** A namespace of exported bindings is copied entry for entry. */
  lemma {:induction false} SnapshotOfExported(ns: seq<Binding>)
    requires forall i :: 0 <= i < |ns| ==> ns[i].1.Data? && !IsPrivate(ns[i].0)
    ensures |Snapshot(ns)| == |ns|
    ensures forall i :: 0 <= i < |ns| ==> Snapshot(ns)[i] == (ns[i].0, ns[i].1.json)
  {
    if ns != [] {
      SnapshotOfExported(ns[1..]);
    }
  }

  /** The entries the interpreter and the `import` put in the namespace
      ahead of the settings. */
  const Preamble: seq<Binding> := [
    ("__name__", Data(Str("screen.settings"))),
    ("__doc__", Data(Null)),
    ("__builtins__", Data(Null)),
    ("__annotations__", Data(Object([]))),
    ("multiprocessing", ModuleObject)
  ]

  /** The names the snapshot is expected to hold, in source order. */
  const SettingNames: seq<string> := [
    "min_rs", "min_market_cap", "min_price", "max_price", "min_volume",
    "trend_settings", "min_growth_percent", "protected_rs", "threads"
  ]

  /** The values bound to `SettingNames`, on a machine with `cpuCount` cores. */
  function SettingValues(cpuCount: nat): seq<Json> {
    [ Int(MinRs), Int(MinMarketCap), Float(MinPrice), Float(MaxPrice), Int(MinVolume),
      TrendSettingsJson(), Int(MinGrowthPercent), Int(ProtectedRs), Int(Threads(cpuCount)) ]
  }

  /** `vars(settings)` after the module has run: the preamble, then the
      settings in source order. */
  function Namespace(cpuCount: nat): seq<Binding> {
    Preamble + seq(9, i requires 0 <= i < 9 => (SettingNames[i], Data(SettingValues(cpuCount)[i])))
  }

  lemma SettingNamesDistinct()
    ensures forall i, j :: 0 <= i < j < |SettingNames| ==> SettingNames[i] != SettingNames[j]
  {
    assert SettingNames[2][1] != SettingNames[3][1];
    assert SettingNames[1][0] != SettingNames[5][0];
  }

  /** The snapshot holds exactly the nine configuration names, each once,
      in source order, with their values; the `threads` entry carries the
      computed thread count. */
  lemma SnapshotOfSettings(cpuCount: nat)
    ensures var d := Snapshot(Namespace(cpuCount));
      |d| == 9
      && (forall i :: 0 <= i < 9 ==> d[i] == (SettingNames[i], SettingValues(cpuCount)[i]))
      && d[8] == ("threads", Int(Threads(cpuCount)))
      && WellFormed(Object(d))
  {
    SnapshotFields(cpuCount);
    SettingsWellFormed(cpuCount);
  }

  /** The settings as the snapshot lists them. */
  function SettingFields(cpuCount: nat): seq<Field> {
    seq(9, i requires 0 <= i < 9 => (SettingNames[i], SettingValues(cpuCount)[i]))
  }

  lemma SnapshotFields(cpuCount: nat)
    ensures Snapshot(Namespace(cpuCount)) == SettingFields(cpuCount)
  {
    var tail := seq(9, i requires 0 <= i < 9 => (SettingNames[i], Data(SettingValues(cpuCount)[i])));
    SnapshotConcat(Preamble, tail);
    SnapshotOfHidden(Preamble);
    assert forall i :: 0 <= i < 9 ==> SettingNames[i][0] != '_';
    SnapshotOfExported(tail);
  }

  lemma SettingsWellFormed(cpuCount: nat)
    ensures WellFormed(Object(SettingFields(cpuCount)))
  {
    SettingNamesDistinct();
    TrendSettingsShape();
    assert WellFormed(TrendSettingsJson());
    var fs, v := SettingFields(cpuCount), SettingValues(cpuCount);
    forall i | 0 <= i < |fs|
      ensures WellFormed(fs[i].1)
    {
      assert fs[i].1 == v[i];
      assert i == 0 || i == 1 || i == 2 || i == 3 || i == 4 || i == 5 || i == 6 || i == 7 || i == 8;
    }
  }
}
