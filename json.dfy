/** JSON values as the screener serialises them, Python's ordering of
    dictionary keys, and the canonical form that
    `json.dumps(settings, sort_keys=True)` gives a settings dictionary
    (cache.py, get_settings_hash). */
module Json {

  /** A JSON value. An object keeps its fields in insertion order, as a
      Python dict does; `Float` stands for a Python float. */
  datatype Json =
    | Null
    | Bool(b: bool)
    | Int(i: int)
    | Float(f: real)
    | Str(s: string)
    | Object(fields: seq<Field>)

  type Field = (string, Json)

  /** Python's `<` on str: lexicographic order of code points. */
  predicate StrLt(a: string, b: string)
    decreases |a|
  {
    if a == [] then b != []
    else if b == [] then false
    else if a[0] != b[0] then a[0] < b[0]
    else StrLt(a[1..], b[1..])
  }

  lemma {:induction false} StrLtIrreflexive(a: string)
    ensures !StrLt(a, a)
    decreases |a|
  {
    if a != [] {
      StrLtIrreflexive(a[1..]);
    }
  }

  lemma {:induction false} StrLtTransitive(a: string, b: string, c: string)
    requires StrLt(a, b) && StrLt(b, c)
    ensures StrLt(a, c)
    decreases |a|
  {
    if a != [] && a[0] == b[0] && b[0] == c[0] {
      StrLtTransitive(a[1..], b[1..], c[1..]);
    }
  }

  lemma {:induction false} StrLtTotal(a: string, b: string)
    requires a != b
    ensures StrLt(a, b) || StrLt(b, a)
    decreases |a|
  {
    if a != [] && b != [] && a[0] == b[0] {
      assert a[1..] != b[1..] by {
        assert a == [a[0]] + a[1..] && b == [b[0]] + b[1..];
      }
      StrLtTotal(a[1..], b[1..]);
    }
  }

  lemma StrLtAsymmetric(a: string, b: string)
    ensures !(StrLt(a, b) && StrLt(b, a))
  {
    if StrLt(a, b) && StrLt(b, a) {
      StrLtTransitive(a, b, a);
      StrLtIrreflexive(a);
    }
  }

  /** Keys appear in strictly increasing order (so also at most once). */
  ghost predicate KeySorted(fs: seq<Field>) {
    forall i, j :: 0 <= i < j < |fs| ==> StrLt(fs[i].0, fs[j].0)
  }

  /** No key appears twice, as in every Python dict. */
  ghost predicate DistinctKeys(fs: seq<Field>) {
    forall i, j :: 0 <= i < j < |fs| ==> fs[i].0 != fs[j].0
  }

  /** Every object, at every depth, has distinct keys. */
  ghost predicate WellFormed(j: Json) {
    match j
    case Object(fs) => DistinctKeys(fs) && forall i :: 0 <= i < |fs| ==> WellFormed(fs[i].1)
    case _ => true
  }

  /** Inserts a field in front of the first field whose key is greater. */
  function InsertField(p: Field, fs: seq<Field>): (r: seq<Field>)
    ensures multiset(r) == multiset(fs) + multiset{p}
  {
    if fs == [] || StrLt(p.0, fs[0].0) then [p] + fs
    else
      assert fs == [fs[0]] + fs[1..];
      [fs[0]] + InsertField(p, fs[1..])
  }

  /** The fields sorted by key (an insertion sort). */
  function SortFields(fs: seq<Field>): (r: seq<Field>)
    ensures multiset(r) == multiset(fs)
  {
    if fs == [] then []
    else
      assert fs == [fs[0]] + fs[1..];
      InsertField(fs[0], SortFields(fs[1..]))
  }

  lemma {:induction false} InsertFieldSorted(p: Field, fs: seq<Field>)
    requires KeySorted(fs)
    requires forall q :: q in fs ==> q.0 != p.0
    ensures KeySorted(InsertField(p, fs))
    decreases |fs|
  {
    if fs == [] || StrLt(p.0, fs[0].0) {
      var r := [p] + fs;
      forall i, j | 0 <= i < j < |r| ensures StrLt(r[i].0, r[j].0) {
        if i == 0 && j > 1 {
          StrLtTransitive(p.0, fs[0].0, fs[j - 1].0);
        }
      }
    } else {
      assert fs[0] in fs;
      StrLtTotal(p.0, fs[0].0);
      var t := fs[1..];
      forall q | q in t ensures q.0 != p.0 { assert q in fs; }
      InsertFieldSorted(p, t);
      var rest := InsertField(p, t);
      var r := [fs[0]] + rest;
      forall i, j | 0 <= i < j < |r| ensures StrLt(r[i].0, r[j].0) {
        if i == 0 {
          assert r[j] in multiset(rest);
          assert r[j] == p || r[j] in t;
          if r[j] != p {
            var k :| 0 <= k < |t| && t[k] == r[j];
            assert fs[k + 1] == r[j];
          }
        }
      }
    }
  }

  lemma {:induction false} SortFieldsSorted(fs: seq<Field>)
    requires DistinctKeys(fs)
    ensures KeySorted(SortFields(fs))
    decreases |fs|
  {
    if fs != [] {
      var t := fs[1..];
      SortFieldsSorted(t);
      forall q | q in SortFields(t) ensures q.0 != fs[0].0 {
        assert q in multiset(t);
        var k :| 0 <= k < |t| && t[k] == q;
        assert fs[k + 1] == q;
      }
      InsertFieldSorted(fs[0], SortFields(t));
    }
  }

  /** Two key-sorted field lists holding the same fields are the same list. */
  lemma {:induction false} SortedUnique(s: seq<Field>, t: seq<Field>)
    requires KeySorted(s) && KeySorted(t)
    requires forall q :: q in s <==> q in t
    ensures s == t
    decreases |s|
  {
    assert s != [] ==> s[0] in t;
    assert t != [] ==> t[0] in s;
    if s != [] && t != [] {
      assert s[0] in s;
      var j :| 0 <= j < |t| && t[j] == s[0];
      assert t[0] in t;
      var i :| 0 <= i < |s| && s[i] == t[0];
      StrLtAsymmetric(s[0].0, t[0].0);
      StrLtIrreflexive(s[0].0);
      StrLtIrreflexive(t[0].0);
      assert s[0] == t[0];
      forall q ensures q in s[1..] <==> q in t[1..] {
        if q in s[1..] {
          var k :| 1 <= k < |s| && s[k] == q;
          StrLtIrreflexive(s[0].0);
          assert q != s[0];
          assert q in t;
        }
        if q in t[1..] {
          var k :| 1 <= k < |t| && t[k] == q;
          StrLtIrreflexive(t[0].0);
          assert q != t[0];
          assert q in s;
        }
      }
      SortedUnique(s[1..], t[1..]);
      assert s == [s[0]] + s[1..] && t == [t[0]] + t[1..];
    }
  }

  /** The fields with every value put into canonical form. */
  function CanonFields(fs: seq<Field>, ghost parent: Json): (r: seq<Field>)
    requires forall i :: 0 <= i < |fs| ==> fs[i].1 < parent
    ensures |r| == |fs|
    ensures forall i :: 0 <= i < |fs| ==> r[i] == (fs[i].0, Canonical(fs[i].1))
    decreases parent, 0
  {
    seq(|fs|, i requires 0 <= i < |fs| => (fs[i].0, Canonical(fs[i].1)))
  }

  /** What `json.dumps(..., sort_keys=True)` serialises: every object's
      fields sorted by key, at every depth. */
  function Canonical(j: Json): Json
    decreases j, 1
  {
    match j
    case Object(fs) => Object(SortFields(CanonFields(fs, j)))
    case _ => j
  }

  /** Equality up to key order: objects are equal when they have the
      same keys and equal values under each key, whatever the insertion
      order; everything else compares structurally. This is Python's `==`
      on dictionaries except for numbers: Python has `1 == 1.0 == True`,
      which this relation, like the serialisation, tells apart. */
  ghost predicate KeyOrderEq(a: Json, b: Json)
    decreases a
  {
    if a.Object? && b.Object? then
      var f, g := a.fields, b.fields;
      Keys(f) == Keys(g) &&
      forall i, j :: 0 <= i < |f| && 0 <= j < |g| && f[i].0 == g[j].0 ==> KeyOrderEq(f[i].1, g[j].1)
    else a == b
  }

  /** The keys of a list of fields. */
  function Keys(fs: seq<Field>): set<string> {
    set i | 0 <= i < |fs| :: fs[i].0
  }

  /** The canonical serialisation identifies exactly the values that are
      equal up to key order: two well-formed values have the same
      canonical form iff they have the same keys and equal values under
      each key, whatever their key insertion order. */
  lemma {:induction false} CanonicalIffKeyOrderEq(a: Json, b: Json)
    requires WellFormed(a) && WellFormed(b)
    ensures Canonical(a) == Canonical(b) <==> KeyOrderEq(a, b)
    decreases a, 1
  {
    if a.Object? && b.Object? {
      ObjectCanonicalIffKeyOrderEq(a, b);
    }
  }

  lemma {:induction false} ObjectCanonicalIffKeyOrderEq(a: Json, b: Json)
    requires a.Object? && b.Object?
    requires WellFormed(a) && WellFormed(b)
    ensures Canonical(a) == Canonical(b) <==> KeyOrderEq(a, b)
    decreases a, 0
  {
    var f, g := a.fields, b.fields;
    var F, G := CanonFields(f, a), CanonFields(g, b);
    assert Keys(F) == Keys(f) && Keys(G) == Keys(g) by {
      assert forall i :: 0 <= i < |f| ==> F[i].0 == f[i].0;
      assert forall j :: 0 <= j < |g| ==> G[j].0 == g[j].0;
    }
    forall i, j | 0 <= i < |f| && 0 <= j < |g| && f[i].0 == g[j].0
      ensures F[i] == G[j] <==> KeyOrderEq(f[i].1, g[j].1)
    {
      CanonicalIffKeyOrderEq(f[i].1, g[j].1);
    }
    SortedFieldsIff(F, G);
  }

  /** The serialisation separates the numbers Python considers equal:
      `1`, `1.0` and `True` give three different fingerprints. */
  lemma CanonicalSeparatesEqualNumbers()
    ensures Canonical(Int(1)) != Canonical(Float(1.0))
    ensures Canonical(Int(1)) != Canonical(Bool(true))
    ensures Canonical(Float(1.0)) != Canonical(Bool(true))
  {
  }

  /** Two dictionaries sort to the same field list iff they have the same
      keys and agree on every key. */
  lemma SortedFieldsIff(F: seq<Field>, G: seq<Field>)
    requires DistinctKeys(F) && DistinctKeys(G)
    ensures SortFields(F) == SortFields(G) <==> AgreeOnKeys(F, G)
  {
    if AgreeOnKeys(F, G) {
      AgreeingFieldsSortEqual(F, G);
    }
    if SortFields(F) == SortFields(G) {
      EqualSortedFieldsAgree(F, G);
    }
  }

  /** Same keys, and the same field under each key. */
  ghost predicate AgreeOnKeys(F: seq<Field>, G: seq<Field>) {
    Keys(F) == Keys(G) &&
    forall i, j :: 0 <= i < |F| && 0 <= j < |G| && F[i].0 == G[j].0 ==> F[i] == G[j]
  }

  lemma AgreeingFieldsSortEqual(F: seq<Field>, G: seq<Field>)
    requires DistinctKeys(F) && DistinctKeys(G)
    requires AgreeOnKeys(F, G)
    ensures SortFields(F) == SortFields(G)
  {
    AgreeingFieldsSameElements(F, G);
    SameElementsSortEqual(F, G);
  }

  lemma SameElementsSortEqual(F: seq<Field>, G: seq<Field>)
    requires DistinctKeys(F) && DistinctKeys(G)
    requires forall q :: q in F <==> q in G
    ensures SortFields(F) == SortFields(G)
  {
    var sF, sG := SortFields(F), SortFields(G);
    SortFieldsSorted(F);
    SortFieldsSorted(G);
    SortPreservesElements(F);
    SortPreservesElements(G);
    SortedUnique(sF, sG);
  }

  lemma SortPreservesElements(F: seq<Field>)
    ensures forall q :: q in SortFields(F) <==> q in F
  {
    var sF := SortFields(F);
    forall q ensures q in sF <==> q in F {
      assert q in sF <==> q in multiset(sF);
    }
  }

  lemma AgreeingFieldsSameElements(F: seq<Field>, G: seq<Field>)
    requires AgreeOnKeys(F, G)
    ensures forall q :: q in F <==> q in G
  {
    forall q ensures q in F <==> q in G {
      if q in F {
        var i :| 0 <= i < |F| && F[i] == q;
        assert q.0 in Keys(G);
        var j :| 0 <= j < |G| && G[j].0 == q.0;
      }
      if q in G {
        var j :| 0 <= j < |G| && G[j] == q;
        assert q.0 in Keys(F);
        var i :| 0 <= i < |F| && F[i].0 == q.0;
      }
    }
  }

  lemma EqualSortedFieldsAgree(F: seq<Field>, G: seq<Field>)
    requires DistinctKeys(F) && DistinctKeys(G)
    requires SortFields(F) == SortFields(G)
    ensures AgreeOnKeys(F, G)
  {
    SortPreservesElements(F);
    SortPreservesElements(G);
    SameElementsSameKeys(F, G);
    SameElementsAgree(F, G);
  }

  lemma SameElementsSameKeys(F: seq<Field>, G: seq<Field>)
    requires forall q :: q in F <==> q in G
    ensures Keys(F) == Keys(G)
  {
    forall k | k in Keys(F) ensures k in Keys(G) {
      var i :| 0 <= i < |F| && F[i].0 == k;
      assert F[i] in G;
      var j :| 0 <= j < |G| && G[j] == F[i];
    }
    forall k | k in Keys(G) ensures k in Keys(F) {
      var j :| 0 <= j < |G| && G[j].0 == k;
      assert G[j] in F;
      var i :| 0 <= i < |F| && F[i] == G[j];
    }
  }

  lemma SameElementsAgree(F: seq<Field>, G: seq<Field>)
    requires DistinctKeys(G)
    requires forall q :: q in F <==> q in G
    ensures forall i, j :: 0 <= i < |F| && 0 <= j < |G| && F[i].0 == G[j].0 ==> F[i] == G[j]
  {
    forall i, j | 0 <= i < |F| && 0 <= j < |G| && F[i].0 == G[j].0
      ensures F[i] == G[j]
    {
      assert F[i] in G;
      var k :| 0 <= k < |G| && G[k] == F[i];
      assert k == j;
    }
  }
}
