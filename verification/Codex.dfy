/** The managed fields of a Codex configuration: which they are, and what setup and
    remove do to a document. */
module Codex {
  import opened Basics
  import opened Toml

  const PROVIDER: string := "aster"
  const MODEL_PROVIDER: Path := ["model_provider"]
  const CATALOG: Path := ["model_catalog_json"]
  const BASE_URL: Path := ["model_providers", "aster", "base_url"]
  const PROVIDERS: Path := ["model_providers"]
  const ASTER: Path := ["model_providers", "aster"]
  const HEADERS: Path := ["model_providers", "aster", "http_headers"]

  /** In the order of the sorted map the settings come from. */
  const MANAGED: seq<Path> := [
    CATALOG,
    MODEL_PROVIDER,
    BASE_URL,
    ["model_providers", "aster", "env_key"],
    ["model_providers", "aster", "http_headers", "x-openai-actor-authorization"],
    ["model_providers", "aster", "name"],
    ["model_providers", "aster", "wire_api"]]

  /** The tables that exist only for managed fields. */
  const ASTER_TABLES: seq<Path> := [HEADERS, ASTER, PROVIDERS]

  datatype Setting = Setting(path: Path, value: string)

  datatype Field = Field(path: Path, before: Option<string>, installed: string)

  datatype Status = Pending | Committed

  datatype State = State(status: Status, fields: seq<Field>)

  /** Distinct managed paths. */
  predicate Distinct(paths: seq<Path>) {
    && (forall i | 0 <= i < |paths| :: paths[i] in MANAGED)
    && (forall i, j | 0 <= i < j < |paths| :: paths[i] != paths[j])
  }

  function SettingPaths(settings: seq<Setting>): seq<Path> {
    seq(|settings|, i requires 0 <= i < |settings| => settings[i].path)
  }

  function FieldPaths(fields: seq<Field>): seq<Path> {
    seq(|fields|, i requires 0 <= i < |fields| => fields[i].path)
  }

  lemma ManagedPathsAreUnrelated(p: Path, q: Path)
    requires p in MANAGED && q in MANAGED && p != q
    ensures Unrelated(p, q) && |p| > 0
  {
    assert p[0] != q[0] || (|p| > 2 && |q| > 2 && p[2] != q[2]);
  }

  /** The tables on the way to a managed path are the aster tables. */
  lemma ManagedParents(p: Path, q: Path)
    requires p in MANAGED && q < p && |q| > 0
    ensures q in ASTER_TABLES
  {
    assert q == p[..|q|];
    if |q| == 1 {
      assert q == PROVIDERS;
      assert q == ASTER_TABLES[2];
    } else if |q| == 2 {
      assert q == ASTER;
      assert q == ASTER_TABLES[1];
    } else {
      assert |q| == 3;
      assert q == HEADERS;
      assert q == ASTER_TABLES[0];
    }
  }

  // ------------------------------------------------------------------ removing

  /** The recorded field of a path. */
  function FieldFor(fields: seq<Field>, q: Path): Option<Field> {
    if |fields| == 0 then None
    else if fields[0].path == q then Some(fields[0])
    else FieldFor(fields[1..], q)
  }

  /** The value was changed after setup by someone else. */
  predicate Changed(t: Table, f: Field) {
    StringAt(t, f.path) != Some(f.installed) && StringAt(t, f.path) != f.before
  }

  /** `held`: the catalog file was changed, so its field stays as well. */
  predicate Stays(t: Table, f: Field, held: bool) {
    (held && f.path == CATALOG) || Changed(t, f)
  }

  /** The fields that stay, in their original order. */
  function Remaining(t: Table, fields: seq<Field>, held: bool): seq<Field> {
    if |fields| == 0 then []
    else (if Stays(t, fields[0], held) then [fields[0]] else []) + Remaining(t, fields[1..], held)
  }

  function AsLeaf(v: Option<string>): Option<Item> {
    if v.Some? then Some(Text(v.value)) else None
  }

  /** What remove leaves at every path of a document. */
  function AfterRemove(t: Table, fields: seq<Field>, held: bool, q: Path): Option<Item> {
    var f := FieldFor(fields, q);
    if f.Some? && !(held && q == CATALOG) && StringAt(t, q) == Some(f.value.installed)
    then AsLeaf(f.value.before) else Leaf(t, q)
  }

  /** Every field that remove looks at holds a string or nothing. */
  predicate AllReadable(t: Table, fields: seq<Field>, held: bool) {
    forall i | 0 <= i < |fields| && !(held && fields[i].path == CATALOG) :: Readable(t, fields[i].path)
  }

  lemma {:induction false} FieldForIndex(fields: seq<Field>, i: nat)
    requires i < |fields| && Distinct(FieldPaths(fields))
    ensures FieldFor(fields, fields[i].path) == Some(fields[i])
  {
    var paths := FieldPaths(fields);
    if i > 0 {
      assert paths[0] != paths[i];
      assert FieldPaths(fields[1..]) == paths[1..];
      FieldForIndex(fields[1..], i - 1);
      assert fields[1..][i - 1] == fields[i];
    }
  }

  lemma {:induction false} FieldForMember(fields: seq<Field>, q: Path) returns (i: nat)
    requires FieldFor(fields, q).Some?
    ensures i < |fields| && fields[i] == FieldFor(fields, q).value && fields[i].path == q
  {
    if fields[0].path == q {
      i := 0;
    } else {
      i := FieldForMember(fields[1..], q);
      i := i + 1;
    }
  }

  lemma {:induction false} ParentsAreTables(t: Table, p: Path, q: Path)
    requires Lookup(t, p).Some? && q < p
    ensures IsTable(t, q)
    decreases |p|
  {
    if |q| > 0 {
      assert q[0] == p[0];
      assert p == [p[0]] + p[1..] && q == [q[0]] + q[1..];
      ParentsAreTables(t[p[0]].table, p[1..], q[1..]);
    }
  }

  lemma {:induction false} PutSucceeds(t: Table, p: Path, v: string)
    requires |p| > 0 && Lookup(t, p).Some?
    ensures Put(t, p, v).Some?
    decreases |p|
  {
    if |p| > 1 {
      PutSucceeds(t[p[0]].table, p[1..], v);
    }
  }

  /** Gives one field back: its old string, or nothing. */
  method Restore(t: Table, f: Field) returns (u: Table)
    requires f.path in MANAGED && StringAt(t, f.path) == Some(f.installed)
    ensures forall q :: Leaf(u, q) == (if q == f.path then AsLeaf(f.before) else Leaf(t, q))
    ensures forall q :: IsTable(u, q) == IsTable(t, q)
    ensures forall q :: Unrelated(f.path, q) ==> Lookup(u, q) == Lookup(t, q)
  {
    assert |f.path| > 0;
    if f.before.Some? {
      PutSucceeds(t, f.path, f.before.value);
      u := Put(t, f.path, f.before.value).value;
      forall q
        ensures Leaf(u, q) == (if q == f.path then AsLeaf(f.before) else Leaf(t, q))
        ensures IsTable(u, q) == IsTable(t, q)
        ensures Unrelated(f.path, q) ==> Lookup(u, q) == Lookup(t, q)
      {
        PutLeaf(t, f.path, f.before.value, q);
        PutLookup(t, f.path, f.before.value, q);
        if q < f.path { ParentsAreTables(t, f.path, q); }
      }
    } else {
      u := Drop(t, f.path);
      forall q
        ensures Leaf(u, q) == (if q == f.path then AsLeaf(f.before) else Leaf(t, q))
        ensures IsTable(u, q) == IsTable(t, q)
        ensures Unrelated(f.path, q) ==> Lookup(u, q) == Lookup(t, q)
      {
        DropLeaf(t, f.path, q);
        DropLookup(t, f.path, q);
      }
    }
  }

  lemma {:induction false} NotAmong(fields: seq<Field>, q: Path)
    requires forall k | 0 <= k < |fields| :: fields[k].path != q
    ensures FieldFor(fields, q).None?
  {
    if |fields| > 0 {
      NotAmong(fields[1..], q);
    }
  }

  lemma NotLater(fields: seq<Field>, i: nat)
    requires i < |fields| && Distinct(FieldPaths(fields))
    ensures FieldFor(fields[i + 1..], fields[i].path).None?
    ensures fields[i].path in MANAGED
  {
    var paths := FieldPaths(fields);
    assert paths[i] in MANAGED;
    forall k | i < k < |fields| ensures fields[k].path != fields[i].path {
      assert paths[i] != paths[k];
    }
    NotAmong(fields[i + 1..], fields[i].path);
  }

  /** How one more field, met on the way back, extends what has been done. */
  lemma OneMoreField(original: Table, fields: seq<Field>, i: nat, held: bool, q: Path)
    requires i < |fields| && Distinct(FieldPaths(fields))
    ensures var f := fields[i];
            && AfterRemove(original, fields[i..], held, q) ==
                 (if q != f.path then AfterRemove(original, fields[i + 1..], held, q)
                  else if !(held && q == CATALOG) && StringAt(original, q) == Some(f.installed) then AsLeaf(f.before)
                  else Leaf(original, q))
            && AfterRemove(original, fields[i + 1..], held, f.path) == Leaf(original, f.path)
  {
    NotLater(fields, i);
    assert fields[i..][1..] == fields[i + 1..];
  }

  lemma OneMoreRemaining(original: Table, fields: seq<Field>, i: nat, held: bool)
    requires i < |fields|
    ensures Remaining(original, fields[i..], held) ==
              (if Stays(original, fields[i], held) then [fields[i]] else []) + Remaining(original, fields[i + 1..], held)
  {
    assert fields[i..][1..] == fields[i + 1..];
  }

  lemma NothingDone(original: Table, held: bool)
    ensures Remaining(original, [], held) == []
    ensures forall q :: AfterRemove(original, [], held, q) == Leaf(original, q)
  {
  }

  lemma EarlierIsUnrelated(fields: seq<Field>, k: nat, i: nat)
    requires k < i < |fields| && Distinct(FieldPaths(fields))
    ensures Unrelated(fields[i].path, fields[k].path)
  {
    var paths := FieldPaths(fields);
    assert paths[k] in MANAGED && paths[i] in MANAGED && paths[k] != paths[i];
    ManagedPathsAreUnrelated(paths[i], paths[k]);
  }

  /** Walks the recorded fields backwards, restoring those that still hold what setup
      installed and collecting those that stay.  Fails, with nothing written, at a
      field that holds no string. */
  method RemoveFields(original: Table, fields: seq<Field>, held: bool) returns (ok: bool, t: Table, remaining: seq<Field>)
    requires Distinct(FieldPaths(fields))
    ensures ok <==> AllReadable(original, fields, held)
    ensures ok ==> remaining == Remaining(original, fields, held)
    ensures ok ==> forall q :: Leaf(t, q) == AfterRemove(original, fields, held, q)
    ensures ok ==> forall q :: IsTable(t, q) == IsTable(original, q)
  {
    hide AfterRemove, Remaining, FieldFor, Lookup;
    t, remaining := original, [];
    var i := |fields|;
    assert fields[i..] == [];
    NothingDone(original, held);
    while i > 0
      invariant 0 <= i <= |fields|
      invariant remaining == Remaining(original, fields[i..], held)
      invariant forall q :: Leaf(t, q) == AfterRemove(original, fields[i..], held, q)
      invariant forall q :: IsTable(t, q) == IsTable(original, q)
      invariant forall k | 0 <= k < i :: Lookup(t, fields[k].path) == Lookup(original, fields[k].path)
      invariant forall k | i <= k < |fields| && !(held && fields[k].path == CATALOG) :: Readable(original, fields[k].path)
    {
      i := i - 1;
      var f := fields[i];
      OneMoreRemaining(original, fields, i, held);
      forall q { OneMoreField(original, fields, i, held, q); }
      if held && f.path == CATALOG {
        remaining := [f] + remaining;
      } else if !Readable(t, f.path) {
        return false, t, remaining;
      } else if StringAt(t, f.path) == Some(f.installed) {
        NotLater(fields, i);
        t := Restore(t, f);
        forall k | 0 <= k < i ensures Unrelated(f.path, fields[k].path) {
          EarlierIsUnrelated(fields, k, i);
        }
      } else if StringAt(t, f.path) != f.before {
        remaining := [f] + remaining;
      }
    }
    assert fields[0..] == fields;
    ok := true;
  }

  // ------------------------------------------------------------------- pruning

  /** Drops the aster tables that have become empty, innermost first. */
  function PruneTables(t: Table): Table {
    Prune(Prune(Prune(t, HEADERS), ASTER), PROVIDERS)
  }

  lemma PruneAbove(t: Table, p: Path, q: Path)
    requires 0 < |p| && p < q
    ensures Lookup(Prune(t, p), q) == Lookup(t, q) || Lookup(Prune(t, p), q) == None
  {
    if Lookup(t, p) == Some(Sub(map[])) {
      DropLookup(t, p, q);
      NothingBelow(Drop(t, p), p, q);
    }
  }

  /** Pruning loses no value and no other table, and leaves no empty aster table. */
  lemma PrunedTables(t: Table, q: Path)
    ensures Leaf(PruneTables(t), q) == Leaf(t, q)
    ensures q !in ASTER_TABLES ==> IsTable(PruneTables(t), q) == IsTable(t, q)
    ensures q in ASTER_TABLES ==> Lookup(PruneTables(t), q) != Some(Sub(map[]))
  {
    var t1 := Prune(t, HEADERS);
    var t2 := Prune(t1, ASTER);
    PruneLeaf(t, HEADERS, q);
    PruneLeaf(t1, ASTER, q);
    PruneLeaf(t2, PROVIDERS, q);
    assert ASTER_TABLES[0] == HEADERS && ASTER_TABLES[1] == ASTER && ASTER_TABLES[2] == PROVIDERS;
    if q == HEADERS {
      PruneAbove(t1, ASTER, HEADERS);
      PruneAbove(t2, PROVIDERS, HEADERS);
    } else if q == ASTER {
      PruneAbove(t2, PROVIDERS, ASTER);
    }
  }

  // -------------------------------------------------- remove, killed and run again

  /** `u` is what remove made of `t`. */
  ghost predicate RemovedFrom(t: Table, u: Table, fields: seq<Field>, held: bool) {
    forall q :: Leaf(u, q) == AfterRemove(t, fields, held, q)
  }

  lemma LeafString(t: Table, q: Path)
    ensures StringAt(t, q) == (if Leaf(t, q).Some? && Leaf(t, q).value.Text? then Some(Leaf(t, q).value.value) else None)
  {
  }

  lemma {:induction false} SameRemaining(t: Table, u: Table, fields: seq<Field>, held: bool)
    requires forall i | 0 <= i < |fields| :: Stays(u, fields[i], held) == Stays(t, fields[i], held)
    ensures Remaining(u, fields, held) == Remaining(t, fields, held)
  {
    if |fields| > 0 {
      SameRemaining(t, u, fields[1..], held);
    }
  }

  /** Killed between the two files, remove runs again over its own result: it changes
      nothing more and reaches the same verdict. */
  lemma RemoveAgain(t: Table, u: Table, fields: seq<Field>, held: bool)
    requires Distinct(FieldPaths(fields)) && RemovedFrom(t, u, fields, held)
    ensures RemovedFrom(u, u, fields, held)
    ensures Remaining(u, fields, held) == Remaining(t, fields, held)
  {
    forall q ensures Leaf(u, q) == AfterRemove(u, fields, held, q) {
      LeafString(u, q);
      LeafString(t, q);
    }
    forall i | 0 <= i < |fields| ensures Stays(u, fields[i], held) == Stays(t, fields[i], held) {
      var q := fields[i].path;
      FieldForIndex(fields, i);
      assert Leaf(u, q) == AfterRemove(t, fields, held, q);
      LeafString(u, q);
      LeafString(t, q);
    }
    SameRemaining(t, u, fields, held);
  }

  /** Remove never touches a value that is neither what setup installed nor what was
      there before, nor any path it has no record of. */
  lemma RemoveTouchesOnlyItsOwn(t: Table, u: Table, fields: seq<Field>, held: bool, q: Path)
    requires Distinct(FieldPaths(fields)) && RemovedFrom(t, u, fields, held)
    ensures FieldFor(fields, q).None? ==> Leaf(u, q) == Leaf(t, q)
    ensures FieldFor(fields, q).Some? && Stays(t, FieldFor(fields, q).value, held) ==> Leaf(u, q) == Leaf(t, q)
    ensures FieldFor(fields, q).Some? && !Stays(t, FieldFor(fields, q).value, held) ==>
              StringAt(u, q) == FieldFor(fields, q).value.before
  {
    assert Leaf(u, q) == AfterRemove(t, fields, held, q);
    LeafString(u, q);
    LeafString(t, q);
    if FieldFor(fields, q).Some? {
      var i := FieldForMember(fields, q);
    }
  }
}
