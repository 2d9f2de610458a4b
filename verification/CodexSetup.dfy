/** What a setup computes from the configuration and the state file it finds, and why
    the baseline stays recoverable whichever of its writes are the last to land. */
module CodexSetup {
  import opened Basics
  import opened Toml
  import opened Codex

  function Document(config: Option<Table>): Table {
    if config.Some? then config.value else map[]
  }

  /** What one version of the tool manages: distinct managed paths, the provider among them. */
  predicate WellFormed(desired: seq<Setting>) {
    && Distinct(SettingPaths(desired))
    && exists i :: 0 <= i < |desired| && desired[i] == Setting(MODEL_PROVIDER, PROVIDER)
  }

  /** No recorded field is missing from the settings. */
  predicate Covers(desired: seq<Setting>, state: Option<State>) {
    state.Some? ==> forall i | 0 <= i < |state.value.fields| :: state.value.fields[i].path in SettingPaths(desired)
  }

  // --------------------------------------------------------------- computing a setup

  /** A state file is forgotten when the configuration it describes is gone. */
  function Reconcile(t: Table, present: bool, previous: Option<State>): Option<State> {
    if previous.None? then None
    else
      var field := FieldFor(previous.value.fields, CATALOG);
      var catalogInstalled := field.Some? && StringAt(t, CATALOG) == Some(field.value.installed);
      if !present || (StringAt(t, MODEL_PROVIDER) != Some(PROVIDER) && !catalogInstalled) then None
      else previous
  }

  /** The value to return to: what an earlier setup recorded, or what is there now. */
  function BeforeOf(t: Table, previous: Option<State>, p: Path): Option<string> {
    var field := if previous.Some? then FieldFor(previous.value.fields, p) else None;
    if field.Some? then field.value.before else StringAt(t, p)
  }

  /** The path has a record, or holds a string or nothing. */
  predicate Recordable(t: Table, previous: Option<State>, p: Path) {
    (previous.Some? && FieldFor(previous.value.fields, p).Some?) || Readable(t, p)
  }

  /** Records every setting with the value to return to; refuses exactly when a field
      holds something other than a string and has no record. */
  method BuildPending(t: Table, previous: Option<State>, desired: seq<Setting>) returns (ok: bool, fields: seq<Field>)
    ensures ok <==> forall i | 0 <= i < |desired| :: Recordable(t, previous, desired[i].path)
    ensures ok ==> FieldPaths(fields) == SettingPaths(desired) && |fields| == |desired|
    ensures ok ==> forall i | 0 <= i < |desired| ::
                     fields[i] == Field(desired[i].path, BeforeOf(t, previous, desired[i].path), desired[i].value)
  {
    fields := [];
    for i := 0 to |desired|
      invariant |fields| == i
      invariant forall k | 0 <= k < i :: fields[k] == Field(desired[k].path, BeforeOf(t, previous, desired[k].path), desired[k].value)
      invariant forall k | 0 <= k < i :: Recordable(t, previous, desired[k].path)
    {
      var p := desired[i].path;
      if !Recordable(t, previous, p) { return false, fields; }
      fields := fields + [Field(p, BeforeOf(t, previous, p), desired[i].value)];
    }
    ok := true;
  }

  /** The setting of a path among the first `n`. */
  predicate SetAmong(desired: seq<Setting>, n: nat, q: Path)
    requires n <= |desired|
  {
    exists i :: 0 <= i < n && desired[i].path == q
  }

  predicate Settable(t: Table, desired: seq<Setting>) {
    forall i | 0 <= i < |desired| :: Readable(t, desired[i].path)
  }

  /** `t` holds every setting, every other value of `original`, and no new table but
      the aster tables. */
  ghost predicate Applied(original: Table, t: Table, desired: seq<Setting>, n: nat)
    requires n <= |desired|
  {
    && (forall i | 0 <= i < n :: Lookup(t, desired[i].path) == Some(Text(desired[i].value)))
    && (forall i | n <= i < |desired| :: Lookup(t, desired[i].path) == Lookup(original, desired[i].path))
    && (forall q :: !SetAmong(desired, n, q) ==> Leaf(t, q) == Leaf(original, q))
    && (forall q | q in MANAGED :: !SetAmong(desired, n, q) ==> Lookup(t, q) == Lookup(original, q))
    && (forall q :: q !in ASTER_TABLES ==> IsTable(t, q) == IsTable(original, q))
  }

  lemma SettingsAreUnrelated(desired: seq<Setting>, i: nat, n: nat)
    requires Distinct(SettingPaths(desired)) && i < |desired| && n < |desired| && i != n
    ensures Unrelated(desired[n].path, desired[i].path)
  {
    var paths := SettingPaths(desired);
    assert paths[i] in MANAGED && paths[n] in MANAGED && paths[i] != paths[n];
    ManagedPathsAreUnrelated(paths[n], paths[i]);
  }

  lemma OneMoreSetting(original: Table, t: Table, desired: seq<Setting>, n: nat)
    requires Distinct(SettingPaths(desired)) && n < |desired|
    requires Settable(original, desired) && Applied(original, t, desired, n)
    requires |desired[n].path| > 0 && Put(t, desired[n].path, desired[n].value).Some?
    ensures Applied(original, Put(t, desired[n].path, desired[n].value).value, desired, n + 1)
  {
    var s := desired[n];
    var u := Put(t, s.path, s.value).value;
    assert SettingPaths(desired)[n] in MANAGED;
    forall i | 0 <= i < |desired| && i != n ensures Lookup(u, desired[i].path) == Lookup(t, desired[i].path) {
      SettingsAreUnrelated(desired, i, n);
      PutLookup(t, s.path, s.value, desired[i].path);
    }
    forall q
      ensures !SetAmong(desired, n + 1, q) ==> Leaf(u, q) == Leaf(original, q)
      ensures q !in ASTER_TABLES ==> IsTable(u, q) == IsTable(original, q)
    {
      assert Readable(t, s.path);
      PutLeaf(t, s.path, s.value, q);
      if q < s.path && |q| > 0 { ManagedParents(s.path, q); }
      if !SetAmong(desired, n + 1, q) {
        assert desired[n].path != q;
        assert !SetAmong(desired, n, q);
      }
    }
    forall q | q in MANAGED && !SetAmong(desired, n + 1, q) ensures Lookup(u, q) == Lookup(original, q) {
      assert desired[n].path != q;
      assert !SetAmong(desired, n, q);
      ManagedPathsAreUnrelated(s.path, q);
      PutLookup(t, s.path, s.value, q);
    }
    PutLookup(t, s.path, s.value, s.path);
  }

  lemma NothingSet(original: Table, desired: seq<Setting>)
    ensures Applied(original, original, desired, 0)
  {
  }

  /** Nothing but tables, or nothing at all, is on the way to any of the settings. */
  ghost predicate Unblocked(t: Table, desired: seq<Setting>) {
    forall i, q | 0 <= i < |desired| && q < desired[i].path :: Leaf(t, q).None?
  }

  /** What is on the way to a managed path is not changed by writing another. */
  lemma WayIsKept(t: Table, p: Path, v: string, other: Path, q: Path)
    requires p in MANAGED && other in MANAGED && |p| > 0 && Put(t, p, v).Some? && q < other
    ensures Leaf(Put(t, p, v).value, q) == Leaf(t, q)
  {
    PutLookup(t, p, v, q);
    if q < p {
      PutNeedsTables(t, p, v, q);
    } else {
      assert !(p <= q) by {
        if p <= q {
          assert p <= other;
          ManagedPathsAreUnrelated(p, other);
        }
      }
      assert Unrelated(p, q);
    }
  }

  /** The way to every managed path is as it was. */
  ghost predicate SameWay(original: Table, t: Table) {
    forall p, q | p in MANAGED && q < p :: Leaf(t, q) == Leaf(original, q)
  }

  lemma StillSameWay(original: Table, t: Table, p: Path, v: string)
    requires SameWay(original, t) && p in MANAGED && |p| > 0 && Put(t, p, v).Some?
    ensures SameWay(original, Put(t, p, v).value)
    ensures forall q | q < p :: Leaf(original, q).None?
  {
    forall other, q | other in MANAGED && q < other ensures Leaf(Put(t, p, v).value, q) == Leaf(original, q) {
      WayIsKept(t, p, v, other, q);
    }
    forall q | q < p ensures Leaf(original, q).None? {
      PutNeedsTables(t, p, v, q);
    }
  }

  lemma SameWayAsItself(t: Table)
    ensures SameWay(t, t)
  {
  }

  lemma SameLeaf(original: Table, t: Table, p: Path, q: Path)
    requires SameWay(original, t) && p in MANAGED && q < p
    ensures Leaf(original, q) == Leaf(t, q)
  {
  }

  /** Writes every setting, if and only if nothing that is not a table is on the way. */
  method ApplySettings(original: Table, desired: seq<Setting>) returns (ok: bool, t: Table)
    requires Distinct(SettingPaths(desired))
    ensures ok <==> Unblocked(original, desired)
    ensures ok ==> forall i | 0 <= i < |desired| :: StringAt(t, desired[i].path) == Some(desired[i].value)
    ensures ok && Settable(original, desired) ==> Applied(original, t, desired, |desired|)
  {
    NothingSet(original, desired);
    hide Applied, Put, Lookup, SameWay, Leaf;
    assert SameWay(original, original) by { SameWayAsItself(original); }
    t := original;
    for n := 0 to |desired|
      invariant forall i | 0 <= i < n :: StringAt(t, desired[i].path) == Some(desired[i].value)
      invariant Settable(original, desired) ==> Applied(original, t, desired, n)
      invariant SameWay(original, t)
      invariant forall i, q | 0 <= i < n && q < desired[i].path :: Leaf(original, q).None?
    {
      var s := desired[n];
      assert SettingPaths(desired)[n] in MANAGED;
      var u := Put(t, s.path, s.value);
      if u.None? {
        ghost var q := PutFails(t, s.path, s.value);
        SameLeaf(original, t, s.path, q);
        return false, t;
      }
      StillSameWay(original, t, s.path, s.value);
      if Settable(original, desired) {
        OneMoreSetting(original, t, desired, n);
      }
      PutLookup(t, s.path, s.value, s.path);
      forall i | 0 <= i < n ensures Lookup(u.value, desired[i].path) == Lookup(t, desired[i].path) {
        SettingsAreUnrelated(desired, i, n);
        PutLookup(t, s.path, s.value, desired[i].path);
      }
      t := u.value;
    }
    ok := true;
  }

  // -------------------------------------------------------- what a crash can leave

  /** The recorded values are those of the baseline. */
  ghost predicate Remembers(state: Option<State>, base: Table) {
    state.Some? ==>
      && Distinct(FieldPaths(state.value.fields))
      && forall i | 0 <= i < |state.value.fields| ::
           var f := state.value.fields[i];
           Readable(base, f.path) && f.before == StringAt(base, f.path)
  }

  /** Outside the managed fields and the aster tables the documents agree. */
  ghost predicate SameElsewhere(t: Table, base: Table) {
    && (forall q :: q !in MANAGED ==> Leaf(t, q) == Leaf(base, q))
    && (forall q :: q !in ASTER_TABLES ==> IsTable(t, q) == IsTable(base, q))
  }

  predicate Recorded(state: State, p: Path) {
    FieldFor(state.fields, p).Some?
  }

  /** The configuration has been written by some setup on top of the baseline. */
  ghost predicate Overlaid(config: Option<Table>, state: Option<State>, base: Table) {
    && config.Some? && state.Some?
    && StringAt(config.value, MODEL_PROVIDER) == Some(PROVIDER)
    && SameElsewhere(config.value, base)
    && (forall p | p in MANAGED ::
          if Recorded(state.value, p) then Readable(config.value, p) else Lookup(config.value, p) == Lookup(base, p))
  }

  /** Nothing of the baseline is lost: it is still there, or the state recalls it. */
  ghost predicate Recoverable(config: Option<Table>, state: Option<State>, base: Option<Table>) {
    && Remembers(state, Document(base))
    && (config == base || Overlaid(config, state, Document(base)))
  }

  /** A setup has run to its end. */
  ghost predicate Configured(config: Option<Table>, state: Option<State>) {
    && config.Some? && state.Some? && state.value.status.Committed?
    && forall i | 0 <= i < |state.value.fields| ::
         Lookup(config.value, state.value.fields[i].path) == Some(Text(state.value.fields[i].installed))
  }

  /** Without a record, what is there now is the baseline. */
  lemma BaselineIsRecoverable(base: Option<Table>)
    ensures Recoverable(base, None, base)
  {
  }

  lemma {:induction false} FieldForFirst(fields: seq<Field>, i: nat)
    requires i < |fields|
    ensures FieldFor(fields, fields[i].path).Some?
  {
    if i > 0 {
      FieldForFirst(fields[1..], i - 1);
      assert fields[1..][i - 1] == fields[i];
    }
  }

  lemma RecordedPath(fields: seq<Field>, q: Path)
    ensures FieldFor(fields, q).Some? <==> q in FieldPaths(fields)
  {
    var paths := FieldPaths(fields);
    if FieldFor(fields, q).Some? {
      var i := FieldForMember(fields, q);
      assert paths[i] == q;
    } else if q in paths {
      var i :| 0 <= i < |paths| && paths[i] == q;
      FieldForFirst(fields, i);
    }
  }

  /** Whatever a crash left, a new setup takes the baseline's values to return to. */
  lemma BeforeIsBaseline(config: Option<Table>, state: Option<State>, base: Option<Table>, p: Path)
    requires Recoverable(config, state, base) && p in MANAGED
    ensures var previous := Reconcile(Document(config), config.Some?, state);
            && BeforeOf(Document(config), previous, p) == StringAt(Document(base), p)
            && (Recordable(Document(config), previous, p) ==> Readable(Document(base), p) && Readable(Document(config), p))
  {
    var previous := Reconcile(Document(config), config.Some?, state);
    if previous.Some? && Recorded(previous.value, p) {
      var i := FieldForMember(previous.value.fields, p);
      assert previous.value.fields[i].before == StringAt(Document(base), p);
    }
  }

  lemma SettingsAreManaged(desired: seq<Setting>)
    requires Distinct(SettingPaths(desired))
    ensures forall q :: q !in MANAGED ==> !SetAmong(desired, |desired|, q)
  {
    forall i | 0 <= i < |desired| ensures desired[i].path in MANAGED {
      assert SettingPaths(desired)[i] in MANAGED;
    }
  }

  /** A managed path that is not set now was never set. */
  lemma UnrecordedIsUntouched(config: Option<Table>, state: Option<State>, base: Option<Table>, desired: seq<Setting>, p: Path)
    requires Recoverable(config, state, base) && Covers(desired, state)
    requires p in MANAGED && p !in SettingPaths(desired)
    ensures Lookup(Document(config), p) == Lookup(Document(base), p)
  {
    if config != base {
      forall i | 0 <= i < |state.value.fields| ensures state.value.fields[i].path != p {
        assert state.value.fields[i].path in SettingPaths(desired);
      }
      NotAmong(state.value.fields, p);
    }
  }

  lemma UnsetIsUntouched(original: Table, t: Table, desired: seq<Setting>, p: Path)
    requires Applied(original, t, desired, |desired|) && p in MANAGED && p !in SettingPaths(desired)
    ensures Lookup(t, p) == Lookup(original, p)
  {
    forall i | 0 <= i < |desired| ensures desired[i].path != p {
      assert SettingPaths(desired)[i] in SettingPaths(desired);
    }
    assert !SetAmong(desired, |desired|, p);
  }

  /** The values to return to are those of the baseline. */
  ghost predicate RecordsBaseline(base: Option<Table>, desired: seq<Setting>, fields: seq<Field>) {
    && FieldPaths(fields) == SettingPaths(desired) && |fields| == |desired|
    && Settable(Document(base), desired)
    && forall i | 0 <= i < |desired| ::
         fields[i] == Field(desired[i].path, StringAt(Document(base), desired[i].path), desired[i].value)
  }

  /** A pending record built from a recoverable state keeps it recoverable before the
      configuration is written. */
  lemma RecordIsRecoverable(config: Option<Table>, state: Option<State>, base: Option<Table>, desired: seq<Setting>,
                            fields: seq<Field>, status: Status)
    requires Recoverable(config, state, base) && Distinct(SettingPaths(desired)) && Covers(desired, state)
    requires RecordsBaseline(base, desired, fields) && Settable(Document(config), desired)
    ensures Recoverable(config, Some(State(status, fields)), base)
  {
    var next := State(status, fields);
    assert Remembers(Some(next), Document(base));
    forall p | p in MANAGED && config != base
      ensures if Recorded(next, p) then Readable(Document(config), p) else Lookup(Document(config), p) == Lookup(Document(base), p)
    {
      RecordedPath(fields, p);
      if Recorded(next, p) {
        var i :| 0 <= i < |desired| && SettingPaths(desired)[i] == p;
        assert Readable(Document(config), desired[i].path);
      } else {
        UnrecordedIsUntouched(config, state, base, desired, p);
      }
    }
  }

  /** And after. */
  lemma PendingIsRecoverable(config: Option<Table>, state: Option<State>, base: Option<Table>, desired: seq<Setting>,
                             fields: seq<Field>, t: Table, status: Status)
    requires Recoverable(config, state, base) && WellFormed(desired) && Covers(desired, state)
    requires RecordsBaseline(base, desired, fields) && Settable(Document(config), desired)
    requires Applied(Document(config), t, desired, |desired|)
    ensures Recoverable(Some(t), Some(State(status, fields)), base)
    ensures Configured(Some(t), Some(State(Committed, fields)))
  {
    var next := State(status, fields);
    var b := Document(base);
    assert Remembers(Some(next), b);
    forall p | p in MANAGED
      ensures if Recorded(next, p) then Readable(t, p) else Lookup(t, p) == Lookup(b, p)
    {
      RecordedPath(fields, p);
      if Recorded(next, p) {
        var i :| 0 <= i < |desired| && SettingPaths(desired)[i] == p;
      } else {
        UnrecordedIsUntouched(config, state, base, desired, p);
        UnsetIsUntouched(Document(config), t, desired, p);
      }
    }
    var i :| 0 <= i < |desired| && desired[i] == Setting(MODEL_PROVIDER, PROVIDER);
    assert StringAt(t, MODEL_PROVIDER) == Some(PROVIDER);
    SettingsAreManaged(desired);
    assert SameElsewhere(t, b);
  }

  /** The record is one of these settings. */
  predicate Installs(fields: seq<Field>, desired: seq<Setting>) {
    && FieldPaths(fields) == SettingPaths(desired) && |fields| == |desired|
    && forall i | 0 <= i < |desired| :: fields[i].path == desired[i].path && fields[i].installed == desired[i].value
  }

  /** What a setup of these settings records of a configuration and an earlier record. */
  predicate RecordOf(config: Option<Table>, state: Option<State>, desired: seq<Setting>, fields: seq<Field>) {
    var previous := Reconcile(Document(config), config.Some?, state);
    && FieldPaths(fields) == SettingPaths(desired) && |fields| == |desired|
    && forall i | 0 <= i < |desired| ::
         && fields[i] == Field(desired[i].path, BeforeOf(Document(config), previous, desired[i].path), desired[i].value)
         && Recordable(Document(config), previous, desired[i].path)
  }

  lemma RecordOfBaseline(config: Option<Table>, state: Option<State>, base: Option<Table>, desired: seq<Setting>,
                         fields: seq<Field>)
    requires Recoverable(config, state, base) && Distinct(SettingPaths(desired)) && RecordOf(config, state, desired, fields)
    ensures RecordsBaseline(base, desired, fields) && Settable(Document(config), desired)
  {
    hide Recoverable, Reconcile, BeforeOf, Lookup;
    forall i | 0 <= i < |desired|
      ensures fields[i] == Field(desired[i].path, StringAt(Document(base), desired[i].path), desired[i].value)
      ensures Readable(Document(base), desired[i].path) && Readable(Document(config), desired[i].path)
    {
      assert SettingPaths(desired)[i] in MANAGED;
      BeforeIsBaseline(config, state, base, desired[i].path);
    }
  }

  lemma DesiredPaths(desired: seq<Setting>)
    requires WellFormed(desired)
    ensures Distinct(SettingPaths(desired))
  {
  }

  lemma SetupIsRecoverable(config: Option<Table>, state: Option<State>, base: Option<Table>, desired: seq<Setting>,
                           fields: seq<Field>, t: Table)
    requires Recoverable(config, state, base) && WellFormed(desired) && Covers(desired, state)
    requires RecordOf(config, state, desired, fields)
    requires Settable(Document(config), desired) ==> Applied(Document(config), t, desired, |desired|)
    ensures Recoverable(config, Some(State(Pending, fields)), base)
    ensures Recoverable(Some(t), Some(State(Pending, fields)), base)
    ensures Recoverable(Some(t), Some(State(Committed, fields)), base)
    ensures Configured(Some(t), Some(State(Committed, fields)))
  {
    hide Recoverable, Applied, Configured, RecordOf, Lookup;
    DesiredPaths(desired);
    RecordOfBaseline(config, state, base, desired, fields);
    RecordIsRecoverable(config, state, base, desired, fields, Pending);
    PendingIsRecoverable(config, state, base, desired, fields, t, Pending);
    PendingIsRecoverable(config, state, base, desired, fields, t, Committed);
  }
}
