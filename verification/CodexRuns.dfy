/** Whole histories of setup and remove commands on one configuration. */
module CodexRuns {
  import opened Basics
  import opened Toml
  import opened Codex
  import opened CodexSetup
  import opened CodexHome

  // ------------------------------------------------------------- remove, restarted

  /** Clearing what is already cleared adds nothing and reaches the same verdict. */
  lemma ClearedAgain(config: Option<Table>, middle: Option<Table>, next: Option<Table>, fields: seq<Field>, held: bool)
    requires Distinct(FieldPaths(fields))
    requires ClearedFrom(config, middle, fields, held) && ClearedFrom(middle, next, fields, held)
    ensures ClearedFrom(config, next, fields, held)
    ensures Unfinished(middle, fields, held) == Unfinished(config, fields, held)
  {
    hide AfterRemove, Lookup, Remaining;
    RemoveAgain(Document(config), middle.value, fields, held);
    forall q ensures Leaf(next.value, q) == AfterRemove(Document(config), fields, held, q) {
      assert Leaf(next.value, q) == AfterRemove(middle.value, fields, held, q);
    }
  }

  lemma {:induction false} RemainingMember(t: Table, fields: seq<Field>, held: bool, i: nat) returns (k: nat)
    requires i < |Remaining(t, fields, held)|
    ensures k < |fields| && Remaining(t, fields, held)[i] == fields[k] && Stays(t, fields[k], held)
  {
    if Stays(t, fields[0], held) && i == 0 {
      k := 0;
    } else {
      k := RemainingMember(t, fields[1..], held, if Stays(t, fields[0], held) then i - 1 else i);
      k := k + 1;
    }
  }

  lemma OneMoreDistinct(f: Field, fields: seq<Field>)
    requires f.path in MANAGED && Distinct(FieldPaths(fields))
    requires forall i | 0 <= i < |fields| :: fields[i].path != f.path
    ensures Distinct(FieldPaths([f] + fields))
  {
    assert FieldPaths([f] + fields) == [f.path] + FieldPaths(fields);
  }

  lemma {:induction false} RemainingDistinct(t: Table, fields: seq<Field>, held: bool)
    requires Distinct(FieldPaths(fields))
    ensures Distinct(FieldPaths(Remaining(t, fields, held)))
  {
    if |fields| > 0 {
      var paths := FieldPaths(fields);
      assert FieldPaths(fields[1..]) == paths[1..];
      RemainingDistinct(t, fields[1..], held);
      var rest := Remaining(t, fields[1..], held);
      assert [] + rest == rest;
      forall i | 0 <= i < |rest| ensures rest[i].path != fields[0].path {
        var k := RemainingMember(t, fields[1..], held, i);
        assert paths[0] != paths[k + 1];
      }
      assert paths[0] in MANAGED;
      if Stays(t, fields[0], held) {
        OneMoreDistinct(fields[0], rest);
      }
    }
  }

  lemma {:induction false} AllStay(t: Table, fields: seq<Field>, held: bool)
    requires forall i | 0 <= i < |fields| :: Stays(t, fields[i], held)
    ensures Remaining(t, fields, held) == fields
  {
    if |fields| > 0 {
      AllStay(t, fields[1..], held);
    }
  }

  /** The fields left on record after a conflict still stay. */
  lemma LeftoversStay(config: Option<Table>, middle: Option<Table>, fields: seq<Field>, held: bool)
    requires Distinct(FieldPaths(fields)) && ClearedFrom(config, middle, fields, held)
    ensures middle.Some?
    ensures var left := Remaining(Document(config), fields, held);
            && Remaining(middle.value, left, held) == left
            && Distinct(FieldPaths(left))
            && forall q :: AfterRemove(middle.value, left, held, q) == Leaf(middle.value, q)
  {
    var t, u := Document(config), middle.value;
    var left := Remaining(t, fields, held);
    RemainingDistinct(t, fields, held);
    forall i | 0 <= i < |left| ensures Stays(u, left[i], held) {
      var k := RemainingMember(t, fields, held, i);
      FieldForIndex(fields, k);
      RemoveTouchesOnlyItsOwn(t, u, fields, held, fields[k].path);
      LeafString(u, fields[k].path);
      LeafString(t, fields[k].path);
    }
    AllStay(u, left, held);
    forall q ensures AfterRemove(u, left, held, q) == Leaf(u, q) {
      if FieldFor(left, q).Some? {
        var i := FieldForMember(left, q);
        assert Stays(u, left[i], held);
      }
    }
  }

  /** Clearing again from the shorter record leaves the outcome of the whole. */
  lemma ClearedLeftovers(config: Option<Table>, middle: Option<Table>, next: Option<Table>, fields: seq<Field>, held: bool)
    requires Distinct(FieldPaths(fields)) && ClearedFrom(config, middle, fields, held)
    requires ClearedFrom(middle, next, Remaining(Document(config), fields, held), held)
    ensures ClearedFrom(config, next, fields, held)
  {
    hide AfterRemove, Lookup, Remaining;
    LeftoversStay(config, middle, fields, held);
    var left := Remaining(Document(config), fields, held);
    forall q ensures Leaf(next.value, q) == AfterRemove(Document(config), fields, held, q) {
      assert Leaf(next.value, q) == AfterRemove(middle.value, left, held, q);
    }
  }

  /** The configuration and the record a remove has to reach. */
  ghost predicate Settled(config: Option<Table>, state: Option<State>, next: Option<Table>, record: Option<State>, held: bool) {
    state.Some? && ClearedFrom(config, next, state.value.fields, held) && record == Unfinished(config, state.value.fields, held)
  }

  /** Untouched, or cleared with the record still to be updated. */
  ghost predicate Underway(config: Option<Table>, state: Option<State>, next: Option<Table>, record: Option<State>, held: bool) {
    record == state && (next == config || (state.Some? && ClearedFrom(config, next, state.value.fields, held)))
  }

  /** What one more remove does to a remove that was cut off at any point. */
  lemma OneMoreRemove(config: Option<Table>, state: Option<State>, middle: Option<Table>, record: Option<State>,
                      next: Option<Table>, left: Option<State>, held: bool)
    requires state.Some? && Distinct(FieldPaths(state.value.fields))
    requires Underway(config, state, middle, record, held) || Settled(config, state, middle, record, held)
    requires next == middle || (record.Some? && ClearedFrom(middle, next, record.value.fields, held))
    requires left == record ||
             (record.Some? && ClearedFrom(middle, next, record.value.fields, held) && left == Unfinished(middle, record.value.fields, held))
    ensures Underway(config, state, next, left, held) || Settled(config, state, next, left, held)
    ensures left != record || Settled(config, state, middle, record, held) ==> Settled(config, state, next, left, held)
  {
    hide ClearedFrom, Remaining;
    var fields := state.value.fields;
    if Settled(config, state, middle, record, held) {
      LeftoversStay(config, middle, fields, held);
      if record.Some? && ClearedFrom(middle, next, record.value.fields, held) {
        ClearedLeftovers(config, middle, next, fields, held);
      }
    } else if middle != config && ClearedFrom(middle, next, fields, held) {
      ClearedAgain(config, middle, next, fields, held);
    }
  }

  /** A remove that ends with the record it began with has nothing left to do. */
  lemma SameRecord(config: Option<Table>, state: Option<State>, middle: Option<Table>, next: Option<Table>,
                   record: Option<State>, held: bool)
    requires state.Some? && record.Some? && Distinct(FieldPaths(state.value.fields))
    requires Underway(config, state, middle, record, held) || Settled(config, state, middle, record, held)
    requires ClearedFrom(middle, next, record.value.fields, held) && record == Unfinished(middle, record.value.fields, held)
    ensures Settled(config, state, next, record, held)
  {
    hide ClearedFrom, Remaining;
    var fields := state.value.fields;
    if Settled(config, state, middle, record, held) {
      LeftoversStay(config, middle, fields, held);
      ClearedLeftovers(config, middle, next, fields, held);
    } else if middle != config {
      ClearedAgain(config, middle, next, fields, held);
    }
  }

  /** Any number of removes, each cut off anywhere, then one that ends. */
  method RemoveRepeatedly(home: Home, attempts: nat, held: bool) returns (r: Result)
    requires home.state.Some? && Distinct(FieldPaths(home.state.value.fields))
    modifies home
    ensures Underway(old(home.config), old(home.state), home.config, home.state, held)
         || Settled(old(home.config), old(home.state), home.config, home.state, held)
    ensures r.Completed? || r.Conflicted? ==>
              && Settled(old(home.config), old(home.state), home.config, home.state, held)
              && r.Completed? == home.state.None?
    ensures home.key == old(home.key) && !r.RolledBack? && (r.Completed? ==> home.catalog == None)
    ensures old(home.Troubles()) <= home.Troubles()
    ensures old(home.Troubles()) == home.Troubles() && attempts > 0 && old(AllReadable(Document(home.config), home.state.value.fields, held)) ==>
              r.Completed? || r.Conflicted?
  {
    hide Remaining, ClearedFrom, Failures, AllReadable;
    r := Refused;
    ghost var config, state := home.config, home.state;
    for i := 0 to attempts
      invariant Underway(config, state, home.config, home.state, held) || Settled(config, state, home.config, home.state, held)
      invariant home.key == old(home.key) && !r.RolledBack? && !r.Completed? && !r.Conflicted?
      invariant old(home.Troubles()) <= home.Troubles()
      invariant i == 0 ==> home.config == config && home.state == state
      invariant i > 0 && old(AllReadable(Document(home.config), home.state.value.fields, held)) ==>
                  old(home.Troubles()) < home.Troubles()
    {
      ghost var middle, record := home.config, home.state;
      if Settled(config, state, middle, record, held) {
        LeftoversStay(config, middle, state.value.fields, held);
      }
      r := home.Remove(held);
      OneMoreRemove(config, state, middle, record, home.config, home.state, held);
      if (r.Completed? || r.Conflicted?) && home.state == record {
        SameRecord(config, state, middle, home.config, home.state, held);
      }
      if r.Completed? || r.Conflicted? { return; }
    }
  }

  // ------------------------------------------------------------------ the whole life

  /** `t` has every value of `base` and no other, and every table, up to aster tables
      that hold nothing. */
  ghost predicate Restored(base: Table, t: Table) {
    && (forall q :: Leaf(t, q) == Leaf(base, q))
    && (forall q :: q !in ASTER_TABLES ==> IsTable(t, q) == IsTable(base, q))
    && (forall q | q in ASTER_TABLES :: Lookup(t, q) != Some(Sub(map[])))
  }

  lemma {:induction false} NoneStay(t: Table, fields: seq<Field>)
    requires forall i | 0 <= i < |fields| :: !Changed(t, fields[i])
    ensures Remaining(t, fields, false) == []
  {
    if |fields| > 0 {
      NoneStay(t, fields[1..]);
    }
  }

  lemma ConflictIsKept(t: Table, fields: seq<Field>, i: nat)
    requires Distinct(FieldPaths(fields)) && i < |fields|
    ensures Changed(t, fields[i]) ==> AfterRemove(t, fields, false, fields[i].path) == Leaf(t, fields[i].path)
  {
    FieldForIndex(fields, i);
  }

  lemma {:induction false} SomeStay(t: Table, fields: seq<Field>)
    ensures Remaining(t, fields, false) == [] ==> forall i | 0 <= i < |fields| :: !Changed(t, fields[i])
  {
    if |fields| > 0 {
      SomeStay(t, fields[1..]);
      forall i | 0 <= i < |fields| && Remaining(t, fields, false) == [] ensures !Changed(t, fields[i]) {
        if i > 0 { assert fields[i] == fields[1..][i - 1]; }
      }
    }
  }

  lemma RecordedIsReadable(config: Option<Table>, state: Option<State>, base: Option<Table>, i: nat)
    requires Recoverable(config, state, base) && state.Some? && i < |state.value.fields|
    ensures Readable(Document(config), state.value.fields[i].path)
  {
    var f := state.value.fields[i];
    assert Readable(Document(base), f.path);
    assert FieldPaths(state.value.fields)[i] in MANAGED;
    FieldForFirst(state.value.fields, i);
    assert Recorded(state.value, f.path);
  }

  lemma RestoredValue(config: Option<Table>, state: Option<State>, base: Option<Table>, q: Path)
    requires Recoverable(config, state, base) && state.Some?
    requires forall i | 0 <= i < |state.value.fields| :: !Changed(Document(config), state.value.fields[i])
    ensures AfterRemove(Document(config), state.value.fields, false, q) == Leaf(Document(base), q)
  {
    var fields := state.value.fields;
    if FieldFor(fields, q).Some? {
      var i := FieldForMember(fields, q);
      assert Readable(Document(base), fields[i].path);
      RecordedIsReadable(config, state, base, i);
    } else if q in MANAGED && config != base {
      assert !Recorded(state.value, q);
    }
  }

  /** From any state a crash can leave, a remove that runs through gives every path its
      value before the first attempt exactly when each recorded field holds what the
      record says was installed, or what it says was there before. */
  lemma RemoveRestores(config: Option<Table>, state: Option<State>, base: Option<Table>, next: Option<Table>)
    requires Recoverable(config, state, base) && state.Some?
    requires ClearedFrom(config, next, state.value.fields, false)
    ensures next.Some?
    ensures Restored(Document(base), next.value) <==>
              forall i | 0 <= i < |state.value.fields| :: !Changed(Document(config), state.value.fields[i])
    ensures Restored(Document(base), next.value) <==> Unfinished(config, state.value.fields, false) == None
  {
    hide AfterRemove, Remaining;
    var fields := state.value.fields;
    forall i | 0 <= i < |fields| && Leaf(next.value, fields[i].path) == Leaf(Document(base), fields[i].path)
      ensures !Changed(Document(config), fields[i])
    {
      assert Leaf(next.value, fields[i].path) == AfterRemove(Document(config), fields, false, fields[i].path);
      ConflictIsKept(Document(config), fields, i);
      LeafString(Document(config), fields[i].path);
      LeafString(Document(base), fields[i].path);
    }
    if forall i | 0 <= i < |fields| :: !Changed(Document(config), fields[i]) {
      NoneStay(Document(config), fields);
      forall q ensures Leaf(next.value, q) == Leaf(Document(base), q) {
        assert Leaf(next.value, q) == AfterRemove(Document(config), fields, false, q);
        RestoredValue(config, state, base, q);
      }
    }
    SomeStay(Document(config), fields);
  }

  // ------------------------------------------------------ an interrupted second setup

  /** The earlier setup had set the field to something else, over something that was
      different again. */
  predicate IsOvertaken(first: seq<Field>, f: Field) {
    var g := FieldFor(first, f.path);
    g.Some? && g.value.installed != f.installed && Some(g.value.installed) != f.before
  }

  function Overtaken(first: seq<Field>, fields: seq<Field>): seq<Field> {
    if |fields| == 0 then []
    else (if IsOvertaken(first, fields[0]) then [fields[0]] else []) + Overtaken(first, fields[1..])
  }

  lemma {:induction false} OvertakenStay(config: Table, first: seq<Field>, fields: seq<Field>)
    requires Configured(Some(config), Some(State(Committed, first)))
    requires forall i | 0 <= i < |fields| :: fields[i].before == BeforeOf(config, Some(State(Committed, first)), fields[i].path)
    ensures Remaining(config, fields, false) == Overtaken(first, fields)
  {
    if |fields| > 0 {
      OvertakenStay(config, first, fields[1..]);
      if FieldFor(first, fields[0].path).Some? {
        var i := FieldForMember(first, fields[0].path);
      }
    }
  }

  /** The record of a completed setup: it has the provider in it. */
  predicate Provided(fields: seq<Field>) {
    exists i :: 0 <= i < |fields| && fields[i].path == MODEL_PROVIDER && fields[i].installed == PROVIDER
  }

  /** A second setup that crashes between its first two writes, over any configuration a
      completed setup left: the fields a remove then takes for edits are exactly those whose
      setting it was about to change, unless the setting in force was there before. */
  lemma InterruptedUpdateKeeps(config: Table, first: seq<Field>, second: seq<Setting>, fields: seq<Field>)
    requires Configured(Some(config), Some(State(Committed, first))) && Provided(first)
    requires RecordOf(Some(config), Some(State(Committed, first)), second, fields)
    ensures Remaining(config, fields, false) == Overtaken(first, fields)
  {
    var i :| 0 <= i < |first| && first[i].path == MODEL_PROVIDER && first[i].installed == PROVIDER;
    assert Lookup(config, first[i].path) == Some(Text(first[i].installed));
    OvertakenStay(config, first, fields);
  }

  /** So that remove gives the baseline back if and only if there are none. */
  lemma InterruptedUpdateRestores(config: Table, first: seq<Field>, base: Option<Table>, second: seq<Setting>,
                                  fields: seq<Field>, next: Option<Table>)
    requires Recoverable(Some(config), Some(State(Committed, first)), base)
    requires Configured(Some(config), Some(State(Committed, first))) && Provided(first)
    requires WellFormed(second) && Covers(second, Some(State(Committed, first)))
    requires RecordOf(Some(config), Some(State(Committed, first)), second, fields)
    requires ClearedFrom(Some(config), next, fields, false)
    ensures Recoverable(Some(config), Some(State(Pending, fields)), base)
    ensures next.Some? && (Restored(Document(base), next.value) <==> Overtaken(first, fields) == [])
  {
    hide Recoverable, Configured, ClearedFrom, Restored, RecordOf, RecordsBaseline, Settable, Provided, Remaining;
    var state := Some(State(Committed, first));
    DesiredPaths(second);
    RecordOfBaseline(Some(config), state, base, second, fields);
    RecordIsRecoverable(Some(config), state, base, second, fields, Pending);
    InterruptedUpdateKeeps(config, first, second, fields);
    RemoveRestores(Some(config), Some(State(Pending, fields)), base, next);
  }

  /** What the tool sets: the address and the catalog vary. */
  function Settings(url: string, catalog: string): seq<Setting> {
    [Setting(CATALOG, catalog),
     Setting(MODEL_PROVIDER, PROVIDER),
     Setting(BASE_URL, url),
     Setting(MANAGED[3], "ASTER_API_KEY"),
     Setting(MANAGED[4], "aster-proxy"),
     Setting(MANAGED[5], "Aster Team"),
     Setting(MANAGED[6], "responses")]
  }

  lemma SettingsAreWellFormed(url: string, catalog: string)
    ensures WellFormed(Settings(url, catalog)) && SettingPaths(Settings(url, catalog)) == MANAGED
  {
    assert SettingPaths(Settings(url, catalog)) == MANAGED;
    assert Settings(url, catalog)[1] == Setting(MODEL_PROVIDER, PROVIDER);
  }

  lemma {:induction false} NoneOvertaken(first: seq<Field>, fields: seq<Field>)
    requires forall i | 0 <= i < |fields| :: !IsOvertaken(first, fields[i])
    ensures Overtaken(first, fields) == []
  {
    if |fields| > 0 {
      NoneOvertaken(first, fields[1..]);
    }
  }

  lemma {:induction false} OneOvertaken(first: seq<Field>, fields: seq<Field>, k: nat)
    requires k < |fields| && forall i | 0 <= i < |fields| && i != k :: !IsOvertaken(first, fields[i])
    ensures Overtaken(first, fields) == if IsOvertaken(first, fields[k]) then [fields[k]] else []
  {
    if k == 0 {
      NoneOvertaken(first, fields[1..]);
    } else {
      OneOvertaken(first, fields[1..], k - 1);
    }
  }

  /** Over any baseline, a second setup to another address with the same catalog is about to
      change the address alone, and matters unless the address in force was there before. */
  lemma OnlyTheAddress(first: seq<Field>, fields: seq<Field>, one: string, other: string, catalog: string)
    requires Installs(first, Settings(one, catalog)) && Installs(fields, Settings(other, catalog)) && one != other
    ensures Overtaken(first, fields) == if fields[2].before == Some(one) then [] else [fields[2]]
  {
    SettingsAreWellFormed(one, catalog);
    forall i | 0 <= i < 7 ensures FieldFor(first, fields[i].path) == Some(first[i]) {
      FieldForIndex(first, i);
    }
    forall i | 0 <= i < 7 && i != 2 ensures first[i].installed == fields[i].installed {
      assert Settings(one, catalog)[i].value == Settings(other, catalog)[i].value;
    }
    OneOvertaken(first, fields, 2);
  }

  lemma EmptyIsSettable(desired: seq<Setting>)
    requires Distinct(SettingPaths(desired))
    ensures Settable(map[], desired) && forall q :: Leaf(map[], q).None?
    ensures forall i | 0 <= i < |desired| :: Recordable(map[], None, desired[i].path) && BeforeOf(map[], None, desired[i].path) == None
  {
    forall i | 0 <= i < |desired| ensures |desired[i].path| > 0 {
      assert SettingPaths(desired)[i] in MANAGED;
    }
  }

  /** A configuration that a completed setup left has a record of every setting. */
  lemma AllRecorded(config: Table, first: seq<Field>, one: string, other: string, catalog: string)
    requires Configured(Some(config), Some(State(Committed, first))) && Installs(first, Settings(one, catalog))
    ensures Provided(first) && Covers(Settings(other, catalog), Some(State(Committed, first)))
    ensures Reconcile(config, true, Some(State(Committed, first))) == Some(State(Committed, first))
    ensures forall i | 0 <= i < 7 :: FieldFor(first, Settings(other, catalog)[i].path) == Some(first[i])
  {
    SettingsAreWellFormed(one, catalog);
    SettingsAreWellFormed(other, catalog);
    assert first[1].path == MODEL_PROVIDER && first[1].installed == PROVIDER;
    assert Lookup(config, first[1].path) == Some(Text(first[1].installed));
    forall i | 0 <= i < 7 ensures FieldFor(first, Settings(other, catalog)[i].path) == Some(first[i]) {
      assert Settings(other, catalog)[i].path == SettingPaths(Settings(one, catalog))[i] == first[i].path;
      FieldForIndex(first, i);
    }
    forall i | 0 <= i < 7 ensures first[i].path in SettingPaths(Settings(other, catalog)) {
      assert first[i].path == MANAGED[i];
    }
  }

  /** A first setup where nothing was, up to its end. */
  method SetUpFromNothing(desired: seq<Setting>) returns (config: Table, fields: seq<Field>)
    requires WellFormed(desired)
    ensures Applied(map[], config, desired, |desired|) && RecordOf(None, None, desired, fields) && Installs(fields, desired)
    ensures forall i | 0 <= i < |desired| :: fields[i] == Field(desired[i].path, None, desired[i].value)
    ensures Recoverable(Some(config), Some(State(Committed, fields)), None)
    ensures Configured(Some(config), Some(State(Committed, fields)))
  {
    DesiredPaths(desired);
    EmptyIsSettable(desired);
    hide Applied, Recoverable, Configured, WellFormed, Settable;
    var built, applied;
    built, fields := BuildPending(map[], None, desired);
    applied, config := ApplySettings(map[], desired);
    BaselineIsRecoverable(None);
    SetupIsRecoverable(None, None, None, desired, fields, config);
  }

  /** A second setup up to its record, over a configuration whose record has all its paths. */
  method RecordAgain(config: Table, first: seq<Field>, base: Option<Table>, second: seq<Setting>) returns (fields: seq<Field>)
    requires Recoverable(Some(config), Some(State(Committed, first)), base)
    requires Reconcile(config, true, Some(State(Committed, first))) == Some(State(Committed, first))
    requires WellFormed(second) && Covers(second, Some(State(Committed, first)))
    requires forall i | 0 <= i < |second| :: FieldFor(first, second[i].path).Some?
    ensures RecordOf(Some(config), Some(State(Committed, first)), second, fields) && Installs(fields, second)
    ensures forall i | 0 <= i < |second| :: fields[i].before == FieldFor(first, second[i].path).value.before
    ensures Recoverable(Some(config), Some(State(Pending, fields)), base)
  {
    DesiredPaths(second);
    hide Recoverable, Reconcile, RecordsBaseline, Settable, Covers, WellFormed;
    var state := Some(State(Committed, first));
    var built;
    built, fields := BuildPending(config, Reconcile(config, true, state), second);
    assert RecordOf(Some(config), state, second, fields);
    RecordOfBaseline(Some(config), state, base, second, fields);
    RecordIsRecoverable(Some(config), state, base, second, fields, Pending);
  }

  /** A first setup where nothing was, to any address, and a second to any other that crashes
      between its first two writes: a remove keeps the first address, and nothing else. */
  method InterruptedUpdateConflicts(one: string, other: string, catalog: string)
    returns (config: Table, first: seq<Field>, fields: seq<Field>)
    requires one != other
    ensures Applied(map[], config, Settings(one, catalog), 7) && RecordOf(None, None, Settings(one, catalog), first)
    ensures Configured(Some(config), Some(State(Committed, first)))
    ensures RecordOf(Some(config), Some(State(Committed, first)), Settings(other, catalog), fields)
    ensures Recoverable(Some(config), Some(State(Pending, fields)), None)
    ensures Remaining(config, fields, false) == [Field(BASE_URL, None, other)]
  {
    hide Applied, Recoverable, Configured, WellFormed, Settable, Reconcile, Provided, Remaining, Covers, RecordOf, FieldFor;
    SettingsAreWellFormed(one, catalog);
    SettingsAreWellFormed(other, catalog);
    config, first := SetUpFromNothing(Settings(one, catalog));
    AllRecorded(config, first, one, other, catalog);
    fields := RecordAgain(config, first, None, Settings(other, catalog));
    InterruptedUpdateKeeps(config, first, Settings(other, catalog), fields);
    OnlyTheAddress(first, fields, one, other, catalog);
    assert Settings(other, catalog)[2] == Setting(BASE_URL, other);
  }

  datatype Request = Request(desired: seq<Setting>, models: string, key: Option<string>)

  /** Later requests manage at least the paths of earlier ones. */
  predicate NonShrinking(requests: seq<Request>) {
    forall i, j | 0 <= i < j < |requests| ::
      forall k | 0 <= k < |requests[i].desired| :: requests[i].desired[k].path in SettingPaths(requests[j].desired)
  }

  /** The record on disk, if any, lists the paths of an earlier request. */
  ghost predicate FromEarlier(state: Option<State>, requests: seq<Request>, n: nat)
    requires n <= |requests|
  {
    state.Some? ==> exists i :: 0 <= i < n && FieldPaths(state.value.fields) == SettingPaths(requests[i].desired)
  }

  lemma EarlierIsCovered(state: Option<State>, requests: seq<Request>, n: nat)
    requires n < |requests| && NonShrinking(requests) && FromEarlier(state, requests, n)
    ensures Covers(requests[n].desired, state)
  {
    if state.Some? {
      var i :| 0 <= i < n && FieldPaths(state.value.fields) == SettingPaths(requests[i].desired);
      forall k | 0 <= k < |state.value.fields| ensures state.value.fields[k].path in SettingPaths(requests[n].desired) {
        assert FieldPaths(state.value.fields)[k] == SettingPaths(requests[i].desired)[k];
        assert requests[i].desired[k].path in SettingPaths(requests[n].desired);
      }
    }
  }

  lemma ConfiguredIsUnchanged(config: Option<Table>, state: Option<State>)
    requires Configured(config, state)
    ensures forall i | 0 <= i < |state.value.fields| :: !Changed(Document(config), state.value.fields[i])
    ensures AllReadable(Document(config), state.value.fields, false)
  {
  }

  lemma RecordIsDistinct(config: Option<Table>, state: Option<State>, base: Option<Table>)
    requires Recoverable(config, state, base) && Configured(config, state)
    ensures state.Some? && Distinct(FieldPaths(state.value.fields))
  {
  }

  /** From a configuration no setup has touched: any setups, each completing, failing
      or crashing anywhere, the last one completing, and then a remove, itself cut off
      any number of times, that ends.  It never meets a conflict, and the baseline is back. */
  method SetUpAndRemove(home: Home, requests: seq<Request>, attempts: nat) returns (setup: Result, removed: Result)
    requires home.state == None
    requires NonShrinking(requests) && forall i | 0 <= i < |requests| :: WellFormed(requests[i].desired)
    modifies home
    ensures setup.Completed? ==> removed.Completed? || removed.Refused? || removed.Broken? || removed.Killed?
    ensures setup.Completed? && removed.Completed? ==>
              home.state == None && home.catalog == None && Restored(Document(old(home.config)), Document(home.config))
    ensures old(home.Troubles()) <= home.Troubles()
    ensures old(home.Troubles()) == home.Troubles() && setup.Completed? && attempts > 0 ==> removed.Completed?
    ensures old(home.Troubles()) == home.Troubles() && |requests| == 1 && Workable(old(home.config), None, requests[0].desired) ==>
              (Unblocked(Document(old(home.config)), requests[0].desired) ==> setup.Completed?)
  {
    hide Recoverable, Configured, ClearedFrom, Restored, WellFormed, NonShrinking, Remaining, Failures, AllReadable;
    hide Workable, Unblocked;
    ghost var base := home.config;
    BaselineIsRecoverable(base);
    setup, removed := Refused, Refused;
    for n := 0 to |requests|
      invariant Recoverable(home.config, home.state, base)
      invariant FromEarlier(home.state, requests, n)
      invariant setup.Completed? ==> Configured(home.config, home.state)
      invariant old(home.Troubles()) <= home.Troubles()
      invariant n == 0 ==> home.config == base && home.state == None
      invariant n == 1 && old(home.Troubles()) == home.Troubles() ==>
                  (Workable(base, None, requests[0].desired) && Unblocked(Document(base), requests[0].desired) ==> setup.Completed?)
    {
      EarlierIsCovered(home.state, requests, n);
      setup := home.Setup(requests[n].desired, requests[n].models, requests[n].key, base);
    }
    if setup.Completed? {
      ghost var config, state := home.config, home.state;
      RecordIsDistinct(config, state, base);
      ConfiguredIsUnchanged(config, state);
      removed := RemoveRepeatedly(home, attempts, false);
      if removed.Completed? || removed.Conflicted? {
        RemoveRestores(config, state, base, home.config);
      }
    }
  }

  lemma InForceIsUnchanged(config: Option<Table>, desired: seq<Setting>, fields: seq<Field>)
    requires Installs(fields, desired)
    requires forall i | 0 <= i < |desired| :: StringAt(Document(config), desired[i].path) == Some(desired[i].value)
    ensures forall i | 0 <= i < |fields| :: StringAt(Document(config), fields[i].path) == Some(fields[i].installed)
    ensures AllReadable(Document(config), fields, false)
    ensures Unfinished(config, fields, false) == None
  {
    NoneStay(Document(config), fields);
  }

  /** Fields on record, set again and removed, have the value the record said. */
  lemma GivesBack(config: Option<Table>, first: seq<Field>, middle: Option<Table>, desired: seq<Setting>, fields: seq<Field>,
                  next: Option<Table>)
    requires Distinct(FieldPaths(first)) && Distinct(SettingPaths(desired)) && Installs(fields, desired)
    requires Remembered(config, first, fields) && ClearedFrom(middle, next, fields, false)
    requires forall i | 0 <= i < |fields| :: StringAt(Document(middle), fields[i].path) == Some(fields[i].installed)
    ensures forall i | 0 <= i < |first| && first[i].path in SettingPaths(desired) ::
              Leaf(Document(next), first[i].path) == AsLeaf(first[i].before)
  {
    forall i | 0 <= i < |first| && first[i].path in SettingPaths(desired)
      ensures Leaf(Document(next), first[i].path) == AsLeaf(first[i].before)
    {
      var j :| 0 <= j < |desired| && SettingPaths(desired)[j] == first[i].path;
      assert fields[j].path == desired[j].path;
      FieldForIndex(fields, j);
      forall k | 0 <= k < i ensures first[k].path != first[i].path {
        assert FieldPaths(first)[k] != FieldPaths(first)[i];
      }
      assert Leaf(next.value, first[i].path) == AfterRemove(Document(middle), fields, false, first[i].path);
    }
  }

  /** The user has changed the configuration, whatever they did, but it still goes with its
      record.  A setup that completes, and the remove after it, give every field that was on
      record and is set again the value that was there before the first setup. */
  method SetUpOverEdits(home: Home, desired: seq<Setting>, models: string, newKey: Option<string>, first: seq<Field>)
    returns (setup: Result, removed: Result)
    requires WellFormed(desired) && home.state.Some? && home.state.value.fields == first && Distinct(FieldPaths(first))
    requires !Forgets(home.config, home.state)
    modifies home
    ensures setup.Completed? ==> !removed.Conflicted?
    ensures setup.Completed? && removed.Completed? ==>
              forall i | 0 <= i < |first| && first[i].path in SettingPaths(desired) ::
                Leaf(Document(home.config), first[i].path) == AsLeaf(first[i].before)
    ensures old(home.Troubles()) == home.Troubles() && Workable(old(home.config), old(home.state), desired) && Unblocked(Document(old(home.config)), desired) ==>
              setup.Completed? && removed.Completed?
  {
    DesiredPaths(desired);
    hide WellFormed, Forgets, ClearedFrom, Remaining, Workable, Unblocked, Failures, Recoverable, Configured;
    hide Remembered, Unfinished;
    setup, removed := Refused, Refused;
    ghost var config := home.config;
    setup := home.Setup(desired, models, newKey, None);
    if !setup.Completed? { return; }
    ghost var middle, fields := home.config, home.state.value.fields;
    InForceIsUnchanged(middle, desired, fields);
    removed := home.Remove(false);
    if removed.Completed? {
      GivesBack(config, first, middle, desired, fields, home.config);
    }
  }
}
