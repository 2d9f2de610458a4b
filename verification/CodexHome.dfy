/** Setup and remove as transactions over the configuration, the state file and the
    stored key, with a failure or a crash possible at every write. */
module CodexHome {
  import opened Basics
  import opened Toml
  import opened Codex
  import opened CodexSetup

  /** How a command ends.  Refused: nothing was changed.  Broken: an error after the
      first write that could not be undone.  Conflicted: some fields were left alone. */
  datatype Result = Completed | Refused | RolledBack | Broken | Conflicted | Killed

  /** The two fields that tell whether a record goes with a configuration are strings. */
  predicate Recognizable(t: Table) {
    Readable(t, CATALOG) && Readable(t, MODEL_PROVIDER)
  }

  /** Setup has nothing to refuse in the configuration it finds. */
  predicate Workable(config: Option<Table>, state: Option<State>, desired: seq<Setting>) {
    && Readable(Document(config), BASE_URL)
    && (state.Some? ==> Recognizable(Document(config)))
    && forall i | 0 <= i < |desired| ::
         Recordable(Document(config), Reconcile(Document(config), config.Some?, state), desired[i].path)
  }

  /** The configuration still holds the catalog of the record. */
  predicate HoldsCatalog(t: Table, fields: seq<Field>) {
    exists i :: 0 <= i < |fields| && fields[i].path == CATALOG && (forall k | 0 <= k < i :: fields[k].path != CATALOG)
                && StringAt(t, CATALOG) == Some(fields[i].installed)
  }

  /** There is no record, or none that this configuration goes with: it is gone, or holds
      neither the provider nor the recorded catalog. */
  predicate Forgets(config: Option<Table>, state: Option<State>) {
    || state.None? || config.None?
    || (StringAt(config.value, MODEL_PROVIDER) != Some(PROVIDER) && !HoldsCatalog(config.value, state.value.fields))
  }

  lemma {:induction false} FirstFieldFor(fields: seq<Field>, q: Path, i: nat)
    requires i < |fields| && fields[i].path == q && forall k | 0 <= k < i :: fields[k].path != q
    ensures FieldFor(fields, q) == Some(fields[i])
  {
    if i > 0 {
      FirstFieldFor(fields[1..], q, i - 1);
    }
  }

  lemma {:induction false} FirstIndex(fields: seq<Field>, q: Path) returns (i: nat)
    requires FieldFor(fields, q).Some?
    ensures i < |fields| && fields[i].path == q && FieldFor(fields, q) == Some(fields[i])
    ensures forall k | 0 <= k < i :: fields[k].path != q
  {
    if fields[0].path == q {
      i := 0;
    } else {
      i := FirstIndex(fields[1..], q);
      i := i + 1;
      forall k | 0 <= k < i ensures fields[k].path != q {
        if k > 0 { assert fields[k] == fields[1..][k - 1]; }
      }
    }
  }

  /** A record is kept if and only if the configuration is there and names the provider or
      holds the recorded catalog. */
  lemma KeptExactly(config: Option<Table>, state: Option<State>)
    ensures Reconcile(Document(config), config.Some?, state) == if Forgets(config, state) then None else state
  {
    if state.Some? && config.Some? {
      var fields := state.value.fields;
      if HoldsCatalog(config.value, fields) {
        var i :| 0 <= i < |fields| && fields[i].path == CATALOG && (forall k | 0 <= k < i :: fields[k].path != CATALOG)
                 && StringAt(config.value, CATALOG) == Some(fields[i].installed);
        FirstFieldFor(fields, CATALOG, i);
      } else if FieldFor(fields, CATALOG).Some? {
        var i := FirstIndex(fields, CATALOG);
      }
    }
  }

  /** What is left to record after a remove: the fields that stay, or nothing. */
  function Unfinished(config: Option<Table>, fields: seq<Field>, held: bool): Option<State> {
    var remaining := Remaining(Document(config), fields, held);
    if !held && |remaining| == 0 then None else Some(State(Committed, remaining))
  }

  /** `next` is `config` with every restorable field given back and no empty aster table. */
  ghost predicate ClearedFrom(config: Option<Table>, next: Option<Table>, fields: seq<Field>, held: bool) {
    && next.Some?
    && RemovedFrom(Document(config), next.value, fields, held)
    && (forall q :: q !in ASTER_TABLES ==> IsTable(next.value, q) == IsTable(Document(config), q))
    && (forall q | q in ASTER_TABLES :: Lookup(next.value, q) != Some(Sub(map[])))
  }

  lemma ClearedByPruning(config: Option<Table>, t: Table, fields: seq<Field>, held: bool)
    requires RemovedFrom(Document(config), t, fields, held)
    requires forall q :: IsTable(t, q) == IsTable(Document(config), q)
    ensures ClearedFrom(config, Some(PruneTables(t)), fields, held)
  {
    hide AfterRemove, Lookup, PruneTables;
    forall q
      ensures Leaf(PruneTables(t), q) == AfterRemove(Document(config), fields, held, q)
      ensures q !in ASTER_TABLES ==> IsTable(PruneTables(t), q) == IsTable(Document(config), q)
      ensures q in ASTER_TABLES ==> Lookup(PruneTables(t), q) != Some(Sub(map[]))
    {
      PrunedTables(t, q);
    }
  }

  /** The values to return to are those an earlier record had, and for any other path what the
      configuration holds. */
  predicate Remembered(config: Option<Table>, earlier: seq<Field>, fields: seq<Field>) {
    && (forall i, j | 0 <= i < |earlier| && 0 <= j < |fields| && earlier[i].path == fields[j].path
                      && (forall k | 0 <= k < i :: earlier[k].path != earlier[i].path) :: fields[j].before == earlier[i].before)
    && (forall j | 0 <= j < |fields| && (forall i | 0 <= i < |earlier| :: earlier[i].path != fields[j].path) ::
          fields[j].before == StringAt(Document(config), fields[j].path))
  }

  lemma RemembersFields(config: Option<Table>, state: Option<State>, desired: seq<Setting>, fields: seq<Field>)
    requires RecordOf(config, state, desired, fields)
    ensures Remembered(config, if Forgets(config, state) then [] else state.value.fields, fields)
  {
    KeptExactly(config, state);
    var earlier := if Forgets(config, state) then [] else state.value.fields;
    hide Forgets, Reconcile;
    forall i, j | 0 <= i < |earlier| && 0 <= j < |fields| && earlier[i].path == fields[j].path
                  && (forall k | 0 <= k < i :: earlier[k].path != earlier[i].path)
      ensures fields[j].before == earlier[i].before
    {
      FirstFieldFor(earlier, earlier[i].path, i);
      assert fields[j].path == desired[j].path;
    }
    forall j | 0 <= j < |fields| && (forall i | 0 <= i < |earlier| :: earlier[i].path != fields[j].path)
      ensures fields[j].before == StringAt(Document(config), fields[j].path)
    {
      NotAmong(earlier, fields[j].path);
      assert fields[j].path == desired[j].path;
    }
  }

  /** What a setup is going to write, computed from what it finds; it refuses before any write
      exactly if a field it reads holds no string or something is in the way of a setting. */
  method Compute(config: Option<Table>, state: Option<State>, desired: seq<Setting>)
    returns (ok: bool, fields: seq<Field>, t: Table)
    requires WellFormed(desired)
    ensures ok <==> Workable(config, state, desired) && Unblocked(Document(config), desired)
    ensures ok ==> RecordOf(config, state, desired, fields)
    ensures ok ==> Remembered(config, if Forgets(config, state) then [] else state.value.fields, fields)
    ensures ok ==> forall i | 0 <= i < |desired| :: StringAt(t, desired[i].path) == Some(desired[i].value)
    ensures ok && Settable(Document(config), desired) ==> Applied(Document(config), t, desired, |desired|)
  {
    DesiredPaths(desired);
    hide Applied, Settable, Lookup, WellFormed, Recordable, Forgets, Remembered, Unblocked, BeforeOf, Reconcile;
    var document := Document(config);
    ok, fields, t := false, [], document;
    if !Readable(document, BASE_URL) || (state.Some? && !Recognizable(document)) { return; }
    ok, fields := BuildPending(document, Reconcile(document, config.Some?, state), desired);
    if !ok { return; }
    RemembersFields(config, state, desired, fields);
    ok, t := ApplySettings(document, desired);
  }

  lemma RecordHasPaths(config: Option<Table>, state: Option<State>, desired: seq<Setting>, fields: seq<Field>)
    requires RecordOf(config, state, desired, fields)
    ensures Installs(fields, desired)
  {
  }

  lemma ForgottenRecord(config: Option<Table>, state: Option<State>, desired: seq<Setting>, fields: seq<Field>)
    requires Forgets(config, state) && RecordOf(config, state, desired, fields)
    ensures RecordOf(config, None, desired, fields)
  {
    KeptExactly(config, state);
  }

  /** The catalog file was not edited, nor was the field that names it. */
  predicate FreesCatalog(t: Table, fields: seq<Field>, held: bool) {
    !held && forall i | 0 <= i < |fields| && fields[i].path == CATALOG :: !Changed(t, fields[i])
  }

  lemma {:induction false} CatalogStays(t: Table, fields: seq<Field>, held: bool)
    ensures !held && FieldFor(Remaining(t, fields, held), CATALOG).None? <==> FreesCatalog(t, fields, held)
  {
    if |fields| > 0 {
      CatalogStays(t, fields[1..], held);
      assert forall i | 0 < i < |fields| :: fields[i] == fields[1..][i - 1];
      var kept := if Stays(t, fields[0], held) then [fields[0]] else [];
      assert (kept + Remaining(t, fields[1..], held))[|kept|..] == Remaining(t, fields[1..], held);
    }
  }

  class Home {
    var config: Option<Table>
    var state: Option<State>
    var key: Option<string>
    var catalog: Option<string>   // the bytes of the model catalog file
    var tick: nat
    const fate: nat -> Fate   // how every operation turns out

    constructor (config: Option<Table>, state: Option<State>, key: Option<string>, catalog: Option<string>, fate: nat -> Fate)
      ensures this.config == config && this.state == state && this.key == key && this.catalog == catalog && this.fate == fate
      ensures tick == 0
    {
      this.config, this.state, this.key, this.catalog, this.fate, this.tick := config, state, key, catalog, fate, 0;
    }

    /** How many operations have not succeeded so far. */
    ghost function Troubles(): nat
      reads `tick
    {
      Failures(fate, tick)
    }

    method Draw() returns (f: Fate)
      modifies `tick
      ensures f == fate(old(tick)) && tick == old(tick) + 1 && Troubles() == old(Troubles()) + Bad(f.outcome)
    {
      f := fate(tick);
      tick := tick + 1;
    }

    /** Whatever depends on other programs, files or the user. */
    method Attempt() returns (o: Outcome)
      modifies `tick
      ensures o == fate(old(tick)).outcome && tick == old(tick) + 1 && Troubles() == old(Troubles()) + Bad(o)
    {
      var f := Draw();
      o := f.outcome;
    }

    method WriteConfig(next: Option<Table>) returns (o: Outcome)
      modifies `config, `tick
      ensures o == fate(old(tick)).outcome && tick == old(tick) + 1 && Troubles() == old(Troubles()) + Bad(o)
      ensures config == if o.Done? || (o.Crashed? && fate(old(tick)).effect) then next else old(config)
    {
      var f := Draw();
      o := f.outcome;
      if o.Done? || (o.Crashed? && f.effect) { config := next; }
    }

    method WriteState(next: Option<State>) returns (o: Outcome)
      modifies `state, `tick
      ensures o == fate(old(tick)).outcome && tick == old(tick) + 1 && Troubles() == old(Troubles()) + Bad(o)
      ensures state == if o.Done? || (o.Crashed? && fate(old(tick)).effect) then next else old(state)
    {
      var f := Draw();
      o := f.outcome;
      if o.Done? || (o.Crashed? && f.effect) { state := next; }
    }

    method WriteKey(next: Option<string>) returns (o: Outcome)
      modifies `key, `tick
      ensures o == fate(old(tick)).outcome && tick == old(tick) + 1 && Troubles() == old(Troubles()) + Bad(o)
      ensures key == if o.Done? || (o.Crashed? && fate(old(tick)).effect) then next else old(key)
    {
      var f := Draw();
      o := f.outcome;
      if o.Done? || (o.Crashed? && f.effect) { key := next; }
    }

    method WriteCatalog(next: Option<string>) returns (o: Outcome)
      modifies `catalog, `tick
      ensures o == fate(old(tick)).outcome && tick == old(tick) + 1 && Troubles() == old(Troubles()) + Bad(o)
      ensures catalog == if o.Done? || (o.Crashed? && fate(old(tick)).effect) then next else old(catalog)
    {
      var f := Draw();
      o := f.outcome;
      if o.Done? || (o.Crashed? && f.effect) { catalog := next; }
    }

    /** The part of setup that runs once the pending record is durable. */
    method Install(t: Table, fields: seq<Field>, models: string, newKey: Option<string>) returns (o: Outcome)
      requires state == Some(State(Pending, fields))
      modifies this
      ensures o.Done? ==> config == Some(t) && state == Some(State(Committed, fields))
      ensures o.Done? ==> key == if newKey.Some? then newKey else old(key)
      ensures o.Error? ==> state == Some(State(Pending, fields))
      ensures config == old(config) || config == Some(t)
      ensures state == Some(State(Pending, fields)) || (config == Some(t) && state == Some(State(Committed, fields)))
      ensures old(Troubles()) <= Troubles() && (old(Troubles()) == Troubles() <==> o.Done?)
      ensures o.Done? ==> catalog == Some(models) && tick == old(tick) + (if newKey.Some? then 5 else 4)
    {
      o := WriteCatalog(Some(models));
      if !o.Done? { return; }
      o := WriteConfig(Some(t));
      if !o.Done? { return; }
      if newKey.Some? {
        o := WriteKey(newKey);
        if !o.Done? { return; }
      }
      o := Attempt();   // what the client makes of the provider and of the catalog
      if !o.Done? { return; }
      o := WriteState(Some(State(Committed, fields)));
    }

    /** Puts everything back, the state file last. */
    method Rollback(oldConfig: Option<Table>, oldState: Option<State>, oldKey: Option<string>, oldCatalog: Option<string>)
      returns (o: Outcome)
      modifies this
      ensures o.Done? ==>
                config == oldConfig && state == oldState && key == oldKey && catalog == oldCatalog && tick == old(tick) + 4
      ensures config == oldConfig || config == old(config)
      ensures state == old(state) || (config == oldConfig && state == oldState)
      ensures old(Troubles()) <= Troubles() && (old(Troubles()) == Troubles() <==> o.Done?)
    {
      o := WriteConfig(oldConfig);
      if !o.Done? { return; }
      o := WriteCatalog(oldCatalog);
      if !o.Done? { return; }
      o := WriteKey(oldKey);
      if !o.Done? { return; }
      o := WriteState(oldState);
    }

    /** The writes of a setup: the pending record first, and the reverse on failure. */
    method Transact(t: Table, fields: seq<Field>, models: string, newKey: Option<string>) returns (r: Result)
      modifies this
      ensures r.Completed? ==>
                && config == Some(t) && state == Some(State(Committed, fields)) && key == (if newKey.Some? then newKey else old(key))
                && catalog == Some(models) && tick == old(tick) + (if newKey.Some? then 6 else 5)
      ensures r.Refused? || r.RolledBack? ==>
                config == old(config) && state == old(state) && key == old(key) && catalog == old(catalog)
      ensures || (config == old(config) && (state == old(state) || state == Some(State(Pending, fields))))
              || (config == Some(t) && (state == Some(State(Pending, fields)) || state == Some(State(Committed, fields))))
      ensures !r.Conflicted?
      ensures old(Troubles()) <= Troubles() && (old(Troubles()) == Troubles() <==> r.Completed?)
      ensures r.Broken? ==> Troubles() >= old(Troubles()) + 2
    {
      var oldConfig, oldState, oldKey, oldCatalog := config, state, key, catalog;
      var o := WriteState(Some(State(Pending, fields)));
      if o.Error? { return Refused; }
      if o.Crashed? { return Killed; }
      o := Install(t, fields, models, newKey);
      if o.Done? { return Completed; }
      if o.Crashed? { return Killed; }
      o := Rollback(oldConfig, oldState, oldKey, oldCatalog);
      r := if o.Done? then RolledBack else if o.Error? then Broken else Killed;
    }

    /** One `setup codex`.  However it ends, the baseline stays recoverable; a record
        whose configuration is gone is forgotten and what is there becomes the baseline;
        ended in an error that was rolled back, nothing has changed; completed, every
        setting is in force and on record. */
    method Setup(desired: seq<Setting>, models: string, newKey: Option<string>, ghost base: Option<Table>) returns (r: Result)
      requires WellFormed(desired)
      modifies this
      ensures old(Recoverable(config, state, base)) && Covers(desired, old(state)) ==> Recoverable(config, state, base)
      ensures r.Completed? && old(Recoverable(config, state, base)) && Covers(desired, old(state)) ==> Configured(config, state)
      ensures Forgets(old(config), old(state)) ==>
                || (config == old(config) && state == old(state))
                || (Recoverable(config, state, old(config)) && (r.Completed? ==> Configured(config, state)))
      ensures r.Completed? ==>
                && config.Some? && state.Some? && state.value.status.Committed?
                && Installs(state.value.fields, desired)
                && (forall i | 0 <= i < |desired| :: StringAt(config.value, desired[i].path) == Some(desired[i].value))
                && key == (if newKey.Some? then newKey else old(key)) && catalog == Some(models)
                && old(Troubles()) == Troubles() && tick == old(tick) + (if newKey.Some? then 7 else 6)
      ensures r.Refused? || r.RolledBack? ==>
                config == old(config) && state == old(state) && key == old(key) && catalog == old(catalog)
      ensures r.Broken? ==> Troubles() >= old(Troubles()) + 2
      ensures !Workable(old(config), old(state), desired) ==>
                (r.Refused? || r.Killed?) && config == old(config) && state == old(state) && key == old(key) && catalog == old(catalog)
      ensures state == old(state) || (state.Some? && FieldPaths(state.value.fields) == SettingPaths(desired) && |state.value.fields| == |desired|)
      ensures (r.Completed? || state != old(state)) && !Forgets(old(config), old(state)) ==>
                Remembered(old(config), old(state).value.fields, state.value.fields)
      ensures (r.Completed? || state != old(state)) && Forgets(old(config), old(state)) ==>
                Remembered(old(config), [], state.value.fields)
      ensures old(Troubles()) <= Troubles()
      ensures old(Troubles()) == Troubles() ==>
                if Workable(old(config), old(state), desired) && Unblocked(Document(old(config)), desired)
                then r.Completed?
                else r.Refused?
      ensures !r.Conflicted?
    {
      hide Recoverable, Configured, Applied, Settable, Lookup, WellFormed, Workable, Forgets, Remembered, Unblocked;
      hide RecordOf, Failures;
      var o := Attempt();
      if o.Crashed? { return Killed; }
      if o.Error? { return Refused; }
      var ok, fields, t := Compute(config, state, desired);
      if !ok { return Refused; }
      RecordHasPaths(config, state, desired, fields);
      if Recoverable(config, state, base) && Covers(desired, state) { SetupIsRecoverable(config, state, base, desired, fields, t); }
      if Forgets(config, state) {
        BaselineIsRecoverable(config);
        ForgottenRecord(config, state, desired, fields);
        SetupIsRecoverable(config, None, config, desired, fields, t);
      }
      r := Transact(t, fields, models, newKey);
    }

    /** One `remove codex`; `held` says that the catalog file was edited.  However it
        ends, the configuration is as it was or cleared. */
    method Remove(held: bool) returns (r: Result)
      requires state.Some? ==> Distinct(FieldPaths(state.value.fields))
      modifies `config, `state, `catalog, `tick
      ensures old(state).None? ==> r.Refused? || r.Killed?
      ensures r.Refused? ==> config == old(config) && state == old(state) && catalog == old(catalog)
      ensures catalog == old(catalog) || (catalog == None && old(state).Some? && FreesCatalog(Document(old(config)), old(state).value.fields, held))
      ensures config == old(config) || (old(state).Some? && ClearedFrom(old(config), config, old(state).value.fields, held))
      ensures old(state).Some? && !AllReadable(Document(old(config)), old(state).value.fields, held) ==>
                config == old(config) && state == old(state)
      ensures state != old(state) ==>
                && old(state).Some? && ClearedFrom(old(config), config, old(state).value.fields, held)
                && state == Unfinished(old(config), old(state).value.fields, held)
      ensures r.Completed? || r.Conflicted? ==>
                && old(state).Some? && ClearedFrom(old(config), config, old(state).value.fields, held)
                && state == Unfinished(old(config), old(state).value.fields, held)
                && r.Completed? == state.None?
                && catalog == if FreesCatalog(Document(old(config)), old(state).value.fields, held) then None else old(catalog)
      ensures r.Completed? ==> catalog == None
      ensures r.Broken? ==> state == old(state)
      ensures !r.RolledBack?
      ensures old(Troubles()) <= Troubles()
      ensures old(Troubles()) == Troubles() ==>
                (r.Refused? <==> old(state).None? || !AllReadable(Document(old(config)), old(state).value.fields, held)) && !r.Broken? && !r.Killed?
      ensures r.Completed? || r.Conflicted? ==>
                && old(Troubles()) == Troubles()
                && tick == old(tick) + (if FreesCatalog(Document(old(config)), old(state).value.fields, held) then 4 else 3)
    {
      hide Remaining, AfterRemove, Lookup, FreesCatalog, Failures;
      var o := Attempt();
      if o.Crashed? { return Killed; }
      if o.Error? || state.None? { return Refused; }
      var fields := state.value.fields;
      var ok, t, remaining := RemoveFields(Document(config), fields, held);
      if !ok { return Refused; }
      ClearedByPruning(config, t, fields, held);
      CatalogStays(Document(config), fields, held);
      o := WriteConfig(Some(PruneTables(t)));
      if o.Error? { return Refused; }
      if o.Crashed? { return Killed; }
      if !held && FieldFor(remaining, CATALOG).None? {
        o := WriteCatalog(None);
        if o.Error? { return Broken; }
        if o.Crashed? { return Killed; }
      }
      var finished := !held && |remaining| == 0;
      o := WriteState(if finished then None else Some(State(Committed, remaining)));
      if o.Error? { return Broken; }
      if o.Crashed? { return Killed; }
      r := if finished then Completed else Conflicted;
    }
  }
}
