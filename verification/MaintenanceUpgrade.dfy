/** The service steps shared by upgrade, rollback and recovery, and reconciliation after
    a crash. */
module MaintenanceUpgrade {
  import opened Basics
  import opened Maintenance
  import opened MaintenanceHost

  const SLOT_RUNNERS: set<Unit> := {SlotRunner(Blue), SlotRunner(Green)}
  const RUNNERS: set<Unit> := {Runner, SlotRunner(Blue), SlotRunner(Green)}

  /** Only the service manager's state differs. */
  predicate SameFiles(b: Device, a: Device) {
    a == b.(running := a.running, enabled := a.enabled)
  }

  const UNITS: seq<Unit> := [SlotRunner(Blue), SlotRunner(Green), Runner, Control(Blue), Control(Green)]

  lemma UnitsCovered(u: Unit)
    ensures u in UNITS
  {
    match u {
      case Control(Blue) => assert u == UNITS[3];
      case Control(Green) => assert u == UNITS[4];
      case Runner => assert u == UNITS[2];
      case SlotRunner(Blue) => assert u == UNITS[0];
      case SlotRunner(Green) => assert u == UNITS[1];
    }
  }

  lemma RunnerUnitCovered(a: Active)
    ensures a.RunnerUnit() in RUNNERS
  {
    match a.slot {
      case Blue =>
      case Green =>
    }
  }

  /** Once the Runners and the other slot are out, only the own Control is left. */
  lemma OnlyOwnUnits(units: set<Unit>, a: Active)
    requires units !! RUNNERS && Control(a.slot.Other()) !in units
    ensures units <= {Control(a.slot)}
  {
    forall u | u in units ensures u == Control(a.slot) {
      UnitsCovered(u);
    }
  }

  /** Stops every Runner and both Control slots, each confirmed, and then disables
      the slot Runners.  The first failure ends the whole operation. */
  method Quiesce(h: Host) returns (o: Outcome)
    requires h.Good() && h.Alterable()
    modifies h
    ensures h.Good() && h.Alterable() && h.world.jobs == old(h.world.jobs) && h.Before() == old(h.Before())
    ensures SameFiles(old(h.world.device), h.world.device)
    ensures o.Done? ==> h.world.device.running == {} && h.world.device.enabled == old(h.world.device.enabled) - SLOT_RUNNERS
    ensures Smooth(h.fate, old(h.tick), 5) && CutOff(h.fate(old(h.tick) + 5)) ==>
              o.Crashed? && h.world.device == old(h.world.device).(running := {}) && h.tick == old(h.tick) + 6
    ensures old(h.Troubles()) <= h.Troubles() && (old(h.Troubles()) == h.Troubles() <==> o.Done?)
    ensures o.Done? ==> h.tick == old(h.tick) + 7
  {
    hide Failures, LawfulRun, Unheard, RunnerBefore, Checkpointed, Lagging, Danger, Owned;
    var units := UNITS;
    var i := 0;
    while i < |units|
      invariant 0 <= i <= |units|
      invariant h.Good() && h.Alterable() && h.world.jobs == old(h.world.jobs) && h.Before() == old(h.Before())
      invariant h.world.device == old(h.world.device).(running := h.world.device.running)
      invariant h.world.device.running <= old(h.world.device.running)
      invariant forall k | 0 <= k < i :: units[k] !in h.world.device.running
      invariant h.tick == old(h.tick) + i && h.Troubles() == old(h.Troubles())
    {
      o := h.Command(h.world.device.(running := h.world.device.running - {units[i]}));
      if !o.Done? { return; }
      i := i + 1;
    }
    assert h.world.device.running == {} by {
      forall u ensures u !in h.world.device.running {
        assert u in units by { UnitsCovered(u); }
      }
    }
    o := h.Command(h.world.device.(enabled := h.world.device.enabled - {SlotRunner(Blue)}));
    if !o.Done? { return; }
    o := h.Command(h.world.device.(enabled := h.world.device.enabled - {SlotRunner(Green)}));
  }

  /** Disables every Runner but one. */
  method DisableOthers(h: Host, unit: Unit) returns (o: Outcome)
    requires h.Good() && h.Alterable()
    requires Checkpointed(h.world.jobs) || unit == Effective(h.world.device).RunnerUnit()
    modifies h
    ensures h.Good() && h.Alterable() && h.world.jobs == old(h.world.jobs) && h.Before() == old(h.Before())
    ensures h.world.device == old(h.world.device).(enabled := h.world.device.enabled)
    ensures o.Done? ==> h.world.device.enabled == old(h.world.device.enabled) - (RUNNERS - {unit})
    ensures old(h.Troubles()) <= h.Troubles() && (old(h.Troubles()) == h.Troubles() <==> o.Done?)
    ensures o.Done? ==> h.tick == old(h.tick) + (if unit in RUNNERS then 2 else 3)
  {
    hide Failures, LawfulRun, Unheard, RunnerBefore, Checkpointed, Lagging, Danger, Owned;
    o := Done;
    var others := [Runner, SlotRunner(Blue), SlotRunner(Green)];
    var i := 0;
    while i < 3
      invariant 0 <= i <= 3 && o.Done?
      invariant h.Good() && h.Alterable() && h.world.jobs == old(h.world.jobs) && h.Before() == old(h.Before())
      invariant h.world.device == old(h.world.device).(enabled := h.world.device.enabled)
      invariant h.Troubles() == old(h.Troubles()) && h.tick == old(h.tick) + i - (if unit in others[..i] then 1 else 0)
      invariant h.world.device.enabled == old(h.world.device.enabled) - ((set k | 0 <= k < i :: others[k]) - {unit})
    {
      if others[i] != unit {
        o := h.Command(h.world.device.(enabled := h.world.device.enabled - {others[i]}));
        if !o.Done? { return; }
      }
      i := i + 1;
    }
    assert (set k | 0 <= k < 3 :: others[k]) == RUNNERS && others[..3] == others by {
      assert others[0] == Runner && others[1] == SlotRunner(Blue) && others[2] == SlotRunner(Green);
    }
  }

  /** Leaves exactly the committed Runner unit enabled and running when it was
      running before, and no Runner enabled otherwise. */
  method RestoreRunner(h: Host, active: Active, wasRunning: bool) returns (o: Outcome)
    requires h.Good() && h.Alterable()
    requires Checkpointed(h.world.jobs) || active == Effective(h.world.device)
    modifies h
    ensures h.Good() && h.Alterable() && h.world.jobs == old(h.world.jobs) && h.Before() == old(h.Before())
    ensures SameFiles(old(h.world.device), h.world.device)
    ensures o.Done? ==>
              && h.world.device.running == old(h.world.device.running) + (if wasRunning then {active.RunnerUnit()} else {})
              && h.world.device.enabled == old(h.world.device.enabled) - RUNNERS + (if wasRunning then {active.RunnerUnit()} else {})
    ensures old(h.Troubles()) <= h.Troubles() && (old(h.Troubles()) == h.Troubles() <==> o.Done?)
    ensures o.Done? ==> h.tick == old(h.tick) + (if wasRunning then 6 else 4)
  {
    hide Failures, LawfulRun, Unheard, RunnerBefore, Checkpointed, Lagging, Danger, Owned;
    var unit := active.RunnerUnit();
    o := h.Oracle();   // the identity and manifest of the committed Runner
    if !o.Done? { return; }
    o := DisableOthers(h, unit);
    if !o.Done? { return; }
    RunnerUnitCovered(active);
    if !wasRunning {
      o := h.Command(h.world.device.(enabled := h.world.device.enabled - {unit}));
      return;
    }
    o := h.Command(h.world.device.(enabled := h.world.device.enabled + {unit}));
    if !o.Done? { return; }
    o := h.Command(h.world.device.(running := h.world.device.running + {unit}));
    if !o.Done? { return; }
    o := h.Probe(unit);
  }

  /** With every pointer on `active`, its Control up and alone enabled, restoring the
      Runner settles the installation. */
  lemma Restored(d: Device, active: Active, wasRunning: bool, after: Device)
    requires Effective(d) == active && Effective(after) == active && d.active.Some?
    requires active.slot in d.link && d.link[active.slot] == active.version
    requires d.current == active.version && d.upstreams == active.slot && d.proxy == active.slot
    requires d.assets == Of(active.version) && active.version in d.releases && d.selected == active.version
    requires d.running == {Control(active.slot)}
    requires Control(active.slot) in d.enabled && Control(active.slot.Other()) !in d.enabled
    requires SameFiles(d, after)
    requires after.running == d.running + (if wasRunning then {active.RunnerUnit()} else {})
    requires after.enabled == d.enabled - RUNNERS + (if wasRunning then {active.RunnerUnit()} else {})
    ensures Settled(after) && RunnerUp(after) == wasRunning
  {
    RunnerUnitCovered(active);
    OnlyOwnUnits(d.enabled - RUNNERS, active);
  }

  /** Makes one slot the only enabled Control, starts it and waits until it answers. */
  method BringUp(h: Host, slot: Slot) returns (o: Outcome)
    requires h.Good() && h.Alterable() && h.world.device.running == {}
    requires Checkpointed(h.world.jobs) || slot == Effective(h.world.device).slot
    modifies h
    ensures h.Good() && h.Alterable() && h.world.jobs == old(h.world.jobs) && h.Before() == old(h.Before())
    ensures SameFiles(old(h.world.device), h.world.device)
    ensures o.Done? ==>
              && h.world.device.running == {Control(slot)}
              && h.world.device.enabled == old(h.world.device.enabled) - {Control(slot.Other())} + {Control(slot)}
    ensures old(h.Troubles()) <= h.Troubles() && (old(h.Troubles()) == h.Troubles() <==> o.Done?)
    ensures o.Done? ==> h.tick == old(h.tick) + 4
  {
    hide Failures, LawfulRun, Unheard, RunnerBefore, Checkpointed, Lagging, Danger, Owned;
    o := h.Command(h.world.device.(enabled := h.world.device.enabled - {Control(slot.Other())}));
    if !o.Done? { return; }
    o := h.Command(h.world.device.(enabled := h.world.device.enabled + {Control(slot)}));
    if !o.Done? { return; }
    o := h.Command(h.world.device.(running := h.world.device.running + {Control(slot)}));
    if !o.Done? { return; }
    o := h.Probe(Control(slot));
  }

  /** Points the proxy at a slot, reloads it, and selects the release. */
  method Route(h: Host, slot: Slot, version: Version) returns (o: Outcome)
    requires h.Good() && h.Alterable()
    requires Checkpointed(h.world.jobs) || (slot == Effective(h.world.device).slot && version == Effective(h.world.device).version)
    modifies h
    ensures h.Good() && h.Alterable() && h.world.jobs == old(h.world.jobs) && h.Before() == old(h.Before())
    ensures h.world.device == old(h.world.device).(
              upstreams := h.world.device.upstreams, proxy := h.world.device.proxy, selected := h.world.device.selected)
    ensures o.Done? ==> h.world.device == old(h.world.device).(upstreams := slot, proxy := slot, selected := version)
    ensures old(h.Troubles()) <= h.Troubles() && (old(h.Troubles()) == h.Troubles() <==> o.Done?)
    ensures o.Done? ==> h.tick == old(h.tick) + 3
  {
    hide Failures, LawfulRun, Unheard, RunnerBefore, Checkpointed, Lagging, Danger, Owned;
    o := h.Replace(h.world.device.(upstreams := slot));
    if !o.Done? { return; }
    o := h.Command(h.world.device.(proxy := slot));
    if !o.Done? { return; }
    o := h.Replace(h.world.device.(selected := version));
  }

  /** Service definitions, slot link and `current`, in the order recovery uses. */
  method PointAt(h: Host, active: Active) returns (o: Outcome)
    requires h.Good() && h.Alterable() && Checkpointed(h.world.jobs)
    modifies h
    ensures h.Good() && h.Alterable() && h.world.jobs == old(h.world.jobs) && h.Before() == old(h.Before())
    ensures h.world.device.active == old(h.world.device.active)
    ensures o.Done? ==> h.world.device == old(h.world.device).(
                          assets := Of(active.version), current := active.version,
                          link := old(h.world.device.link)[active.slot := active.version])
    ensures old(h.Troubles()) <= h.Troubles() && (old(h.Troubles()) == h.Troubles() <==> o.Done?)
    ensures o.Done? ==> h.tick == old(h.tick) + 3
  {
    hide Failures, LawfulRun, Unheard, RunnerBefore, Checkpointed, Lagging, Danger, Owned, Consistent;
    o := h.InstallAssets(Of(active.version));
    if !o.Done? { return; }
    o := h.Replace(h.world.device.(link := h.world.device.link[active.slot := active.version]));
    if !o.Done? { return; }
    o := h.Replace(h.world.device.(current := active.version));
  }

  /** Brings the installation back to what `active_slot` says, from wherever an
      interrupted upgrade left it. */
  method Reconcile(h: Host, active: Active, wasRunning: bool) returns (o: Outcome)
    requires h.Good() && h.Alterable() && Checkpointed(h.world.jobs)
    requires h.world.device.active == Some(active)
    modifies h
    ensures h.Good() && h.Alterable() && h.world.jobs == old(h.world.jobs) && h.Before() == old(h.Before())
    ensures h.world.device.active == Some(active)
    ensures o.Done? ==> Settled(h.world.device) && RunnerUp(h.world.device) == wasRunning
    ensures old(h.Troubles()) <= h.Troubles()
    ensures o.Done? <==> old(h.Troubles()) == h.Troubles() && active.version in old(h.world.device.releases)
    ensures o.Done? ==> h.tick == old(h.tick) + (if wasRunning then 25 else 23)
    ensures o.Done? ==> h.world.device.evidence == old(h.world.device.evidence)
  {
    hide Failures, LawfulRun, Unheard, RunnerBefore, Checkpointed, Lagging, Danger, Owned, Consistent, Settled, RunnerUp;
    o := h.Verify(active.version);
    if !o.Done? { return; }
    o := h.Oracle();   // the identity and manifest of the committed Runner
    if !o.Done? { return; }
    o := Quiesce(h);
    if !o.Done? { return; }
    o := PointAt(h, active);
    if !o.Done? { return; }
    o := BringUp(h, active.slot);
    if !o.Done? { return; }
    o := Route(h, active.slot, active.version);
    if !o.Done? { return; }
    ghost var d := h.world.device;
    o := RestoreRunner(h, active, wasRunning);
    if o.Done? {
      Restored(d, active, wasRunning, h.world.device);
    }
  }
}
