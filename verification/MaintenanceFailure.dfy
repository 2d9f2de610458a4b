/** The executor under a given fate: the one way in which it leaves an installation
    without its services under a record that says nothing was touched. */
module MaintenanceFailure {
  import opened Basics
  import opened Maintenance
  import opened MaintenanceHost
  import opened MaintenanceForward
  import opened MaintenanceExecutor
  import opened MaintenanceService

  /** The sixth and the seventh operation report an error, the thirteenth loses the
      executor, all others succeed. */
  function RefusedTwice(n: nat): Fate {
    if n == 5 || n == 6 then Fate(Error, false, false)
    else if n == 12 then Fate(Crashed, false, false)
    else Fate(Done, false, false)
  }

  lemma RefusedTwiceIsUnlucky()
    ensures Unlucky(RefusedTwice, 0) && Smooth(RefusedTwice, 13, 5)
  {
  }

  lemma StagedIsOpen(h: Host, id: Id, job: Job)
    requires h.Good() && h.world.jobs.running == map[id := Parsed(job)] && job.operation.Upgrade? && job.status == Staging
    ensures Open(h, id)
  {
  }

  lemma ServicesAreLost(d: Device)
    ensures !RunnerUp(d.(running := {}))
    ensures Control(Effective(d).slot) in d.running || RunnerUp(d) ==> !Undisturbed(d, d.(running := {}))
  {
  }

  /** At the end of any run in which both writes were refused, the restore that the executor
      goes on with takes the services down under the old records, if it is cut off after its
      stops. */
  method RestoreUnheard(h: Host, previous: Active, baseline: Device, wasRunning: bool) returns (o: Outcome)
    requires h.Good() && h.Alterable() && BothRefused(h.run) && !Checkpointed(h.world.jobs)
    requires Baseline(baseline, previous) && h.world.device.active == Some(previous)
    requires h.world.device.releases == baseline.releases
    requires Smooth(h.fate, h.tick, 5) && CutOff(h.fate(h.tick + 5))
    modifies h
    ensures h.Good() && o.Crashed? && h.world.jobs == old(h.world.jobs) && !Danger(h.world.jobs)
    ensures !RunnerUp(h.world.device)
    ensures Control(previous.slot) in old(h.world.device.running) || RunnerUp(old(h.world.device)) ==>
              !Undisturbed(old(h.world.device), h.world.device)
  {
    ghost var d := h.world.device;
    o := RestorePrevious(h, previous, baseline, wasRunning);
    ServicesAreLost(d);
  }

  /** On any installation: the upgrade of a staged job whose StoppingServices and
      RestoringPrevious records are refused stops every unit and dies; the next run finds
      Staging, archives the job as a harmless failure, and nothing is started again. */
  method LoseServices(initial: World, id: Id, job: Job, version: Version) returns (h: Host)
    requires Invariant(initial, RunnerUp(initial.device)) && !initial.device.evidence
    requires initial.jobs.running == map[id := Parsed(job)] && job.id == id
    requires job.operation.Upgrade? && job.status == Staging && !job.Online() && job.targetVersion == Some(version)
    requires job.currentVersion < version && version in initial.device.releases && Upgradable(initial.device, job)
    ensures fresh(h) && h.Good() && h.origin == initial
    ensures h.world.jobs.running == map[]
    ensures id in h.world.jobs.completed && h.world.jobs.completed[id].status == Failed
    ensures h.world.device == initial.device.(running := {}) && !RunnerUp(h.world.device)
    ensures Control(Effective(initial.device).slot) in initial.device.running || RunnerUp(initial.device) ==>
              !Undisturbed(initial.device, h.world.device)
  {
    hide Failures, Settled, Undisturbed, RecoveredTo, Tractable, Prepared, Returned, Reverted, Failable, Upgraded;
    hide LawfulRun, Invariant, RunnerBefore, Begins, Consistent, Owned, Danger, Checkpointed;
    RefusedTwiceIsUnlucky();
    h := new Host(initial, RefusedTwice, _ => version);
    StagedIsOpen(h, id, job);
    var o, j := ExecuteMaintenance(h, id, job, version);
    assert h.world.jobs.running.Keys == {id};
    assert Preparatory(h.world.jobs.running[id], id);
    o := Recover(h);
    ServicesAreLost(initial.device);
  }
}
