/** One executor run from start to finish, and any number of runs with crashes,
    reboots and submissions in between. */
module MaintenanceService {
  import opened Basics
  import opened Maintenance
  import opened MaintenanceHost
  import opened MaintenanceUpgrade
  import opened MaintenanceForward
  import opened MaintenanceExecutor

  // ------------------------------------------------------------ the online owner

  /** All that is assumed of the online owner: it files jobs honestly, and when it
      lets go of a job the installation is consistent again. */
  predicate OwnerContract(b: World, a: World) {
    && Conserved(b.jobs, a.jobs) && a.jobs.Ids() == b.jobs.Ids()
    && Archived(b.jobs, a)
    && Forward(b.device.active, a.device.active)
    && Filed(a.jobs)
    && !Danger(a.jobs)
    && (Owned(a.jobs) || (Exclusive(a.device) && Consistent(a.device)))
    && (forall id | id in a.jobs.running && a.jobs.running[id].Parsed? ::
          var j := a.jobs.running[id].job;
          Truthful(j, a.device) && (j.Touching() || (j.operation.Upgrade? && j.status.Succeeded?) ==> j.previousRelease.Some?))
  }

  /** Any progress the owner's contract allows. */
  method OnlineProgress(h: Host) returns (o: Outcome)
    requires h.Good()
    modifies h
    ensures h.Good() && o == h.fate(old(h.tick)).outcome && h.tick == old(h.tick) + 1
    ensures h.Troubles() == old(h.Troubles()) + Bad(o)
    ensures h.run == old(h.run) || h.run == Step(old(h.run), OnlineOwner, h.world)
  {
    o := h.Oracle();
    var next: World := *;
    if OwnerContract(h.world, next) {
      h.Become(OnlineOwner, next);
    }
  }

  lemma MayHandOver(h: Host, id: Id, job: Job)
    requires Quiet(h, id) && job.Touching() && job.Online() && job.previousRelease.Some?
    ensures h.Permitted(OnlineOwner, World(h.world.device, Rewritten(h.world.jobs, id, job)))
  {
    QuietIsConsistent(h, id);
    var r := Rewritten(h.world.jobs, id, job);
    assert r.running.Keys == {id} && r.running[id].job == job;
    assert forall x | x in r.running :: x == id;
    assert Owned(r);
  }

  /** An online upgrade may start: no other is in progress, the active slot is the one
      the job was queued for, and its Runner is up. */
  predicate Transferable(d: Device, job: Job) {
    && !d.evidence
    && d.active.Some? && d.active.value.version == job.currentVersion && d.current == job.currentVersion
    && RunnerUp(d)
  }

  /** The record with which an online upgrade changes hands. */
  function Owning(job: Job, d: Device): Job {
    job.(previousRelease := Some(d.current), runnerWasRunning := Some(true), status := StartingCandidate)
  }

  /** The run ends with that record on disk, or with what its owner made of it. */
  predicate HandedOver(r: Run, id: Id, owned: Job) {
    && r.Step? && r.actor.OnlineOwner?
    && (|| r.world.jobs.running == map[id := Parsed(owned)]
        || (r.prior.Step? && r.prior.actor.OnlineOwner? && r.prior.world.jobs.running == map[id := Parsed(owned)]))
  }

  /** What is handed over says where the installation is and what its Runner does. */
  lemma OwnershipIsHonest(job: Job, d: Device)
    requires Transferable(d, job) && job.operation.Upgrade? && job.Online()
    ensures var owned := Owning(job, d);
            && owned.previousRelease == Some(Effective(d).version) && owned.runnerWasRunning == Some(RunnerUp(d))
            && owned.Touching() && owned.Online() && owned.id == job.id && owned.targetVersion == job.targetVersion
  {
  }

  /** Records ownership before anything is prepared, then leaves the job to its owner. */
  method ExecuteOnline(h: Host, id: Id, job: Job) returns (o: Outcome)
    requires Quiet(h, id) && job.operation.Upgrade? && job.Online()
    modifies h
    ensures h.Good() && old(h.Troubles()) <= h.Troubles()
    ensures if Transferable(old(h.world.device), job) && Smooth(h.fate, old(h.tick), 2)
            then && HandedOver(h.run, id, Owning(job, old(h.world.device)))
                 && o == h.fate(old(h.tick) + 2).outcome && h.tick == old(h.tick) + 3
            else h.world == old(h.world) && !o.Done?
    ensures old(h.Troubles()) == h.Troubles() ==> o == if Transferable(old(h.world.device), job) then Done else Error
    ensures o.Done? ==> old(h.Troubles()) == h.Troubles()
  {
    hide Failures, LawfulRun, Unheard, RunnerBefore, Checkpointed, Lagging, Danger, Owned, Consistent, Exclusive;
    QuietIsConsistent(h, id);
    o := EnsureMaintenanceAllowed(h);
    if !o.Done? { return; }
    var d := h.world.device;
    if !Transferable(d, job) { return Error; }
    MayHandOver(h, id, Owning(job, d));
    o := h.Oracle();
    if !o.Done? { return; }
    h.Become(OnlineOwner, World(h.world.device, Rewritten(h.world.jobs, id, Owning(job, d))));
    o := OnlineProgress(h);
  }

  // ------------------------------------------------------------ executing a job

  /** The upload has been unpacked, at most. */
  predicate Unpacked(b: Device, version: Version, a: Device) {
    a == b || a == b.(releases := b.releases + {version})
  }

  /** Unpacks the release and records which one the job is for. */
  method Unpack(h: Host, id: Id, job: Job, version: Version) returns (o: Outcome)
    requires Open(h, id) && job.operation.Upgrade? && job.status == Staging
    modifies h
    ensures h.Good() && (o.Crashed? || Open(h, id))
    ensures Unpacked(old(h.world.device), version, h.world.device)
    ensures o.Done? ==> version in h.world.device.releases && h.world.jobs.running == map[id := Parsed(job)]
    ensures old(h.Troubles()) <= h.Troubles() && (old(h.Troubles()) == h.Troubles() <==> o.Done?)
    ensures o.Done? ==> h.tick == old(h.tick) + 2
  {
    QuietIsConsistent(h, id);
    hide Failures, LawfulRun, Unheard, RunnerBefore, Checkpointed, Lagging, Danger, Owned;
    o := Prepare(h, id, h.world.device.(releases := h.world.device.releases + {version}));
    if !o.Done? { return; }
    o := Record(h, id, job);
  }

  /** Verifies and stages an upgrade; refuses one that carries no newer release. */
  method StageUpgrade(h: Host, id: Id, job: Job) returns (o: Outcome, j: Job)
    requires Open(h, id) && job.operation.Upgrade? && job.status.Preparing()
    modifies h
    ensures h.Good() && (o.Crashed? || Open(h, id))
    ensures Unpacked(old(h.world.device), h.uploads(id), h.world.device)
    ensures !o.Crashed? ==> j == job.(status := j.status, targetVersion := j.targetVersion) && j.status.Preparing()
    ensures o.Done? ==>
              && j == job.(status := Staging, targetVersion := Some(h.uploads(id)))
              && job.currentVersion < h.uploads(id) && h.uploads(id) in h.world.device.releases
    ensures h.tick == old(h.tick) + 3 ==> h.world.jobs.running == map[id := Parsed(job.(status := Verifying))]
    ensures h.tick == old(h.tick) + 5 ==> h.world.jobs.running == map[id := Parsed(job.(status := Staging))]
    ensures o.Done? ==> h.tick == old(h.tick) + 7 && old(h.Troubles()) == h.Troubles()
    ensures old(h.Troubles()) == h.Troubles() ==> h.world.jobs.running == map[id := Parsed(j)]
    ensures old(h.Troubles()) <= h.Troubles()
    ensures old(h.Troubles()) == h.Troubles() ==>
              if job.currentVersion < h.uploads(id)
              then o.Done?
              else o.Error? && j.status == Staging && h.world.device == old(h.world.device)
  {
    hide Failures, LawfulRun, Unheard, RunnerBefore, Checkpointed, Lagging, Danger, Owned, Consistent, Settled;
    j := job;
    o := h.Oracle();   // database, preflight and upload checks
    if !o.Done? { return; }
    j := job.(status := Verifying);
    o := Record(h, id, j);
    if !o.Done? { return; }
    o := h.Oracle();   // the archive's digest
    if !o.Done? { return; }
    j := job.(status := Staging);
    o := Record(h, id, j);
    if !o.Done? { return; }
    var version := h.uploads(id);
    o := h.Oracle();   // the upload's signature
    if !o.Done? { return; }
    if version <= job.currentVersion { return Error, j; }
    j := j.(targetVersion := Some(version));
    o := Unpack(h, id, j, version);
  }

  lemma UnpackedIsUndisturbed(b: Device, version: Version, m: Device, a: Device, job: Job)
    requires Unpacked(b, version, m)
    ensures QueuedFor(m, job) <==> QueuedFor(b, job)
    ensures Undisturbed(b, m)
    ensures Undisturbed(m, a) ==> Undisturbed(b, a)
    ensures Returned(m, a) ==> Returned(b, a)
  {
  }

  lemma UnpackedTransfers(b: Device, version: Version, m: Device, job: Job, j: Job)
    requires Unpacked(b, version, m) && j == job.(status := j.status, targetVersion := j.targetVersion)
    ensures Transferable(m, j) <==> Transferable(b, job)
    ensures Owning(j, m) == Owning(job.(targetVersion := j.targetVersion), b)
  {
  }

  lemma QueuedForVersion(d: Device, job: Job, j: Job)
    requires j.currentVersion == job.currentVersion
    ensures QueuedFor(d, j) == QueuedFor(d, job)
  {
  }

  /** An online job carries a newer release and the installation can take it. */
  predicate GoesOnline(b: Device, job: Job, upload: Version) {
    job.currentVersion < upload && Transferable(b, job)
  }

  /** Stages an upgrade, then runs it in place or hands it over. */
  method ExecuteUpgrade(h: Host, id: Id, job: Job) returns (o: Outcome, j: Job)
    requires Open(h, id) && job.operation.Upgrade? && job.status.Preparing()
    modifies h
    ensures h.Good()
    ensures o.Done? && !j.Online() ==> Upgraded(h, id, j)
    ensures o.Error? ==> j.Online() || Failable(h, id, j)
    ensures !o.Crashed? ==> j.operation.Upgrade? && j.mode == job.mode
    ensures o.Done? && !j.Online() ==> job.currentVersion < h.uploads(id) == Effective(h.world.device).version
    ensures old(h.Troubles()) <= h.Troubles()
    ensures old(h.Troubles()) == h.Troubles() && !job.Online() ==>
              && (if job.currentVersion < h.uploads(id) && QueuedFor(old(h.world.device), job)
                  then o.Done?
                  else o.Error? && j.status == Staging)
              && (h.uploads(id) <= job.currentVersion ==> h.world.device == old(h.world.device))
    ensures old(h.Troubles()) == h.Troubles() && job.Online() ==>
              if GoesOnline(old(h.world.device), job, h.uploads(id))
              then o.Done? && HandedOver(h.run, id, Owning(job.(targetVersion := Some(h.uploads(id))), old(h.world.device)))
              else && o.Error? && j.status == Staging && h.world.jobs.running == map[id := Parsed(j)]
                   && Unpacked(old(h.world.device), h.uploads(id), h.world.device)
    ensures o.Done? ==> old(h.Troubles()) == h.Troubles()
    ensures o.Error? && !job.Online() && h.Troubles() <= old(h.Troubles()) + 1 ==>
              || (j.status.Preparing() && Undisturbed(old(h.world.device), h.world.device))
              || (Reverted(h, id, j) && Returned(old(h.world.device), h.world.device))
  {
    hide Failures, LawfulRun, Unheard, RunnerBefore, Checkpointed, Lagging, Danger, Owned, Consistent, Settled;
    hide Undisturbed, Returned, QueuedFor, Reverted;
    o, j := StageUpgrade(h, id, job);
    ghost var middle := h.world.device;
    UnpackedIsUndisturbed(old(h.world.device), h.uploads(id), middle, middle, job);
    if !o.Done? { return; }
    if j.Online() {
      UnpackedTransfers(old(h.world.device), h.uploads(id), middle, job, j);
      hide Transferable, Owning, HandedOver;
      o := ExecuteOnline(h, id, j);
    } else {
      ghost var staged := j;
      QueuedForVersion(middle, job, staged);
      o, j := ExecuteMaintenance(h, id, j, h.uploads(id));
      UnpackedIsUndisturbed(old(h.world.device), h.uploads(id), middle, h.world.device, job);
    }
  }

  lemma MaySucceed(h: Host, id: Id, job: Job)
    requires Upgraded(h, id, job)
    ensures h.Permitted(Maintenance, World(h.world.device, Rewritten(h.world.jobs, id, job.(status := Succeeded))))
  {
    RewrittenDanger(h.world.jobs, id, job.(status := Succeeded));
    assert forall x | x in h.world.jobs.running :: x == id;
  }

  /** A committed upgrade is recorded as succeeded and archived. */
  method FinishUpgrade(h: Host, id: Id, job: Job) returns (o: Outcome)
    requires Upgraded(h, id, job)
    modifies h
    ensures h.Good() && h.world.device == old(h.world.device)
    ensures o.Done? ==>
              && h.world.jobs.running == map[]
              && h.world.jobs.completed == old(h.world.jobs.completed)[id := job.(status := Succeeded).Persisted()]
    ensures old(h.Troubles()) <= h.Troubles() && (old(h.Troubles()) == h.Troubles() <==> o.Done?)
    ensures o.Done? ==> h.tick == old(h.tick) + 4
  {
    MaySucceed(h, id, job);
    o := h.Persist(id, job.(status := Succeeded));
    if !o.Done? { return; }
    o := CompleteJob(h, id, job.(status := Succeeded));
  }

  /** A deletion is recorded as succeeded and archived. */
  method FinishDeletion(h: Host, id: Id, job: Job) returns (o: Outcome)
    requires Quiet(h, id) && !job.operation.Upgrade?
    modifies h
    ensures h.Good() && h.world.device == old(h.world.device)
    ensures o.Done? ==>
              && h.world.jobs.running == map[]
              && h.world.jobs.completed == old(h.world.jobs.completed)[id := job.(status := Succeeded).Persisted()]
    ensures old(h.Troubles()) <= h.Troubles() && (old(h.Troubles()) == h.Troubles() <==> o.Done?)
    ensures o.Done? ==> h.tick == old(h.tick) + 4
  {
    o := Record(h, id, job.(status := Succeeded));
    if !o.Done? { return; }
    o := CompleteJob(h, id, job.(status := Succeeded));
  }

  // ------------------------------------------------------------------ recovery

  lemma SucceededHasPrevious(h: Host, id: Id)
    requires h.Good() && id in h.world.jobs.running && h.world.jobs.running[id].Parsed?
    ensures var j := h.world.jobs.running[id].job; j.operation.Upgrade? && j.status.Succeeded? ==> j.previousRelease.Some?
  {
  }

  /** Installs the committed release's CLI next to a terminal record. */
  method SynchronizeCli(h: Host, id: Id, job: Job) returns (o: Outcome)
    requires Terminated(h, id, job) && h.world.jobs.running[id] == Parsed(job.Persisted())
    modifies h
    ensures Terminated(h, id, job) && h.world.jobs == old(h.world.jobs)
    ensures h.world.device == old(h.world.device).(cli := h.world.device.cli)
    ensures o.Done? ==> h.world.device.cli == Effective(h.world.device).version
    ensures old(h.Troubles()) <= h.Troubles() && (old(h.Troubles()) == h.Troubles() <==> o.Done?)
    ensures h.fate(old(h.tick)).outcome.Error? ==> o.Error? && h.world == old(h.world) && h.tick == old(h.tick) + 1
    ensures o.Done? ==> h.tick == old(h.tick) + 2
  {
    o := h.Verify(Effective(h.world.device).version);
    if !o.Done? { return; }
    MayReinstallCli(h, id, job);
    o := h.Write(h.world.device.(cli := Effective(h.world.device).version));
  }

  /** An upgrade that went beyond its checkpoint has to have its CLI put right. */
  predicate PastCheckpoint(job: Job) {
    job.operation.Upgrade? && job.previousRelease.Some?
  }

  /** A terminal record left in `running`: the CLI is synchronized and it is archived. */
  method ResumeTerminal(h: Host, id: Id, job: Job) returns (o: Outcome)
    requires h.Good() && id in h.world.jobs.running && h.world.jobs.running[id] == Parsed(job) && job.status.Terminal()
    modifies h
    ensures h.Good()
    ensures o.Done? ==>
              && h.world.jobs.running == map[] && h.world.jobs.completed == old(h.world.jobs.completed)[id := job.Persisted()]
              && h.world.jobs.queued == old(h.world.jobs.queued)
              && (job.operation.Upgrade? && job.previousRelease.Some? ==> h.world.device.cli == Effective(h.world.device).version)
              && (!job.operation.Upgrade? || job.previousRelease.None? ==> h.world.device == old(h.world.device))
              && h.world.device == if PastCheckpoint(job)
                                   then old(h.world.device).(cli := Effective(old(h.world.device)).version)
                                   else old(h.world.device)
    ensures old(h.Troubles()) <= h.Troubles()
    ensures o.Done? <==> old(h.Troubles()) == h.Troubles() && (PastCheckpoint(job) ==> old(h.world.device.active).Some?)
    ensures o.Done? ==> h.tick == old(h.tick) + (if PastCheckpoint(job) then 6 else 3)
  {
    hide Failures, LawfulRun, Unheard, RunnerBefore, Checkpointed, Lagging, Danger, Owned, Consistent;
    if PastCheckpoint(job) {
      MayPersistAgain(h, id, job);
      o := h.Persist(id, job);
      if !o.Done? { return; }
      if h.world.device.active.None? { return Error; }
      o := SynchronizeCli(h, id, job);
      if !o.Done? { return; }
    } else {
      SucceededHasPrevious(h, id);
    }
    o := CompleteJob(h, id, job);
  }

  /** An upgrade that had not touched anything is only marked Failed. */
  method DiscardPrepared(h: Host, id: Id, job: Job) returns (o: Outcome)
    requires h.Good() && id in h.world.jobs.running && h.world.jobs.running[id] == Parsed(job)
    requires !job.Touching() && !job.status.Terminal()
    modifies h
    ensures h.Good() && h.world.device == old(h.world.device)
    ensures o.Done? ==>
              && h.world.jobs.running == map[]
              && h.world.jobs.completed == old(h.world.jobs.completed)[id := job.(status := Failed).Persisted()]
    ensures o.Done? ==> h.world.jobs.queued == old(h.world.jobs.queued) && h.world.device.evidence == old(h.world.device.evidence)
    ensures Smooth(h.fate, old(h.tick), 4) ==> o.Done?
    ensures old(h.Troubles()) <= h.Troubles() && (old(h.Troubles()) == h.Troubles() <==> o.Done?)
    ensures o.Done? ==> h.tick == old(h.tick) + 4
  {
    o := Record(h, id, job.(status := Failed));
    if !o.Done? { return; }
    o := CompleteJob(h, id, job.(status := Failed));
  }

  lemma MayCheckpoint(h: Host, id: Id, job: Job)
    requires h.Good() && id in h.world.jobs.running && h.world.jobs.running[id] == Parsed(job)
    requires job.Touching() && !job.Online() && job.runnerWasRunning.None?
    ensures h.Permitted(Maintenance, World(h.world.device, Rewritten(h.world.jobs, id, job.(runnerWasRunning := Some(RunnerUp(h.world.device))))))
  {
    RewrittenDanger(h.world.jobs, id, job.(runnerWasRunning := Some(RunnerUp(h.world.device))));
    assert forall x | x in h.world.jobs.running :: x == id;
    assert Danger(h.world.jobs) && !Checkpointed(h.world.jobs);
  }

  /** Makes the Runner checkpoint durable before recovery stops anything. */
  method Checkpoint(h: Host, id: Id, job: Job) returns (o: Outcome, j: Job)
    requires h.Good() && id in h.world.jobs.running && h.world.jobs.running[id] == Parsed(job)
    requires job.Touching() && !job.Online()
    modifies h
    ensures h.Good() && h.world.device == old(h.world.device)
    ensures h.world.jobs.queued == old(h.world.jobs.queued)
    ensures o.Done? ==> Journaled(h, id, j) && j == job.(runnerWasRunning := j.runnerWasRunning)
    ensures old(h.Troubles()) <= h.Troubles() && (old(h.Troubles()) == h.Troubles() <==> o.Done?)
    ensures o.Done? ==>
              j.runnerWasRunning == if job.runnerWasRunning.None? then Some(RunnerUp(h.world.device)) else job.runnerWasRunning
    ensures o.Done? ==> h.tick == old(h.tick) + (if job.runnerWasRunning.None? then 1 else 0)
  {
    j := job;
    o := Done;
    if job.runnerWasRunning.None? {
      j := job.(runnerWasRunning := Some(RunnerUp(h.world.device)));
      MayCheckpoint(h, id, job);
      RewrittenDanger(h.world.jobs, id, j);
      o := h.Persist(id, j);
    }
  }

  /** What recovery decides about an interrupted upgrade. */
  function Verdict(job: Job, active: Active): Status {
    if job.targetVersion == Some(active.version) && (job.status.SwitchingTraffic? || job.status.DrainingPrevious?)
    then Succeeded else Failed
  }

  /** The interrupted upgrade had got past its commit point. */
  predicate Committed(job: Job, d: Device) {
    && (job.status.SwitchingTraffic? || job.status.DrainingPrevious?)
    && d.active.Some? && job.targetVersion == Some(d.active.value.version)
  }

  lemma MayConclude(h: Host, id: Id, job: Job)
    requires Journaled(h, id, job) && Settled(h.world.device) && RunnerUp(h.world.device) == h.Before()
    ensures h.Permitted(Maintenance, World(h.world.device, Rewritten(h.world.jobs, id, job.(status := Verdict(job, Effective(h.world.device))))))
  {
    RewrittenDanger(h.world.jobs, id, job.(status := Verdict(job, Effective(h.world.device))));
    assert forall x | x in h.world.jobs.running :: x == id;
  }

  /** Records the verdict; a CLI that cannot be synchronized turns it into Failed. */
  method ConcludeRecovery(h: Host, id: Id, job: Job) returns (o: Outcome)
    requires h.Good() && id in h.world.jobs.running && job.status.Terminal()
    requires h.Permitted(Maintenance, World(h.world.device, Rewritten(h.world.jobs, id, job)))
    modifies h
    ensures h.Good() && h.world.device == old(h.world.device).(cli := h.world.device.cli)
    ensures o.Done? ==> h.world.jobs.queued == old(h.world.jobs.queued)
    ensures h.fate(old(h.tick)).outcome.Done? && h.fate(old(h.tick) + 1).outcome.Error? && h.fate(old(h.tick) + 2).outcome.Done? ==>
              o.Error? && h.world.jobs.running == map[id := Parsed(job.(status := Failed).Persisted())]
    ensures o.Done? ==>
              h.world.jobs.running == map[] && id in h.world.jobs.completed && h.world.jobs.completed[id] == job.Persisted()
    ensures old(h.Troubles()) <= h.Troubles() && (old(h.Troubles()) == h.Troubles() <==> o.Done?)
    ensures o.Done? ==> h.tick == old(h.tick) + 6
  {
    hide Failures, LawfulRun, Unheard, RunnerBefore, Checkpointed, Lagging, Danger, Owned, Consistent, Settled, RunnerUp;
    o := h.Persist(id, job);
    if !o.Done? { return; }
    o := SynchronizeCli(h, id, job);
    if o.Crashed? { return; }
    if o.Error? {
      var ignored := Record(h, id, job.(status := Failed));
      return if ignored.Crashed? then Crashed else Error;
    }
    o := CompleteJob(h, id, job);
  }

  lemma CliSettlesNothing(b: Device, a: Device)
    requires a == b.(cli := a.cli)
    ensures Settled(a) == Settled(b)
  {
  }

  /** There is a commit record, and the release it names is installed. */
  predicate Startable(d: Device) {
    d.active.Some? && d.active.value.version in d.releases
  }

  /** Puts the services back, records the verdict, synchronizes the CLI, archives. */
  method RecoverUpgrade(h: Host, id: Id, job: Job) returns (o: Outcome)
    requires h.Good() && id in h.world.jobs.running && h.world.jobs.running[id] == Parsed(job)
    requires job.Touching() && !job.Online()
    modifies h
    ensures h.Good() && h.world.device.active == old(h.world.device.active)
    ensures o.Done? ==>
              && h.world.jobs.running == map[] && id in h.world.jobs.completed
              && h.world.jobs.completed[id].status == if Committed(job, old(h.world.device)) then Succeeded else Failed
    ensures old(h.Troubles()) <= h.Troubles()
    ensures o.Done? <==> old(h.Troubles()) == h.Troubles() && old(Startable(h.world.device))
    ensures o.Done? ==> Settled(h.world.device)
    ensures o.Done? ==> h.world.jobs.queued == old(h.world.jobs.queued) && h.world.device.evidence == old(h.world.device.evidence)
  {
    hide Failures, LawfulRun, Unheard, RunnerBefore, Checkpointed, Lagging, Danger, Owned, Consistent, Settled, RunnerUp;
    if h.world.device.active.None? { return Error; }
    var active := h.world.device.active.value;
    var j;
    o, j := Checkpoint(h, id, job);
    if !o.Done? { return; }
    JournaledIsAlterable(h, id, j);
    o := Reconcile(h, active, j.runnerWasRunning.value);
    if !o.Done? { return; }
    MayConclude(h, id, j);
    ghost var d := h.world.device;
    o := ConcludeRecovery(h, id, j.(status := Verdict(j, active)));
    CliSettlesNothing(d, h.world.device);
  }

  /** Unreadable, or under another job's name. */
  predicate Unusable(file: File, id: Id) {
    file.Corrupt? || file.job.id != id
  }

  /** A job that had touched nothing when it was interrupted. */
  predicate Preparatory(file: File, id: Id) {
    file.Parsed? && file.job.id == id && !file.job.Touching() && !file.job.status.Terminal()
  }

  lemma OwnedIsTheRunningJob(h: Host, id: Id)
    requires h.Good() && id in h.world.jobs.running
    ensures Owned(h.world.jobs) <==>
              h.world.jobs.running[id].Parsed? && h.world.jobs.running[id].job.Touching() && h.world.jobs.running[id].job.Online()
  {
    assert forall x | x in h.world.jobs.running :: x == id;
  }

  /** Handles one file of the running directory; anything unusable is kept. */
  method RecoverFile(h: Host, id: Id) returns (o: Outcome)
    requires h.Good() && id in h.world.jobs.running
    modifies h
    ensures h.Good()
    ensures o.Done? ==> h.world.jobs.running == map[] && id in h.world.jobs.completed
    ensures Owned(old(h.world.jobs)) ==> h.world == old(h.world) && o.Error?
    ensures Unusable(old(h.world.jobs.running[id]), id) ==> h.world == old(h.world) && o.Error?
    ensures Preparatory(old(h.world.jobs.running[id]), id) ==>
              && h.world.device == old(h.world.device)
              && (o.Done? ==> id in h.world.jobs.completed && h.world.jobs.completed[id].status == Failed)
              && (Smooth(h.fate, old(h.tick), 4) ==> o.Done?)
    ensures old(h.Troubles()) <= h.Troubles() && (o.Done? ==> old(h.Troubles()) == h.Troubles())
    ensures old(h.Troubles()) == h.Troubles() && !Owned(old(h.world.jobs)) && !Unusable(old(h.world.jobs.running[id]), id) ==>
              (old(Startable(h.world.device)) ==> o.Done?)
    ensures o.Done? ==> h.world.jobs.queued == old(h.world.jobs.queued) && h.world.device.evidence == old(h.world.device.evidence)
    ensures o.Done? && old(h.world.jobs.running[id]).Parsed? && old(h.world.jobs.running[id]).job.Touching() ==>
              && Settled(h.world.device) && h.world.device.active == old(h.world.device.active)
              && h.world.jobs.completed[id].status == if Committed(old(h.world.jobs.running[id]).job, old(h.world.device))
                                                      then Succeeded
                                                      else Failed
  {
    hide Failures, LawfulRun, Unheard, RunnerBefore, Checkpointed, Lagging, Danger;
    OwnedIsTheRunningJob(h, id);
    match h.world.jobs.running[id] {
      case Corrupt => return Error;
      case Parsed(job) =>
        if job.id != id { return Error; }
        if job.status.Terminal() {
          o := ResumeTerminal(h, id, job);
        } else if !job.Touching() {
          o := DiscardPrepared(h, id, job);
        } else if job.Online() {
          return Error;
        } else {
          o := RecoverUpgrade(h, id, job);
        }
    }
  }

  /** The first name in a directory listing. */
  method Least(ids: set<Id>) returns (least: Id)
    requires ids != {}
    ensures least in ids && forall x | x in ids :: least <= x
  {
    least :| least in ids;
    var rest := ids;
    while rest != {}
      invariant least in ids && rest <= ids
      invariant forall x | x in ids && x !in rest :: least <= x
    {
      var x :| x in rest;
      if x < least { least := x; }
      rest := rest - {x};
    }
  }

  /** Nothing but a failing operation keeps recovery from what is in `running`. */
  predicate Tractable(w: World) {
    && !w.device.evidence && !Owned(w.jobs)
    && (w.jobs.running != map[] ==> Startable(w.device))
    && forall id | id in w.jobs.running :: !Unusable(w.jobs.running[id], id)
  }

  /** How recovering the one file of `running` ends. */
  predicate Recovered(b: World, id: Id, a: World) {
    && a.jobs.running == map[] && a.jobs.queued == b.jobs.queued && a.device.evidence == b.device.evidence
    && id in b.jobs.running && !Owned(b.jobs) && !Unusable(b.jobs.running[id], id)
    && id in a.jobs.completed
    && (Preparatory(b.jobs.running[id], id) ==> a.device == b.device && a.jobs.completed[id].status == Failed)
    && (b.jobs.running[id].job.Touching() ==>
          && Settled(a.device) && a.device.active == b.device.active
          && a.jobs.completed[id].status == if Committed(b.jobs.running[id].job, b.device) then Succeeded else Failed)
  }

  /** Nothing was running, or it has been recovered. */
  predicate RecoveredTo(b: World, a: World) {
    if b.jobs.running == map[] then a == b else exists id | id in b.jobs.running :: Recovered(b, id, a)
  }

  lemma OneRuns(h: Host)
    requires h.Good()
    ensures forall x, y | x in h.world.jobs.running && y in h.world.jobs.running :: x == y
    ensures Owned(h.world.jobs) ==> h.world.jobs.running != map[]
  {
  }

  /** Recovers every interrupted job in file-name order, or stops at the first that
      cannot be; success empties the running directory. */
  method Recover(h: Host) returns (o: Outcome)
    requires h.Good()
    modifies h
    ensures h.Good()
    ensures o.Done? ==> h.world.jobs.running == map[]
    ensures Owned(old(h.world.jobs)) || old(h.world.device.evidence) ==> h.world == old(h.world) && !o.Done?
    ensures (exists id :: id in old(h.world.jobs.running) && Unusable(old(h.world.jobs.running)[id], id)) ==>
              h.world == old(h.world) && !o.Done?
    ensures forall id | old(h.world.jobs.running).Keys == {id} && Preparatory(old(h.world.jobs.running)[id], id) ::
              && h.world.device == old(h.world.device)
              && (o.Done? ==> id in h.world.jobs.completed && h.world.jobs.completed[id].status == Failed)
              && (Smooth(h.fate, old(h.tick), 5) && !old(h.world.device.evidence) ==> o.Done?)
    ensures old(h.Troubles()) <= h.Troubles() && (o.Done? ==> old(h.Troubles()) == h.Troubles())
    ensures old(h.Troubles()) == h.Troubles() && Tractable(old(h.world)) ==> o.Done?
    ensures o.Done? ==> RecoveredTo(old(h.world), h.world)
    ensures old(h.world.jobs.running) == map[] ==> h.world == old(h.world)
  {
    hide Failures, LawfulRun, Unheard, RunnerBefore, Checkpointed, Lagging, Danger, Consistent, Owned, Startable;
    hide Touched, Exclusive;
    OneRuns(h);
    o := EnsureMaintenanceAllowed(h);
    if !o.Done? { return; }
    while h.world.jobs.running != map[]
      invariant h.Good()
      invariant (h.world == old(h.world) && h.tick == old(h.tick) + 1) || exists id :: Recovered(old(h.world), id, h.world)
      invariant h.Troubles() == old(h.Troubles())
      decreases h.world.jobs.running.Keys
    {
      assert h.world.jobs.running.Keys != {};
      var id := Least(h.world.jobs.running.Keys);
      o := RecoverFile(h, id);
      if !o.Done? { return; }
      assert Recovered(old(h.world), id, h.world);
    }
    o := Done;
  }

  // ------------------------------------------------------------------ claiming

  function Claimed(jobs: Jobs, id: Id): Jobs
    requires id in jobs.queued
  {
    jobs.(queued := jobs.queued - {id}, running := jobs.running[id := jobs.queued[id]])
  }

  lemma ClaimedJobs(jobs: Jobs, id: Id)
    requires Filed(jobs) && jobs.running == map[] && id in jobs.queued
    ensures var c := Claimed(jobs, id);
            && c.running == map[id := jobs.queued[id]] && c.Ids() == jobs.Ids() && Filed(c)
            && !Owned(c) && !Danger(c) && !Checkpointed(c)
            && Conserved(jobs, c) && Advances(jobs, c) && Filing(jobs, c)
  {
    var c := Claimed(jobs, id);
    assert c.running == map[id := jobs.queued[id]];
    assert forall x | x in c.running :: x == id;
    assert c.Ids() == jobs.Ids();
  }

  lemma MayClaim(h: Host, id: Id)
    requires h.Good() && h.world.jobs.running == map[] && id in h.world.jobs.queued
    ensures h.Permitted(Maintenance, World(h.world.device, Claimed(h.world.jobs, id)))
  {
    var jobs := h.world.jobs;
    ClaimedJobs(jobs, id);
    assert !Owned(jobs) && !Danger(jobs) && !Checkpointed(jobs);
    assert jobs.queued[id].Parsed? ==> jobs.queued[id].job.status == Queued;
    hide Consistent, Exclusive, Filed, Owned, Danger, Checkpointed, Conserved, Advances, Filing;
  }

  predicate First(queued: map<Id, File>, id: Id) {
    id in queued && forall x | x in queued :: id <= x
  }

  lemma FirstIsLeast(queued: map<Id, File>, id: Id)
    requires id in queued && forall x | x in queued :: id <= x
    ensures forall y | First(queued, y) :: y == id
  {
  }

  lemma QueuedIsQueued(h: Host)
    requires h.Good()
    ensures forall id | id in h.world.jobs.queued && h.world.jobs.queued[id].Parsed? :: h.world.jobs.queued[id].job.status == Queued
    ensures forall id | First(h.world.jobs.queued, id) :: h.world.jobs.queued != map[]
  {
  }

  /** Moves the first queued file into the empty running directory and reads it. */
  method Claim(h: Host) returns (o: Outcome, claimed: Option<Job>)
    requires h.Good() && h.world.jobs.running == map[]
    modifies h
    ensures h.Good() && h.world.device == old(h.world.device) && h.world.jobs.completed == old(h.world.jobs.completed)
    ensures o.Done? && claimed.None? ==> h.world == old(h.world) && h.world.jobs.queued == map[]
    ensures o.Done? && claimed.Some? ==>
              && claimed.value.status == Queued
              && claimed.value.id in old(h.world.jobs.queued)
              && (forall x | x in old(h.world.jobs.queued) :: claimed.value.id <= x)
              && h.world.jobs.running == map[claimed.value.id := Parsed(claimed.value)]
              && h.world.jobs.queued == old(h.world.jobs.queued) - {claimed.value.id}
    ensures old(h.Troubles()) <= h.Troubles()
    ensures forall id | First(old(h.world.jobs.queued), id) ::
              var f, file := h.fate(old(h.tick)), old(h.world.jobs.queued)[id];
              && h.world.jobs == (if f.outcome.Done? || (f.outcome.Crashed? && f.effect)
                                  then Claimed(old(h.world.jobs), id)
                                  else old(h.world.jobs))
              && o == (if f.outcome.Done? && Unusable(file, id) then Error else f.outcome)
              && claimed == (if o.Done? then Some(file.job) else None)
              && h.Troubles() == old(h.Troubles()) + Bad(f.outcome)
  {
    QueuedIsQueued(h);
    hide Failures, LawfulRun, Unheard, RunnerBefore, Lawful, Invariant, First;
    claimed := None;
    if h.world.jobs.queued == map[] { return Done, None; }
    assert h.world.jobs.queued.Keys != {};
    var id := Least(h.world.jobs.queued.Keys);
    FirstIsLeast(h.world.jobs.queued, id);
    var f := h.Draw();
    o := f.outcome;
    if o.Error? || (o.Crashed? && !f.effect) { return; }
    MayClaim(h, id);
    h.Become(Maintenance, World(h.world.device, Claimed(h.world.jobs, id)));
    if o.Crashed? { return; }
    var file := h.world.jobs.running[id];
    if file.Corrupt? || file.job.id != id || file.job.status != Queued { return Error, None; }
    claimed := Some(file.job);
  }

  // ----------------------------------------------------------------- whole runs

  /** What an untroubled run makes of a job: an upgrade the installation is ready for
      commits the newer release it carries, and changes nothing if it carries none; a
      deletion succeeds exactly if the release may go. */
  predicate Served(b: Device, job: Job, upload: Version, a: World) {
    && a.jobs.running == map[] && job.id in a.jobs.completed
    && var status := a.jobs.completed[job.id].status;
       match job.operation
       case Upgrade =>
         if upload <= job.currentVersion then status == Failed && a.device == b
         else if QueuedFor(b, job) then status == Succeeded && Effective(a.device).version == upload
         else status == Failed
       case DeleteVersion(version) => status == if Deletable(b, job, version) then Succeeded else Failed
  }

  /** How an upgrade may be archived after a single failure: the new release is up, or the old
      one is, undisturbed or brought back, and the record says which. */
  predicate ClosedWell(b: Device, job: Job, upload: Version, a: World) {
    && a.jobs.running == map[] && job.id in a.jobs.completed
    && var status := a.jobs.completed[job.id].status;
       || (status == Succeeded && Settled(a.device) && Effective(a.device).version == upload)
       || (status == Failed && (Undisturbed(b, a.device) || Returned(b, a.device)))
  }

  /** Executes a claimed job and files its end.  An upgrade that fails is archived as Failed with
      the previous release up, unless an operation after the failure fails as well. */
  method Execute(h: Host, job: Job) returns (o: Outcome)
    requires h.Good() && h.world.jobs.running == map[job.id := Parsed(job)] && job.status == Queued
    modifies h
    ensures h.Good()
    ensures old(h.Troubles()) <= h.Troubles()
    ensures old(h.Troubles()) == h.Troubles() && !old(h.world.device.evidence) && !job.Online() ==>
              o.Done? && Served(old(h.world.device), job, h.uploads(job.id), h.world)
    ensures old(h.Troubles()) == h.Troubles() && !old(h.world.device.evidence) && job.operation.Upgrade? && job.Online() ==>
              && o.Done?
              && if GoesOnline(old(h.world.device), job, h.uploads(job.id))
                 then HandedOver(h.run, job.id, Owning(job.(targetVersion := Some(h.uploads(job.id))), old(h.world.device)))
                 else && h.world.jobs.running == map[] && job.id in h.world.jobs.completed && h.world.jobs.completed[job.id].status == Failed
                      && Unpacked(old(h.world.device), h.uploads(job.id), h.world.device)
    ensures job.operation.Upgrade? && !job.Online() && !old(h.world.device.evidence) && h.Troubles() <= old(h.Troubles()) + 1 ==>
              && (o.Done? ==> ClosedWell(old(h.world.device), job, h.uploads(job.id), h.world))
              && (o.Error? ==> Undisturbed(old(h.world.device), h.world.device)
                               || (Settled(h.world.device) && Effective(h.world.device).version == h.uploads(job.id)))
  {
    hide Failures, LawfulRun, Unheard, RunnerBefore, Checkpointed, Lagging, Danger, Owned, Consistent, Settled;
    hide GoesOnline, HandedOver, Owning;
    var j;
    match job.operation {
      case Upgrade =>
        o, j := ExecuteUpgrade(h, job.id, job);
        if o.Done? && !j.Online() {
          o := FinishUpgrade(h, job.id, j);
        } else if o.Error? {
          o := FinishFailed(h, job.id, j);
        }
      case DeleteVersion(version) =>
        o, j := DeleteRelease(h, job.id, job, version);
        if o.Done? {
          o := FinishDeletion(h, job.id, j);
        } else if o.Error? {
          o := FinishFailed(h, job.id, j);
        }
    }
  }

  lemma KeepsQueue(b: World, a: World)
    requires RecoveredTo(b, a)
    ensures a.jobs.queued == b.jobs.queued && a.device.evidence == b.device.evidence
  {
  }

  /** One run of the executor under its lock: what was interrupted is recovered, which leaves
      `middle`, and then the first queued job is served. */
  method RunNext(h: Host) returns (o: Outcome, ghost middle: World)
    requires h.Good()
    modifies h
    ensures h.Good()
    ensures Owned(old(h.world.jobs)) && !old(h.world.device.evidence) ==> h.world == old(h.world)
    ensures old(h.Troubles()) == h.Troubles() && Tractable(old(h.world)) ==>
              && RecoveredTo(old(h.world), middle)
              && forall id | First(old(h.world.jobs.queued), id) && !Unusable(old(h.world.jobs.queued)[id], id) && !old(h.world.jobs.queued)[id].job.Online() ::
                   o.Done? && Served(middle.device, old(h.world.jobs.queued)[id].job, h.uploads(id), h.world)
  {
    hide Failures, LawfulRun, Unheard, RunnerBefore, Checkpointed, Lagging, Danger, Owned, Consistent, Settled, Served, Recovered;
    OneRuns(h);
    middle := h.world;
    if h.world.device.evidence {
      o := OnlineProgress(h);
      return;
    }
    o := Recover(h);
    middle := h.world;
    if !o.Done? { return; }
    KeepsQueue(old(h.world), middle);
    var claimed;
    o, claimed := Claim(h);
    if !o.Done? || claimed.None? { return; }
    o := Execute(h, claimed.value);
  }

  /** A job file appears in the queue under a name that was never used. */
  method Submit(h: Host, id: Id, file: File)
    requires h.Good() && id !in h.world.jobs.Ids() && (file.Parsed? ==> file.job.status == Queued)
    modifies h
    ensures h.Good() && h.world == World(old(h.world.device), old(h.world.jobs).(queued := old(h.world.jobs.queued)[id := file]))
  {
    h.Become(Submitter, World(h.world.device, h.world.jobs.(queued := h.world.jobs.queued[id := file])));
  }

  /** The machine restarts: exactly the enabled units come up. */
  method Restart(h: Host)
    requires h.Good()
    modifies h
    ensures h.Good() && h.world.jobs == old(h.world.jobs)
    ensures h.world.device == old(h.world.device).(running := old(h.world.device.enabled), proxy := old(h.world.device.upstreams))
  {
    h.Become(Reboot, World(h.world.device.(running := h.world.device.enabled, proxy := h.world.device.upstreams), h.world.jobs));
  }

  datatype Event = Execute | Enqueue(id: Id, file: File) | PowerCycle

  /** How one event changes the installation: a submission that may enter the queue does,
      a restart brings up what is enabled, and nothing but a restart or its owner touches a
      job that has been handed over. */
  predicate Occurs(b: World, event: Event, a: World) {
    match event
    case Execute => Owned(b.jobs) && !b.device.evidence ==> a == b
    case PowerCycle => a == World(b.device.(running := b.device.enabled, proxy := b.device.upstreams), b.jobs)
    case Enqueue(id, file) =>
      if id !in b.jobs.Ids() && (file.Parsed? ==> file.job.status == Queued)
      then a == World(b.device, b.jobs.(queued := b.jobs.queued[id := file]))
      else a == b
  }

  /** Any schedule of executor runs, submissions and restarts, whatever becomes of each
      single operation, is a lawful run of the installation. */
  method Operate(initial: World, fate: nat -> Fate, uploads: Id -> Version, schedule: seq<Event>)
    returns (h: Host, ghost worlds: seq<World>)
    requires Invariant(initial, RunnerUp(initial.device))
    ensures fresh(h) && h.Good() && h.origin == initial
    ensures |worlds| == |schedule| + 1 && worlds[0] == initial && worlds[|schedule|] == h.world
    ensures forall k | 0 <= k < |schedule| :: Occurs(worlds[k], schedule[k], worlds[k + 1])
  {
    hide Invariant, LawfulRun, Failures, Owned, RecoveredTo, Tractable, Served;
    h := new Host(initial, fate, uploads);
    worlds := [initial];
    for i := 0 to |schedule|
      invariant fresh(h) && h.Good() && h.origin == initial
      invariant |worlds| == i + 1 && worlds[0] == initial && worlds[i] == h.world
      invariant forall k | 0 <= k < i :: Occurs(worlds[k], schedule[k], worlds[k + 1])
    {
      var event := schedule[i];
      match event {
        case Execute => var _, _ := RunNext(h);
        case PowerCycle => Restart(h);
        case Enqueue(id, file) =>
          if id !in h.world.jobs.Ids() && (file.Parsed? ==> file.job.status == Queued) {
            Submit(h, id, file);
          }
      }
      worlds := worlds + [h.world];
    }
  }
}
