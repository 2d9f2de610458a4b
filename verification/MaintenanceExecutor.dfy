/** The executor: claiming, executing, failing, archiving and recovering jobs. */
module MaintenanceExecutor {
  import opened Basics
  import opened Maintenance
  import opened MaintenanceHost
  import opened MaintenanceUpgrade
  import opened MaintenanceForward

  // --------------------------------------------------------------- archiving

  /** The record moves from the running to the completed directory. */
  function Moved(jobs: Jobs, id: Id): Jobs
    requires id in jobs.running && jobs.running[id].Parsed?
  {
    jobs.(running := jobs.running - {id}, completed := jobs.completed[id := jobs.running[id].job])
  }

  /** The disk holds this terminal record, up to the checkpoint it drops. */
  ghost predicate Terminated(h: Host, id: Id, job: Job)
    reads h`world, h`run
  {
    && h.Good()
    && job.status.Terminal()
    && id in h.world.jobs.running && h.world.jobs.running[id].Parsed?
    && h.world.jobs.running[id].job.Persisted() == job.Persisted()
  }

  lemma MayPersistAgain(h: Host, id: Id, job: Job)
    requires Terminated(h, id, job)
    ensures h.Permitted(Maintenance, World(h.world.device, Rewritten(h.world.jobs, id, job)))
    ensures !Danger(h.world.jobs) && !Owned(h.world.jobs) && Consistent(h.world.device) && Exclusive(h.world.device)
    ensures h.world.jobs.running.Keys == {id}
  {
    var r := Rewritten(h.world.jobs, id, job);
    assert forall x | x in h.world.jobs.running :: x == id;
    assert r.running.Keys == h.world.jobs.running.Keys;
    assert forall x | x in r.running :: x == id;
  }

  /** Archiving the only running job leaves nothing running and no identity behind. */
  lemma MovedJobs(jobs: Jobs, id: Id)
    requires Filed(jobs) && jobs.running.Keys == {id} && jobs.running[id].Parsed? && jobs.running[id].job.status.Terminal()
    ensures var m := Moved(jobs, id);
            && m.running == map[] && m.Ids() == jobs.Ids() && Filed(m)
            && !Owned(m) && !Danger(m) && !Checkpointed(m)
            && Conserved(jobs, m) && Advances(jobs, m) && Filing(jobs, m)
  {
    var m := Moved(jobs, id);
    assert m.running.Keys == {};
    assert m.Ids() == jobs.Ids();
  }

  lemma MayMove(h: Host, id: Id, job: Job)
    requires Terminated(h, id, job) && id !in h.world.jobs.completed
    requires job.operation.Upgrade? && job.status.Succeeded? ==> h.world.device.cli == Effective(h.world.device).version
    ensures h.Permitted(Maintenance, World(h.world.device, Moved(h.world.jobs, id)))
    ensures Moved(h.world.jobs, id).running == map[]
  {
    MayPersistAgain(h, id, job);
    MovedJobs(h.world.jobs, id);
    hide Consistent, Exclusive, Filed, Owned, Danger, Checkpointed, Conserved, Advances, Filing;
  }

  lemma RunningIsNotCompleted(h: Host, id: Id)
    requires h.Good() && id in h.world.jobs.running
    ensures id !in h.world.jobs.completed
  {
  }

  /** Archives a finished job: its file moves, once, to a name that was free. */
  method CompleteJob(h: Host, id: Id, job: Job) returns (o: Outcome)
    requires Terminated(h, id, job)
    requires job.operation.Upgrade? && job.status.Succeeded? ==> h.world.device.cli == Effective(h.world.device).version
    modifies h
    ensures h.Good() && h.world.device == old(h.world.device) && h.world.jobs.queued == old(h.world.jobs.queued)
    ensures o.Done? ==>
              && h.world.jobs.running == map[]
              && h.world.jobs.completed == old(h.world.jobs.completed)[id := job.Persisted()]
              && h.world.jobs.completed[id].status == job.status && h.world.jobs.completed[id].runnerWasRunning.None?
    ensures h.tick == old(h.tick) + 3 && h.fate(old(h.tick) + 2).effect ==>
              h.world.jobs.running == map[] && h.world.jobs.completed == old(h.world.jobs.completed)[id := job.Persisted()]
    ensures Smooth(h.fate, old(h.tick), 3) ==> o.Done?
    ensures old(h.Troubles()) <= h.Troubles() && (old(h.Troubles()) == h.Troubles() <==> o.Done?)
    ensures o.Done? ==> h.tick == old(h.tick) + 3
  {
    hide Failures, LawfulRun, Unheard, RunnerBefore, Checkpointed, Lagging, Danger, Owned, Consistent;
    RunningIsNotCompleted(h, id);
    if id in h.world.jobs.completed { return Error; }
    MayPersistAgain(h, id, job);
    o := h.Persist(id, job);
    if !o.Done? { return; }
    o := h.Oracle();   // finalizing the candidate's credentials
    if !o.Done? { return; }
    MayMove(h, id, job);
    var f := h.Draw();
    o := f.outcome;
    if o.Done? || f.effect {
      h.Become(Maintenance, World(h.world.device, Moved(h.world.jobs, id)));
    }
  }

  // ----------------------------------------------------- records before Staging ends

  /** The disk holds a readable record that has not touched anything. */
  ghost predicate Quiet(h: Host, id: Id)
    reads h`world, h`run
  {
    h.Good() && id in h.world.jobs.running && h.world.jobs.running[id].Parsed? && !h.world.jobs.running[id].job.Touching()
  }

  /** And its end is not recorded yet. */
  ghost predicate Open(h: Host, id: Id)
    reads h`world, h`run
  {
    Quiet(h, id) && !h.world.jobs.running[id].job.status.Terminal()
  }

  lemma QuietIsConsistent(h: Host, id: Id)
    requires Quiet(h, id)
    ensures !Danger(h.world.jobs) && !Owned(h.world.jobs) && !Checkpointed(h.world.jobs)
    ensures Consistent(h.world.device) && Exclusive(h.world.device) && h.world.jobs.running.Keys == {id}
  {
    assert forall x | x in h.world.jobs.running :: x == id;
  }

  /** Recording progress, or a failure, of a job that has not touched anything. */
  method Record(h: Host, id: Id, job: Job) returns (o: Outcome)
    requires Quiet(h, id) && !job.Touching() && (job.operation.Upgrade? ==> !job.status.Succeeded?)
    requires Open(h, id) || job.status.Terminal()
    modifies h
    ensures o == h.fate(old(h.tick)).outcome && h.tick == old(h.tick) + 1 && h.Troubles() == old(h.Troubles()) + Bad(o)
    ensures Quiet(h, id) && h.world.device == old(h.world.device) && h.world.jobs.queued == old(h.world.jobs.queued)
    ensures h.world.jobs.completed == old(h.world.jobs.completed)
    ensures o.Done? ==> h.world.jobs.running == map[id := Parsed(job.Persisted())] && h.Before() == RunnerUp(h.world.device)
    ensures o.Error? ==> h.world.jobs == old(h.world.jobs)
  {
    QuietIsConsistent(h, id);
    var r := Rewritten(h.world.jobs, id, job);
    assert r.running.Keys == {id} && r.running[id].job == job.Persisted();
    assert forall x | x in r.running :: x == id;
    o := h.Persist(id, job);
  }

  // ------------------------------------------------------- the in-place upgrade

  /** Changes outside an upgrade that leave the committed release in place. */
  lemma MayPrepare(h: Host, id: Id, next: Device)
    requires Quiet(h, id) && Undisturbed(h.world.device, next) && Consistent(next) && Exclusive(next)
    requires Forward(h.world.device.active, next.active)
    ensures h.Permitted(Maintenance, World(next, h.world.jobs)) && !Danger(h.world.jobs)
  {
    QuietIsConsistent(h, id);
  }

  /** Reads the commit record, writing the first one when the installation predates it. */
  method LoadOrInitialize(h: Host, id: Id) returns (o: Outcome, active: Active)
    requires Quiet(h, id)
    modifies h
    ensures Quiet(h, id) && h.world.jobs == old(h.world.jobs)
    ensures h.world.device == old(h.world.device).(link := h.world.device.link, active := h.world.device.active)
    ensures o.Done? ==>
              && h.world.device.active == Some(active)
              && active == old(Effective(h.world.device))
    ensures old(h.world.device.active).Some? ==>
              h.world == old(h.world) && h.tick == old(h.tick) + 1 && o == h.fate(old(h.tick)).outcome
    ensures Undisturbed(old(h.world.device), h.world.device)
    ensures old(h.Troubles()) <= h.Troubles() && (old(h.Troubles()) == h.Troubles() <==> o.Done?)
    ensures o.Done? ==> h.tick == old(h.tick) + (if old(h.world.device.active).Some? then 1 else 2)
  {
    hide Failures, LawfulRun, Unheard, RunnerBefore, Checkpointed, Lagging, Danger, Owned;
    active := Effective(h.world.device);
    if h.world.device.active.Some? {
      o := h.Oracle();
      return;
    }
    QuietIsConsistent(h, id);
    var linked := h.world.device.(link := h.world.device.link[Blue := h.world.device.current]);
    MayPrepare(h, id, linked);
    o := h.Write(linked);
    if !o.Done? { return; }
    MayPrepare(h, id, linked.(active := Some(active)));
    o := h.Write(linked.(active := Some(active)));
  }

  /** What the caller may rely on when an execution reports failure. */
  ghost predicate Failable(h: Host, id: Id, job: Job)
    reads h`world, h`run
  {
    || (Open(h, id) && (job.status.Preparing() || !job.operation.Upgrade?) && !job.status.Terminal())
    || (!job.Online() && job.operation.Upgrade? && exists staged :: RolledBack(h, id, staged, job))
  }

  /** The upgrade has been committed and its record is still SwitchingTraffic. */
  ghost predicate Upgraded(h: Host, id: Id, job: Job)
    reads h`world, h`run
  {
    && Journaled(h, id, job)
    && Settled(h.world.device) && RunnerUp(h.world.device) == h.Before()
    && job.targetVersion == Some(Effective(h.world.device).version)
    && h.world.device.cli == Effective(h.world.device).version
  }

  /** The installation is the one the upgrade was queued for. */
  predicate QueuedFor(d: Device, job: Job) {
    d.current == job.currentVersion && Effective(d).version == job.currentVersion
  }

  /** And its commit record is there. */
  predicate Upgradable(d: Device, job: Job) {
    d.active.Some? && QueuedFor(d, job)
  }

  /** The record with its checkpoint, still saying that nothing was touched. */
  function Checkpointing(job: Job, d: Device): Job {
    job.(previousRelease := Some(d.current), runnerWasRunning := Some(RunnerUp(d)))
  }

  /** Everything goes well up to the checkpoint; then StoppingServices and RestoringPrevious
      cannot be written, every unit is stopped, and the executor dies. */
  ghost predicate Unlucky(fate: nat -> Fate, tick: nat) {
    && Smooth(fate, tick, 5)
    && fate(tick + 5).outcome.Error? && fate(tick + 6).outcome.Error?
    && Smooth(fate, tick + 7, 5) && CutOff(fate(tick + 12))
  }

  lemma CurrentIsInstalled(h: Host, id: Id)
    requires Quiet(h, id)
    ensures h.world.device.current in h.world.device.releases
    ensures h.world.jobs.running.Keys == {id}
  {
    QuietIsConsistent(h, id);
  }

  /** Nothing has been touched, except that the commit record may be there now. */
  predicate Prepared(b: Device, a: Device) {
    && a == b.(link := a.link, active := a.active)
    && Undisturbed(b, a)
  }

  /** Checks that the installation is the one the job was queued for, and records what to
      return to: the release, and whether its Runner runs. */
  method TakeCheckpoint(h: Host, id: Id, job: Job) returns (o: Outcome, j: Job, previous: Active)
    requires Open(h, id) && job.operation.Upgrade? && job.status == Staging && !job.Online()
    modifies h
    ensures h.Good() && (o.Crashed? || Open(h, id))
    ensures Prepared(old(h.world.device), h.world.device)
    ensures j == job.(previousRelease := j.previousRelease, runnerWasRunning := j.runnerWasRunning)
    ensures o.Done? ==>
              && Staged(h, id, j) && Baseline(h.world.device, previous)
              && previous.version == job.currentVersion && previous == Effective(old(h.world.device))
              && j.runnerWasRunning == Some(RunnerUp(old(h.world.device)))
    ensures Smooth(h.fate, old(h.tick), 5) && Upgradable(old(h.world.device), job) ==>
              && o.Done? && h.tick == old(h.tick) + 5
              && h.world.device == old(h.world.device)
              && h.world.jobs == old(h.world.jobs).(running := map[id := Parsed(Checkpointing(job, old(h.world.device)))])
              && j == Checkpointing(job, old(h.world.device))
    ensures o.Done? ==> QueuedFor(old(h.world.device), job) && old(h.Troubles()) == h.Troubles()
    ensures o.Done? ==> h.tick == old(h.tick) + (if old(h.world.device.active).Some? then 5 else 6)
    ensures old(h.Troubles()) <= h.Troubles()
    ensures old(h.Troubles()) == h.Troubles() ==> o == if QueuedFor(old(h.world.device), job) then Done else Error
  {
    hide Failures, LawfulRun, Unheard, RunnerBefore, Checkpointed, Lagging, Danger, Owned, Settled;
    j := job;
    previous := Effective(h.world.device);
    CurrentIsInstalled(h, id);
    o := h.Verify(h.world.device.current);
    if !o.Done? { return; }
    if h.world.device.current != job.currentVersion { return Error, j, previous; }
    o, previous := LoadOrInitialize(h, id);
    if !o.Done? { return; }
    if previous.version != job.currentVersion { return Error, j, previous; }
    o := h.Oracle();   // the identity and manifest of the committed Runner
    if !o.Done? { return; }
    j := job.(previousRelease := Some(h.world.device.current), runnerWasRunning := Some(previous.RunnerUnit() in h.world.device.running));
    o := Record(h, id, j);
    if !o.Done? { return; }
    QuietIsConsistent(h, id);
    o := h.Oracle();   // the upgrade snapshot and the saved service definitions
  }

  /** The release that was committed before is up again, alone, with its Runner as before. */
  predicate Returned(b: Device, a: Device) {
    Settled(a) && Effective(a) == Effective(b) && RunnerUp(a) == RunnerUp(b) && a.cli == Effective(a).version && a.evidence == b.evidence
  }

  lemma RolledBackKeepsJob(h: Host, id: Id, job: Job, j: Job)
    requires RolledBack(h, id, job, j)
    ensures j == job.(status := j.status)
  {
  }

  /** Runs the upgrade of a staged job; an error is rolled back, and unless an operation of the
      rollback fails as well, the previous release is up again under a Failed record. */
  method AdvanceOrRollBack(h: Host, id: Id, staged: Job, previous: Active, version: Version) returns (o: Outcome, j: Job)
    requires Staged(h, id, staged) && Baseline(h.world.device, previous)
    requires staged.targetVersion == Some(version) && version in h.world.device.releases && previous.version < version
    modifies h
    ensures h.Good()
    ensures o.Done? ==> Upgraded(h, id, j) && j.status == SwitchingTraffic
    ensures o.Error? ==> RolledBack(h, id, staged, j)
    ensures !o.Crashed? ==> j == staged.(status := j.status)
    ensures old(h.Troubles()) <= h.Troubles() && (old(h.Troubles()) == h.Troubles() <==> o.Done?)
    ensures o.Error? && h.Troubles() <= old(h.Troubles()) + 1 ==>
              && Reverted(h, id, j) && h.world.device.active == Some(previous)
              && h.world.device.evidence == old(h.world.device.evidence)
    ensures h.fate(old(h.tick)).outcome.Error? && h.fate(old(h.tick) + 1).outcome.Error?
            && Smooth(h.fate, old(h.tick) + 2, 5) && CutOff(h.fate(old(h.tick) + 7)) ==>
              && o.Crashed? && h.tick == old(h.tick) + 8
              && h.world == World(old(h.world.device).(running := {}), old(h.world.jobs))
  {
    hide Failures, LawfulRun, Unheard, RunnerBefore, Checkpointed, Lagging, Danger, Owned, Consistent, Settled;
    hide Reverted, RolledBack;
    var baseline := h.world.device;
    o := Advance(h, id, staged, previous, version);
    j := staged.(status := SwitchingTraffic);
    if o.Error? {
      o, j := Rollback(h, id, staged, previous, baseline);
      if !o.Crashed? {
        RolledBackKeepsJob(h, id, staged, j);
        o := Error;
      }
    }
  }

  /** Takes the checkpoint, then runs the upgrade; any failure is rolled back, and unless an
      operation of the rollback fails as well, the previous release is up again. */
  method ExecuteMaintenance(h: Host, id: Id, job: Job, version: Version) returns (o: Outcome, j: Job)
    requires Open(h, id) && job.operation.Upgrade? && job.status == Staging && !job.Online()
    requires job.targetVersion == Some(version) && version in h.world.device.releases && job.currentVersion < version
    modifies h
    ensures h.Good()
    ensures o.Done? ==> Upgraded(h, id, j) && j.status == SwitchingTraffic
    ensures o.Error? ==> Failable(h, id, j)
    ensures !o.Crashed? ==>
              j == job.(previousRelease := j.previousRelease, runnerWasRunning := j.runnerWasRunning, status := j.status)
    ensures Unlucky(h.fate, old(h.tick)) && Upgradable(old(h.world.device), job) ==>
              && o.Crashed? && h.tick == old(h.tick) + 13
              && h.world.device == old(h.world.device).(running := {})
              && h.world.jobs == old(h.world.jobs).(running := map[id := Parsed(Checkpointing(job, old(h.world.device)))])
    ensures o.Done? ==> QueuedFor(old(h.world.device), job) && old(h.Troubles()) == h.Troubles()
    ensures old(h.Troubles()) <= h.Troubles()
    ensures old(h.Troubles()) == h.Troubles() ==> o == if QueuedFor(old(h.world.device), job) then Done else Error
    ensures o.Error? && old(h.Troubles()) == h.Troubles() ==> j.status == Staging
    ensures o.Error? && h.Troubles() <= old(h.Troubles()) + 1 ==>
              || (j.status == Staging && Open(h, id) && Prepared(old(h.world.device), h.world.device))
              || (Reverted(h, id, j) && Returned(old(h.world.device), h.world.device))
  {
    hide Failures, LawfulRun, Unheard, RunnerBefore, Checkpointed, Lagging, Danger, Owned, Consistent, Settled, Smooth;
    hide CutOff, Journaled;
    var previous;
    o, j, previous := TakeCheckpoint(h, id, job);
    if !o.Done? { return; }
    o, j := AdvanceOrRollBack(h, id, j, previous, version);
  }

  // ------------------------------------------------------------ failing a job

  /** Maintenance is refused while any evidence of an online transition exists. */
  method EnsureMaintenanceAllowed(h: Host) returns (o: Outcome)
    modifies h`tick
    ensures h.tick == old(h.tick) + 1 && h.Troubles() == old(h.Troubles()) + Bad(h.fate(old(h.tick)).outcome)
    ensures o == if h.fate(old(h.tick)).outcome.Done? && h.world.device.evidence then Error else h.fate(old(h.tick)).outcome
  {
    o := h.Oracle();
    if o.Done? && h.world.device.evidence { o := Error; }
  }

  lemma MayHold(h: Host, id: Id, staged: Job, job: Job)
    requires RolledBack(h, id, staged, job) && !job.Online()
    ensures h.Permitted(Maintenance, World(h.world.device, Rewritten(h.world.jobs, id, job)))
  {
    if Unsettled(h, id, staged) {
      if job.status == Failed {
        MayFail(h, id, staged);
      } else {
        RewrittenDanger(h.world.jobs, id, job);
        UnsettledIsAlterable(h, id, staged);
      }
    } else {
      MayPersistAgain(h, id, job);
    }
  }

  lemma RolledBackIsOurs(h: Host, id: Id, staged: Job, job: Job)
    requires RolledBack(h, id, staged, job) && !job.Online()
    ensures !Owned(h.world.jobs)
  {
    if Unsettled(h, id, staged) {
      UnsettledIsAlterable(h, id, staged);
    } else {
      MayPersistAgain(h, id, job);
    }
  }

  /** Persists the outcome of a rollback, whatever it reached. */
  method Hold(h: Host, id: Id, ghost staged: Job, job: Job) returns (o: Outcome)
    requires !job.Online() && RolledBack(h, id, staged, job)
    modifies h
    ensures h.Good() && h.world.device == old(h.world.device) && h.world.jobs.completed == old(h.world.jobs.completed)
    ensures o.Done? && job.status.Terminal() ==> Terminated(h, id, job)
    ensures old(h.Troubles()) <= h.Troubles() && (old(h.Troubles()) == h.Troubles() <==> o.Done?)
    ensures o.Done? ==> h.tick == old(h.tick) + 1
  {
    MayHold(h, id, staged, job);
    o := h.Persist(id, job);
  }

  /** Ends a job that has touched nothing: as an archived failure, or, while there is evidence
      of an online transition, as a record kept for recovery. */
  method FailUntouched(h: Host, id: Id, job: Job, allowed: bool) returns (o: Outcome)
    requires Open(h, id) && (job.status.Preparing() || !job.operation.Upgrade?) && !job.status.Terminal()
    modifies h
    ensures h.Good() && h.world.device == old(h.world.device)
    ensures !allowed ==> h.world.jobs.completed == old(h.world.jobs.completed)
    ensures old(h.Troubles()) <= h.Troubles() && (o.Done? <==> old(h.Troubles()) == h.Troubles() && allowed)
    ensures o.Done? ==>
              && h.world.jobs.running == map[]
              && h.world.jobs.completed == old(h.world.jobs.completed)[id := job.(status := Failed).Persisted()]
  {
    hide Failures, LawfulRun, Unheard, RunnerBefore, Checkpointed, Lagging, Danger, Consistent, Settled;
    if !allowed {
      o := Record(h, id, job);
      if o.Done? { o := Error; }
      return;
    }
    o := Record(h, id, job.(status := Failed));
    if !o.Done? { return; }
    o := CompleteJob(h, id, job.(status := Failed));
  }

  /** Ends a job that has been rolled back: as an archived failure once the previous release
      is restored, and as a record kept for recovery otherwise. */
  method FailRolledBack(h: Host, id: Id, ghost staged: Job, job: Job, allowed: bool) returns (o: Outcome)
    requires !job.Online() && RolledBack(h, id, staged, job)
    modifies h
    ensures h.Good() && h.world.device == old(h.world.device)
    ensures !allowed ==> h.world.jobs.completed == old(h.world.jobs.completed)
    ensures old(h.Troubles()) <= h.Troubles()
    ensures o.Done? <==> old(h.Troubles()) == h.Troubles() && allowed && job.status != RestoringPrevious
    ensures o.Done? ==>
              && h.world.jobs.running == map[]
              && h.world.jobs.completed == old(h.world.jobs.completed)[id := job.(status := Failed).Persisted()]
  {
    hide Failures, LawfulRun, Unheard, RunnerBefore, Checkpointed, Lagging, Danger, Consistent, Settled;
    o := Hold(h, id, staged, job);
    if !allowed || job.status == RestoringPrevious {
      if o.Done? { o := Error; }
      return;
    }
    if !o.Done? { return; }
    o := CompleteJob(h, id, job);
  }

  /** The record of a failed execution that may be written back: the one in memory, or, while
      an online owner may have it, the one on disk if it is the same job and still preparing. */
  function InHand(jobs: Jobs, id: Id, failed: Job): Option<Job> {
    if !failed.Online() then Some(failed)
    else if id !in jobs.running || !jobs.running[id].Parsed? then None
    else
      var saved := jobs.running[id].job;
      if saved == failed.(status := saved.status, runnerWasRunning := saved.runnerWasRunning) && saved.status.Preparing()
      then Some(saved) else None
  }

  /** A failed execution ends as an archived failure, or as a record that the next
      run has to recover; a job owned by the online path is left to its owner. */
  method FinishFailed(h: Host, id: Id, failed: Job) returns (o: Outcome)
    requires h.Good() && (failed.Online() || Failable(h, id, failed))
    modifies h
    ensures h.Good() && h.world.device == old(h.world.device)
    ensures Owned(old(h.world.jobs)) ==> h.world == old(h.world)
    ensures old(h.world.device.evidence) ==> h.world.jobs.completed == old(h.world.jobs.completed)
    ensures old(h.Troubles()) <= h.Troubles()
    ensures var job := InHand(old(h.world.jobs), id, failed);
            && (job.None? ==> o.Error? && h.world == old(h.world))
            && (job.Some? && h.fate(old(h.tick)).outcome.Crashed? ==> o.Crashed? && h.world == old(h.world))
            && (o.Done? <==> job.Some? && old(h.Troubles()) == h.Troubles() && !old(h.world.device.evidence)
                             && (job.value.operation.Upgrade? ==> job.value.status != RestoringPrevious))
    ensures o.Done? ==>
              && h.world.jobs.running == map[]
              && h.world.jobs.completed == old(h.world.jobs.completed)[id := InHand(old(h.world.jobs), id, failed).value.(status := Failed).Persisted()]
  {
    hide Failures, LawfulRun, Unheard, RunnerBefore, Checkpointed, Lagging, Danger, Consistent, Settled;
    var job := failed;
    if failed.Online() {
      // The owner may have archived the job already: never write it back from memory.
      if id !in h.world.jobs.running || !h.world.jobs.running[id].Parsed? { return Error; }
      var saved := h.world.jobs.running[id].job;
      if saved != failed.(status := saved.status, runnerWasRunning := saved.runnerWasRunning) { return Error; }
      job := saved;
      if !saved.status.Preparing() { return Error; }
    }
    ghost var staged := job;
    if job.operation.Upgrade? && !job.status.Preparing() {
      staged :| RolledBack(h, id, staged, job);
    }
    var evidence := EnsureMaintenanceAllowed(h);
    if evidence.Crashed? { return Crashed; }
    if job.status.Preparing() || !job.operation.Upgrade? {
      QuietIsConsistent(h, id);
      o := FailUntouched(h, id, job, evidence.Done?);
    } else {
      RolledBackIsOurs(h, id, staged, job);
      o := FailRolledBack(h, id, staged, job, evidence.Done?);
    }
  }

  // ----------------------------------------------------------- deleting a version

  /** No unit of the other slot runs or is enabled in a consistent installation. */
  lemma OtherSlotIsIdle(d: Device, slot: Slot)
    requires Consistent(d) && slot != Effective(d).slot
    ensures d.running - {SlotRunner(slot)} == d.running && d.enabled - {SlotRunner(slot)} == d.enabled
    ensures d.running - {Control(slot)} == d.running
  {
  }

  /** A durable change of a job that does not upgrade anything. */
  method Prepare(h: Host, id: Id, next: Device) returns (o: Outcome)
    requires Quiet(h, id) && Undisturbed(h.world.device, next) && Consistent(next) && Exclusive(next)
    requires Forward(h.world.device.active, next.active)
    modifies h
    ensures Quiet(h, id) && h.world.jobs == old(h.world.jobs)
    ensures h.world.device == old(h.world.device) || h.world.device == next
    ensures o.Done? ==> h.world.device == next
    ensures old(h.Troubles()) <= h.Troubles() && (old(h.Troubles()) == h.Troubles() <==> o.Done?)
    ensures o.Done? ==> h.tick == old(h.tick) + 1
  {
    MayPrepare(h, id, next);
    o := h.Write(next);
  }

  /** How many operations it takes to detach a slot from a release. */
  function Undoing(d: Device, slot: Slot, version: Version): nat {
    if slot in d.link && d.link[slot] == version then 4 else 0
  }

  /** Removes the slot link to a release that is not active, after stopping its units. */
  method DetachSlot(h: Host, id: Id, slot: Slot, version: Version) returns (o: Outcome)
    requires Quiet(h, id) && h.world.device.active.Some? && h.world.device.active.value.version != version
    modifies h
    ensures Quiet(h, id) && h.world.jobs == old(h.world.jobs)
    ensures h.world.device == old(h.world.device).(link := h.world.device.link)
    ensures o.Done? ==> h.world.device.link == if slot in old(h.world.device.link) && old(h.world.device.link)[slot] == version
                                               then old(h.world.device.link) - {slot} else old(h.world.device.link)
    ensures !o.Done? ==>
              h.world.device.link == old(h.world.device.link) || h.world.device.link == old(h.world.device.link) - {slot}
    ensures Undisturbed(old(h.world.device), h.world.device)
    ensures old(h.Troubles()) <= h.Troubles() && (old(h.Troubles()) == h.Troubles() <==> o.Done?)
    ensures o.Done? ==> h.tick == old(h.tick) + Undoing(old(h.world.device), slot, version)
  {
    hide Failures, LawfulRun, Unheard, RunnerBefore, Checkpointed, Lagging, Danger, Owned;
    o := Done;
    if slot !in h.world.device.link || h.world.device.link[slot] != version { return; }
    QuietIsConsistent(h, id);
    OtherSlotIsIdle(h.world.device, slot);
    o := Prepare(h, id, h.world.device.(running := h.world.device.running - {SlotRunner(slot)}));
    if !o.Done? { return; }
    o := Prepare(h, id, h.world.device.(enabled := h.world.device.enabled - {SlotRunner(slot)}));
    if !o.Done? { return; }
    o := Prepare(h, id, h.world.device.(running := h.world.device.running - {Control(slot)}));
    if !o.Done? { return; }
    o := Prepare(h, id, h.world.device.(link := h.world.device.link - {slot}));
  }

  lemma SlotsCovered(link: map<Slot, Version>)
    ensures forall slot | slot in link :: slot == Blue || slot == Green
  {
  }

  /** Detaches both slots from a release that is not committed, and removes it. */
  method RemoveRelease(h: Host, id: Id, version: Version) returns (o: Outcome)
    requires Quiet(h, id) && h.world.device.active.Some? && h.world.device.active.value.version != version
    modifies h
    ensures Quiet(h, id) && h.world.jobs == old(h.world.jobs)
    ensures Undisturbed(old(h.world.device), h.world.device)
    ensures o.Done? ==>
              && version !in h.world.device.releases
              && (forall slot | slot in h.world.device.link :: h.world.device.link[slot] != version)
    ensures h.world.device.releases == old(h.world.device.releases) || h.world.device.releases == old(h.world.device.releases) - {version}
    ensures old(h.Troubles()) <= h.Troubles() && (old(h.Troubles()) == h.Troubles() <==> o.Done?)
    ensures o.Done? ==>
              h.tick == old(h.tick) + 2 + Undoing(old(h.world.device), Blue, version) + Undoing(old(h.world.device), Green, version)
  {
    hide Failures, LawfulRun, Unheard, RunnerBefore, Checkpointed, Lagging, Danger, Owned;
    o := DetachSlot(h, id, Blue, version);
    if !o.Done? { return; }
    o := DetachSlot(h, id, Green, version);
    if !o.Done? { return; }
    o := h.Oracle();   // the version's upgrade snapshots
    if !o.Done? { return; }
    QuietIsConsistent(h, id);
    o := Prepare(h, id, h.world.device.(releases := h.world.device.releases - {version}));
    SlotsCovered(h.world.device.link);
  }

  /** The release is installed, and neither committed nor the one the job was queued for. */
  predicate Deletable(d: Device, job: Job, version: Version) {
    d.active.Some? && d.active.value.version != version && job.currentVersion != version && version in d.releases
  }

  /** Deletes a release that is neither committed nor the one the job was queued for. */
  method DeleteRelease(h: Host, id: Id, job: Job, version: Version) returns (o: Outcome, j: Job)
    requires Open(h, id) && job.operation == DeleteVersion(version)
    modifies h
    ensures (o.Crashed? && Quiet(h, id)) || Open(h, id)
    ensures Undisturbed(old(h.world.device), h.world.device)
    ensures j == job.(status := Verifying)
    ensures o.Done? ==> old(h.Troubles()) == h.Troubles()
    ensures o.Done? ==>
              h.tick == old(h.tick) + 3 + Undoing(old(h.world.device), Blue, version) + Undoing(old(h.world.device), Green, version)
    ensures o.Done? ==>
              && version !in h.world.device.releases
              && (forall slot | slot in h.world.device.link :: h.world.device.link[slot] != version)
    ensures old(h.Troubles()) <= h.Troubles()
    ensures old(h.Troubles()) == h.Troubles() ==>
              if Deletable(old(h.world.device), job, version) then o.Done? else o.Error? && h.world.device == old(h.world.device)
    ensures h.world.device.releases == old(h.world.device.releases) || h.world.device.releases == old(h.world.device.releases) - {version}
  {
    hide Failures, LawfulRun, Unheard, RunnerBefore, Checkpointed, Lagging, Danger, Owned, Consistent, Exclusive, Undoing;
    j := job.(status := Verifying);
    o := Record(h, id, j);
    if !o.Done? { return; }
    if h.world.device.active.None? { return Error, j; }
    if h.world.device.active.value.version == version || job.currentVersion == version { return Error, j; }
    if version !in h.world.device.releases { return Error, j; }
    o := RemoveRelease(h, id, version);
  }
}
