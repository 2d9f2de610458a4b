/** The forward path of an in-place upgrade and its rollback. */
module MaintenanceForward {
  import opened Basics
  import opened Maintenance
  import opened MaintenanceHost
  import opened MaintenanceUpgrade

  /** The disk holds this upgrade's record, past Staging, with its checkpoint. */
  ghost predicate Journaled(h: Host, id: Id, job: Job)
    reads h`world, h`run
  {
    && h.Good()
    && id in h.world.jobs.running && h.world.jobs.running[id].Parsed?
    && h.world.jobs.running[id].job == job.(status := h.world.jobs.running[id].job.status)
    && h.world.jobs.running[id].job.Touching()
    && !job.Online()
    && job.previousRelease.Some?
    && job.runnerWasRunning == Some(h.Before())
  }

  /** The disk still holds the staged record, and nothing has been touched. */
  ghost predicate Staged(h: Host, id: Id, job: Job)
    reads h`world, h`run
  {
    && h.Good()
    && id in h.world.jobs.running && h.world.jobs.running[id] == Parsed(job)
    && job.operation.Upgrade? && job.status == Staging && !job.Online()
    && job.previousRelease.Some?
    && job.runnerWasRunning == Some(h.Before())
  }

  lemma JournaledIsAlterable(h: Host, id: Id, job: Job)
    requires Journaled(h, id, job)
    ensures h.Alterable() && Checkpointed(h.world.jobs)
  {
    var jobs := h.world.jobs;
    assert jobs.running[id].job.Touching();
    assert Checkpointed(jobs) && Danger(jobs);
    assert Filed(jobs);
    assert forall x | x in jobs.running :: x == id;
  }

  lemma StagedIsAlterable(h: Host, id: Id, job: Job)
    requires Staged(h, id, job)
    ensures Unheard(h.run) ==> h.Alterable()
    ensures !Danger(h.world.jobs) && Consistent(h.world.device)
  {
    var jobs := h.world.jobs;
    assert forall x | x in jobs.running :: x == id;
  }

  /** Rewriting the only running record decides whether an upgrade is unfinished. */
  lemma RewrittenDanger(jobs: Jobs, id: Id, job: Job)
    requires Filed(jobs) && id in jobs.running && !job.Online()
    ensures var r := Rewritten(jobs, id, job);
            && Filed(r) && r.Ids() == jobs.Ids() && !Owned(r)
            && (Danger(r) <==> job.Touching())
            && (Checkpointed(r) <==> job.Touching() && job.runnerWasRunning.Some?)
  {
    var r := Rewritten(jobs, id, job);
    assert r.running.Keys == jobs.running.Keys;
    assert forall x | x in r.running :: x == id;
    assert r.running[id].job == job.Persisted();
  }

  /** `set_job_status` between two phases of an unfinished upgrade. */
  method MarkPhase(h: Host, id: Id, job: Job, status: Status) returns (o: Outcome, j: Job)
    requires Journaled(h, id, job) || Staged(h, id, job)
    requires job.(status := status).Touching()
    modifies h
    ensures j == job.(status := status)
    ensures h.Good() && h.world.device == old(h.world.device)
    ensures !o.Crashed? ==> h.Before() == old(h.Before())
    ensures o.Done? ==> Journaled(h, id, job)
    ensures o.Error? ==> h.world.jobs == old(h.world.jobs) && h.run == Step(old(h.run), Refused(status), h.world)
    ensures !o.Crashed? && old(Journaled(h, id, job)) ==> Journaled(h, id, job)
    ensures o == h.fate(old(h.tick)).outcome && h.tick == old(h.tick) + 1 && h.Troubles() == old(h.Troubles()) + Bad(o)
  {
    j := job.(status := status);
    RewrittenDanger(h.world.jobs, id, j);
    o := h.Persist(id, j);
  }

  /** Still journaled, the commit record and the installed releases untouched. */
  twostate predicate Onward(h: Host, id: Id, job: Job)
    reads h`world, h`run
  {
    && Journaled(h, id, job)
    && h.Before() == old(h.Before())
    && h.world.device.active == old(h.world.device.active)
    && h.world.device.releases == old(h.world.device.releases)
    && h.world.device.evidence == old(h.world.device.evidence)
  }

  /** Everything is stopped, the candidate's slot and definitions are in place, and
      the previous slot no longer starts at boot. */
  method StopAndStage(h: Host, id: Id, job: Job, previous: Slot, version: Version) returns (o: Outcome)
    requires Journaled(h, id, job)
    modifies h
    ensures h.Good() && (o.Crashed? || Onward(h, id, job))
    ensures o.Done? ==>
              h.world.device == old(h.world.device).(
                running := {},
                enabled := old(h.world.device.enabled) - SLOT_RUNNERS - {Control(previous)},
                link := old(h.world.device.link)[previous.Other() := version],
                assets := Of(version))
    ensures old(h.Troubles()) <= h.Troubles() && (old(h.Troubles()) == h.Troubles() <==> o.Done?)
    ensures o.Done? ==> h.tick == old(h.tick) + 11
  {
    hide Failures, LawfulRun, Unheard, RunnerBefore, Checkpointed, Lagging, Danger, Owned, Consistent;
    JournaledIsAlterable(h, id, job);
    o := Quiesce(h);
    if !o.Done? { return; }
    o := h.Replace(h.world.device.(link := h.world.device.link[previous.Other() := version]));
    if !o.Done? { return; }
    o := h.InstallAssets(Of(version));
    if !o.Done? { return; }
    o := h.Command(h.world.device.(enabled := h.world.device.enabled - {Control(previous)}));
    if !o.Done? { return; }
    var j;
    o, j := MarkPhase(h, id, job, StartingCandidate);
  }

  /** Starts the candidate's Control and waits until it answers. */
  method LaunchControl(h: Host, id: Id, job: Job, slot: Slot) returns (o: Outcome)
    requires Journaled(h, id, job) && h.world.device.running == {}
    modifies h
    ensures h.Good() && (o.Crashed? || Onward(h, id, job))
    ensures o.Done? ==> h.world.device == old(h.world.device).(running := {Control(slot)})
    ensures old(h.Troubles()) <= h.Troubles() && (old(h.Troubles()) == h.Troubles() <==> o.Done?)
    ensures o.Done? ==> h.tick == old(h.tick) + 4
  {
    hide Failures, LawfulRun, Unheard, RunnerBefore, Checkpointed, Lagging, Danger, Owned, Consistent;
    JournaledIsAlterable(h, id, job);
    o := h.Command(h.world.device.(running := h.world.device.running + {Control(slot)}));
    if !o.Done? { return; }
    o := h.Oracle();   // whether the unit is active
    if !o.Done? { return; }
    var j;
    o, j := MarkPhase(h, id, job, Migrating);
    if !o.Done? { return; }
    JournaledIsAlterable(h, id, job);
    o := h.Probe(Control(slot));
  }

  /** Starts the candidate, waits for it, restores the Runner, and enables the slot. */
  method StartCandidate(h: Host, id: Id, job: Job, candidate: Active) returns (o: Outcome)
    requires Journaled(h, id, job)
    requires h.world.device.running == {} && Control(candidate.slot.Other()) !in h.world.device.enabled
    modifies h
    ensures h.Good() && (o.Crashed? || Onward(h, id, job))
    ensures o.Done? ==>
              && SameFiles(old(h.world.device), h.world.device)
              && h.world.device.running == {Control(candidate.slot)} + (if h.Before() then {candidate.RunnerUnit()} else {})
              && h.world.device.enabled ==
                   old(h.world.device.enabled) - RUNNERS + (if h.Before() then {candidate.RunnerUnit()} else {}) + {Control(candidate.slot)}
    ensures old(h.Troubles()) <= h.Troubles() && (old(h.Troubles()) == h.Troubles() <==> o.Done?)
    ensures o.Done? ==> h.tick == old(h.tick) + (if job.runnerWasRunning == Some(true) then 12 else 10)
  {
    hide Failures, LawfulRun, Unheard, RunnerBefore, Checkpointed, Lagging, Danger, Owned, Consistent;
    o := LaunchControl(h, id, job, candidate.slot);
    if !o.Done? { return; }
    JournaledIsAlterable(h, id, job);
    o := RestoreRunner(h, candidate, job.runnerWasRunning.value);
    if !o.Done? { return; }
    o := h.Command(h.world.device.(enabled := h.world.device.enabled + {Control(candidate.slot)}));
    if !o.Done? { return; }
    var j;
    o, j := MarkPhase(h, id, job, SwitchingTraffic);
  }

  /** With the candidate up and every other pointer moved, writing the commit record
      settles the installation on the candidate. */
  lemma CommitSettles(d: Device, candidate: Active, wasRunning: bool)
    requires d.active == Some(candidate)
    requires candidate.slot in d.link && d.link[candidate.slot] == candidate.version
    requires d.current == candidate.version && d.upstreams == candidate.slot && d.proxy == candidate.slot
    requires d.assets == Of(candidate.version) && candidate.version in d.releases && d.selected == candidate.version
    requires d.running == {Control(candidate.slot)} + (if wasRunning then {candidate.RunnerUnit()} else {})
    requires exists e :: Control(candidate.slot.Other()) !in e
                         && d.enabled == e - RUNNERS + (if wasRunning
                                                        then {candidate.RunnerUnit()}
                                                        else {}) + {Control(candidate.slot)}
    ensures Settled(d) && RunnerUp(d) == wasRunning
  {
    var e :| Control(candidate.slot.Other()) !in e
             && d.enabled == e - RUNNERS + (if wasRunning then {candidate.RunnerUnit()} else {}) + {Control(candidate.slot)};
    RunnerUnitCovered(candidate);
    OnlyOwnUnits(e - RUNNERS, candidate);
  }

  /** Moves traffic, pointers and the stable CLI, and commits last. */
  method Switch(h: Host, id: Id, job: Job, candidate: Active) returns (o: Outcome)
    requires Journaled(h, id, job)
    requires h.world.device.active.Some? && h.world.device.active.value.version < candidate.version
    modifies h
    ensures h.Good() && (o.Error? ==> Onward(h, id, job))
    ensures o.Done? ==>
              && Journaled(h, id, job) && h.Before() == old(h.Before())
              && h.world.device == old(h.world.device).(
                   upstreams := candidate.slot, proxy := candidate.slot, current := candidate.version,
                   selected := candidate.version, cli := candidate.version, active := Some(candidate))
    ensures old(h.Troubles()) <= h.Troubles() && (old(h.Troubles()) == h.Troubles() <==> o.Done?)
    ensures o.Done? ==> h.tick == old(h.tick) + 7
  {
    hide Failures, LawfulRun, Unheard, RunnerBefore, Checkpointed, Lagging, Danger, Owned, Consistent;
    JournaledIsAlterable(h, id, job);
    o := h.Replace(h.world.device.(upstreams := candidate.slot));
    if !o.Done? { return; }
    o := h.Command(h.world.device.(proxy := candidate.slot));
    if !o.Done? { return; }
    o := h.Replace(h.world.device.(current := candidate.version));
    if !o.Done? { return; }
    o := h.Replace(h.world.device.(selected := candidate.version));
    if !o.Done? { return; }
    o := h.Replace(h.world.device.(cli := candidate.version));
    if !o.Done? { return; }
    o := h.Oracle();   // the audit record of the candidate
    if !o.Done? { return; }
    o := h.Commit(candidate);
  }

  /** The installation the upgrade set out from. */
  predicate Baseline(d: Device, previous: Active) {
    d.active == Some(previous) && Consistent(d)
  }

  /** Runs the whole forward path.  After an error the record is either journaled
      or was never advanced, and in the latter case nothing has changed. */
  method Advance(h: Host, id: Id, job: Job, previous: Active, version: Version) returns (o: Outcome)
    requires Staged(h, id, job) && Baseline(h.world.device, previous)
    requires version in h.world.device.releases && previous.version < version
    modifies h
    ensures h.Good()
    ensures !o.Crashed? ==> h.Before() == old(h.Before())
    ensures o.Done? ==>
              && Journaled(h, id, job)
              && Settled(h.world.device) && RunnerUp(h.world.device) == h.Before()
              && Effective(h.world.device).version == version && h.world.device.cli == version
    ensures o.Error? ==>
              && h.world.device.active == Some(previous)
              && h.world.device.releases == old(h.world.device.releases)
              && h.world.device.evidence == old(h.world.device.evidence)
              && (Journaled(h, id, job) || (h.world == old(h.world) && h.run == Step(old(h.run), Refused(StoppingServices), h.world)))
    ensures h.fate(old(h.tick)).outcome.Error? ==> o.Error? && h.world == old(h.world) && h.tick == old(h.tick) + 1
    ensures old(h.Troubles()) <= h.Troubles() && (old(h.Troubles()) == h.Troubles() <==> o.Done?)
    ensures o.Done? ==> h.tick == old(h.tick) + (if job.runnerWasRunning == Some(true) then 32 else 30)
  {
    hide Failures, LawfulRun, Unheard, RunnerBefore, Checkpointed, Lagging, Danger, Owned, Consistent, Settled, RunnerUp;
    var j;
    o, j := MarkPhase(h, id, job, StoppingServices);
    if !o.Done? { return; }
    o := StopAndStage(h, id, job, previous.slot, version);
    if !o.Done? { return; }
    var localRunner: Option<nat> := *;   // whether the candidate supports a slot Runner
    o := h.Oracle();
    if !o.Done? { return; }
    var candidate := Active(previous.slot.Other(), version, localRunner);
    ghost var d := h.world.device;
    o := StartCandidate(h, id, job, candidate);
    if !o.Done? { return; }
    o := Switch(h, id, job, candidate);
    if o.Done? {
      CommitSettles(h.world.device, candidate, h.Before());
    }
  }

  // ---------------------------------------------------------------- rollback

  /** The record is journaled, or it never left Staging because no write got through. */
  ghost predicate Unsettled(h: Host, id: Id, job: Job)
    reads h`world, h`run
  {
    Journaled(h, id, job) || (Staged(h, id, job) && Consistent(h.world.device))
  }

  lemma UnsettledIsAlterable(h: Host, id: Id, job: Job)
    requires Unsettled(h, id, job)
    ensures Journaled(h, id, job) || Unheard(h.run) ==> h.Alterable()
    ensures !Owned(h.world.jobs)
  {
    if Journaled(h, id, job) {
      JournaledIsAlterable(h, id, job);
    } else {
      StagedIsAlterable(h, id, job);
    }
  }

  /** Service definitions, `current` and the slot link, in the order rollback uses. */
  method PointBack(h: Host, previous: Active, assets: Assets) returns (o: Outcome)
    requires h.Good() && h.Alterable() && h.world.device.active == Some(previous) && assets == Of(previous.version)
    modifies h
    ensures h.Good() && h.Alterable() && h.world.jobs == old(h.world.jobs) && h.Before() == old(h.Before())
    ensures h.world.device == old(h.world.device).(
              assets := h.world.device.assets, current := h.world.device.current, link := h.world.device.link)
    ensures o.Done? ==> h.world.device == old(h.world.device).(
                          assets := assets, current := previous.version,
                          link := old(h.world.device.link)[previous.slot := previous.version])
    ensures old(h.Troubles()) <= h.Troubles() && (old(h.Troubles()) == h.Troubles() <==> o.Done?)
    ensures o.Done? ==> h.tick == old(h.tick) + 3
  {
    hide Failures, LawfulRun, Unheard, RunnerBefore, Checkpointed, Lagging, Danger, Owned;
    o := h.InstallAssets(assets);
    if !o.Done? { return; }
    o := h.Replace(h.world.device.(current := previous.version));
    if !o.Done? { return; }
    o := h.Replace(h.world.device.(link := h.world.device.link[previous.slot := previous.version]));
  }

  /** Every pointer is on this release, and its Control runs alone. */
  predicate BroughtBack(d: Device, active: Active) {
    && d.active == Some(active) && active.slot in d.link && d.link[active.slot] == active.version
    && d.current == active.version && d.upstreams == active.slot && d.proxy == active.slot
    && d.assets == Of(active.version) && active.version in d.releases && d.selected == active.version
    && d.running == {Control(active.slot)}
    && Control(active.slot) in d.enabled && Control(active.slot.Other()) !in d.enabled
  }

  /** Stops the candidate and brings the previous release back, without its Runner. */
  method BringBack(h: Host, previous: Active, baseline: Device) returns (o: Outcome)
    requires h.Good() && h.Alterable() && Baseline(baseline, previous)
    requires h.world.device.active == Some(previous) && h.world.device.releases == baseline.releases
    modifies h
    ensures h.Good() && h.Alterable() && h.world.jobs == old(h.world.jobs) && h.Before() == old(h.Before())
    ensures o.Done? ==> BroughtBack(h.world.device, previous) && h.world.device.evidence == old(h.world.device.evidence)
    ensures Smooth(h.fate, old(h.tick), 5) && CutOff(h.fate(old(h.tick) + 5)) ==>
              o.Crashed? && h.world.device == old(h.world.device).(running := {}) && h.tick == old(h.tick) + 6
    ensures old(h.Troubles()) <= h.Troubles() && (old(h.Troubles()) == h.Troubles() <==> o.Done?)
    ensures o.Done? ==> h.tick == old(h.tick) + 17
  {
    hide Failures, LawfulRun, Unheard, RunnerBefore, Checkpointed, Lagging, Danger, Owned, Settled, RunnerUp;
    o := Quiesce(h);
    if !o.Done? { return; }
    o := PointBack(h, previous, baseline.assets);
    if !o.Done? { return; }
    o := BringUp(h, previous.slot);
    if !o.Done? { return; }
    o := Route(h, baseline.upstreams, previous.version);
  }

  /** Stops the candidate and brings the previous release back, Runner included. */
  method RestorePrevious(h: Host, previous: Active, baseline: Device, wasRunning: bool) returns (o: Outcome)
    requires h.Good() && h.Alterable() && Baseline(baseline, previous)
    requires h.world.device.active == Some(previous) && h.world.device.releases == baseline.releases
    modifies h
    ensures h.Good() && h.Alterable() && h.world.jobs == old(h.world.jobs) && h.Before() == old(h.Before())
    ensures o.Done? ==>
              Settled(h.world.device) && RunnerUp(h.world.device) == wasRunning && h.world.device.active == Some(previous)
    ensures o.Done? ==> h.world.device.evidence == old(h.world.device.evidence)
    ensures Smooth(h.fate, old(h.tick), 5) && CutOff(h.fate(old(h.tick) + 5)) ==>
              o.Crashed? && h.world.device == old(h.world.device).(running := {}) && h.tick == old(h.tick) + 6
    ensures old(h.Troubles()) <= h.Troubles() && (old(h.Troubles()) == h.Troubles() <==> o.Done?)
    ensures o.Done? ==> h.tick == old(h.tick) + (if wasRunning then 24 else 22)
  {
    hide Failures, LawfulRun, Unheard, RunnerBefore, Checkpointed, Lagging, Danger, Owned, Settled, RunnerUp;
    o := BringBack(h, previous, baseline);
    if !o.Done? { return; }
    ghost var d := h.world.device;
    o := RestoreRunner(h, previous, wasRunning);
    if !o.Done? { return; }
    Restored(d, previous, wasRunning, h.world.device);
    o := h.Replace(h.world.device.(active := Some(previous)));
  }

  /** Where a rollback that was not killed leaves the record it holds in memory. */
  ghost predicate RolledBack(h: Host, id: Id, job: Job, j: Job)
    reads h`world, h`run
  {
    && h.Good()
    && j == job.(status := j.status)
    && id in h.world.jobs.running
    && job.runnerWasRunning == Some(h.Before())
    && (|| (j.status == RestoringPrevious && Unsettled(h, id, job))
        || (j.status == Failed && Settled(h.world.device) && RunnerUp(h.world.device) == h.Before()
            && (Unsettled(h, id, job) || h.world.jobs.running[id] == Parsed(j.Persisted()))))
  }

  /** The record says Failed, over a settled installation whose CLI has followed. */
  ghost predicate Reverted(h: Host, id: Id, j: Job)
    reads h`world
  {
    && j.status == Failed && id in h.world.jobs.running && h.world.jobs.running[id] == Parsed(j.Persisted())
    && Settled(h.world.device) && j.runnerWasRunning == Some(RunnerUp(h.world.device))
    && h.world.device.cli == Effective(h.world.device).version
  }

  /** A record whose installation is settled may be marked Failed. */
  lemma MayFail(h: Host, id: Id, job: Job)
    requires Unsettled(h, id, job) && Settled(h.world.device) && RunnerUp(h.world.device) == h.Before()
    ensures h.Permitted(Maintenance, World(h.world.device, Rewritten(h.world.jobs, id, job.(status := Failed))))
  {
    RewrittenDanger(h.world.jobs, id, job.(status := Failed));
    assert forall x | x in h.world.jobs.running :: x == id;
  }

  /** Once the record is terminal, the stable CLI may follow the committed release. */
  lemma MayReinstallCli(h: Host, id: Id, job: Job)
    requires h.Good() && id in h.world.jobs.running && h.world.jobs.running[id] == Parsed(job.Persisted())
    requires job.status.Terminal()
    ensures !Danger(h.world.jobs)
    ensures h.Permitted(Maintenance, World(h.world.device.(cli := Effective(h.world.device).version), h.world.jobs))
  {
    assert forall x | x in h.world.jobs.running :: x == id;
  }

  lemma SettledIgnoresCli(d: Device)
    requires Settled(d)
    ensures var n := d.(cli := Effective(d).version);
            Settled(n) && RunnerUp(n) == RunnerUp(d) && Effective(n) == Effective(d)
  {
  }

  /** The tail of a rollback: the record becomes Failed, then the stable CLI follows. */
  method Conclude(h: Host, id: Id, job: Job) returns (o: Outcome)
    requires Unsettled(h, id, job) && Settled(h.world.device) && RunnerUp(h.world.device) == h.Before()
    modifies h
    ensures h.Good()
    ensures !o.Crashed? ==> RolledBack(h, id, job, job.(status := Failed))
    ensures o.Done? ==>
              Reverted(h, id, job.(status := Failed)) && h.world.device == old(h.world.device).(cli := h.world.device.cli)
    ensures old(h.Troubles()) <= h.Troubles() && (old(h.Troubles()) == h.Troubles() <==> o.Done?)
    ensures o.Done? ==> h.tick == old(h.tick) + 2
  {
    hide Failures, LawfulRun, Unheard, RunnerBefore, Checkpointed, Lagging, Danger, Owned, Consistent;
    MayFail(h, id, job);
    o := h.Persist(id, job.(status := Failed));
    if !o.Done? { return; }
    MayReinstallCli(h, id, job.(status := Failed));
    ghost var d := h.world.device;
    assert !Checkpointed(h.world.jobs) by { RewrittenDanger(old(h.world.jobs), id, job.(status := Failed)); }
    o := h.Write(h.world.device.(cli := Effective(h.world.device).version));
    assert Settled(d.(cli := Effective(d).version)) && RunnerUp(d.(cli := Effective(d).version)) == RunnerUp(d) by {
      SettledIgnoresCli(d);
    }
  }

  /** The part of a rollback that runs whether or not its journal write got through. */
  method RestoreAndConclude(h: Host, id: Id, job: Job, previous: Active, baseline: Device) returns (o: Outcome, j: Job)
    requires Unsettled(h, id, job) && h.Alterable() && Baseline(baseline, previous)
    requires h.world.device.active == Some(previous) && h.world.device.releases == baseline.releases
    modifies h
    ensures h.Good()
    ensures !o.Crashed? ==> RolledBack(h, id, job, j)
    ensures Smooth(h.fate, old(h.tick), 5) && CutOff(h.fate(old(h.tick) + 5)) ==>
              o.Crashed? && h.world == World(old(h.world.device).(running := {}), old(h.world.jobs)) && h.tick == old(h.tick) + 6
    ensures old(h.Troubles()) <= h.Troubles() && (old(h.Troubles()) == h.Troubles() <==> o.Done?)
    ensures o.Done? ==> h.tick == old(h.tick) + (if job.runnerWasRunning == Some(true) then 26 else 24)
    ensures o.Done? ==>
              Reverted(h, id, j) && h.world.device.active == Some(previous) && h.world.device.evidence == old(h.world.device.evidence)
  {
    hide Failures, LawfulRun, Unheard, RunnerBefore, Checkpointed, Lagging, Danger, Owned, RunnerUp;
    j := job.(status := RestoringPrevious);
    o := RestorePrevious(h, previous, baseline, job.runnerWasRunning.value);
    if Staged(h, id, job) { StagedIsAlterable(h, id, job); }
    if !o.Done? { return; }
    j := job.(status := Failed);
    o := Conclude(h, id, job);
  }

  /** Rolls back.  The first journal write is allowed to fail; the restore then runs
      all the same. */
  method Rollback(h: Host, id: Id, job: Job, previous: Active, baseline: Device) returns (o: Outcome, j: Job)
    requires Baseline(baseline, previous) && job.status == Staging
    requires h.world.device.active == Some(previous) && h.world.device.releases == baseline.releases
    requires || Journaled(h, id, job)
             || (Staged(h, id, job) && h.world.device == baseline && h.run.Step? && h.run.actor == Refused(StoppingServices))
    modifies h
    ensures h.Good()
    ensures !o.Crashed? ==> RolledBack(h, id, job, j)
    ensures h.fate(old(h.tick)).outcome.Error? && Smooth(h.fate, old(h.tick) + 1, 5) && CutOff(h.fate(old(h.tick) + 6)) ==>
              o.Crashed? && h.world == World(old(h.world.device).(running := {}), old(h.world.jobs)) && h.tick == old(h.tick) + 7
    ensures old(h.Troubles()) + Bad(h.fate(old(h.tick)).outcome) <= h.Troubles()
    ensures old(h.Troubles()) + Bad(h.fate(old(h.tick)).outcome) == h.Troubles() <==> o.Done? || h.fate(old(h.tick)).outcome.Crashed?
    ensures o.Done? ==> h.tick == old(h.tick) + (if job.runnerWasRunning == Some(true) then 27 else 25)
    ensures o.Done? ==>
              Reverted(h, id, j) && h.world.device.active == Some(previous) && h.world.device.evidence == old(h.world.device.evidence)
  {
    hide Failures, Smooth, CutOff, RolledBack, Reverted, Settled, RunnerUp, Checkpointed, Lagging, Danger, Owned;
    o, j := MarkPhase(h, id, job, RestoringPrevious);
    if o.Crashed? { return; }
    UnsettledIsAlterable(h, id, job);
    hide LawfulRun, RunnerBefore;
    o, j := RestoreAndConclude(h, id, job, previous, baseline);
  }
}
