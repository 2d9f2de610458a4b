/** What a lawful run means for the operator: statements about all the states of a
    run, however many crashes, restarts, rollbacks and recoveries it contains. */
module MaintenanceRuns {
  import opened Basics
  import opened Maintenance

  /** `p` is `r`, or an earlier part of it. */
  predicate Within(p: Run, r: Run) {
    p == r || (r.Step? && Within(p, r.prior))
  }

  lemma {:induction false} EarlierIsLawful(p: Run, r: Run)
    requires LawfulRun(r) && Within(p, r)
    ensures LawfulRun(p)
  {
    if p != r {
      EarlierIsLawful(p, r.prior);
    }
  }

  /** Once there is a commit record it stays, and every other one that ever replaces
      it names a strictly newer release. */
  lemma {:induction false} CommitNeverMovesBack(p: Run, r: Run)
    requires LawfulRun(r) && Within(p, r) && p.world.device.active.Some?
    ensures r.world.device.active.Some?
    ensures || r.world.device.active == p.world.device.active
            || p.world.device.active.value.version < r.world.device.active.value.version
  {
    if p != r {
      CommitNeverMovesBack(p, r.prior);
    }
  }

  /** At no point of a run do two Control slots run, or start at boot, unless the
      online owner holds both slots. */
  lemma {:induction false} OneControlAtATime(p: Run, r: Run)
    requires LawfulRun(r) && Within(p, r)
    ensures Owned(p.world.jobs) || Exclusive(p.world.device)
  {
    EarlierIsLawful(p, r);
  }

  /** An identity stays filed, in exactly one directory, and a completed record is
      the same record ever after. */
  lemma {:induction false} JobsAreConserved(p: Run, r: Run, id: Id)
    requires LawfulRun(r) && Within(p, r) && id in p.world.jobs.Ids()
    ensures id in r.world.jobs.Ids()
    ensures !(id in r.world.jobs.queued && id in r.world.jobs.running)
    ensures !(id in r.world.jobs.queued && id in r.world.jobs.completed)
    ensures !(id in r.world.jobs.running && id in r.world.jobs.completed)
    ensures id in p.world.jobs.completed ==>
              id in r.world.jobs.completed && r.world.jobs.completed[id] == p.world.jobs.completed[id]
  {
    if p != r {
      JobsAreConserved(p, r.prior, id);
      assert r.prior.world.jobs.Ids() <= r.world.jobs.Ids();
    }
    assert Filed(r.world.jobs);
  }

  /** Every record archived during a run was archived in a state where all pointers
      named the committed release; a success names that release, and the stable CLI
      had already followed it. */
  lemma {:induction false} ArchivedJobsAreHonest(r: Run, initial: World, id: Id) returns (p: Run)
    requires LawfulRun(r) && Begins(r, initial) && id in r.world.jobs.completed && id !in initial.jobs.completed
    ensures Within(p, r) && p.Step? && id !in p.prior.world.jobs.completed
    ensures id in p.world.jobs.completed && p.world.jobs.completed[id] == r.world.jobs.completed[id]
    ensures Consistent(p.world.device) && Exclusive(p.world.device)
    ensures var j := r.world.jobs.completed[id];
            j.operation.Upgrade? && j.status.Succeeded? ==>
              && j.targetVersion == Some(Effective(p.world.device).version)
              && p.world.device.cli == Effective(p.world.device).version
  {
    if id in r.prior.world.jobs.completed {
      p := ArchivedJobsAreHonest(r.prior, initial, id);
    } else {
      p := r;
    }
  }

  // ------------------------------------------------------------ when the disk is told

  /** From `p` to `r` the online owner did nothing, and of the two writes that announce
      and undo the stop of the services, one always got through. */
  predicate Heard(p: Run, r: Run) {
    p == r || (r.Step? && Heard(p, r.prior) && !r.actor.OnlineOwner? && !BothRefused(r))
  }

  lemma {:induction false} HeardIsWithin(p: Run, r: Run)
    requires Heard(p, r)
    ensures Within(p, r)
  {
    if p != r {
      HeardIsWithin(p, r.prior);
    }
  }

  /** A step goes unjournaled only in a rollback whose own record, and the one of the
      upgrade it undoes, were both refused, one right after the other. */
  lemma {:induction false} UnjournaledMeansRefused(r: Run) returns (q: Run)
    requires LawfulRun(r) && r.Step? && r.actor.Unjournaled?
    ensures Within(q, r.prior) && BothRefused(q) && q.world.jobs == r.world.jobs
    ensures Lagging(r.world.jobs)
  {
    q := r.prior;
    if !BothRefused(q) {
      q := UnjournaledMeansRefused(q);
    }
  }

  /** While the disk is told, every step is journaled. */
  lemma {:induction false} HeardIsJournaled(p: Run, r: Run)
    requires LawfulRun(r) && Heard(p, r) && !Unheard(p)
    ensures !Unheard(r)
    ensures p != r ==> !r.actor.Unjournaled?
  {
    if p != r {
      HeardIsJournaled(p, r.prior);
    }
  }

  // ---------------------------------------------------------------- write-ahead

  /** From `p` to `r` the machine was not restarted, and every durable record stayed
      before StoppingServices. */
  predicate QuietStretch(p: Run, r: Run) {
    && !Danger(r.world.jobs) && !Owned(r.world.jobs)
    && (p == r || (r.Step? && QuietStretch(p, r.prior) && !r.actor.Reboot?))
  }

  lemma UndisturbedTransitive(a: Device, b: Device, c: Device)
    requires Undisturbed(a, b) && Undisturbed(b, c) && Consistent(a) && Consistent(b)
    requires b.active.None? ==> a.active.None?
    ensures Undisturbed(a, c)
  {
  }

  lemma {:induction false} QuietStart(p: Run, r: Run)
    requires QuietStretch(p, r)
    ensures !Danger(p.world.jobs) && !Owned(p.world.jobs)
  {
    if p != r {
      QuietStart(p, r.prior);
    }
  }

  /** While every durable record says that nothing was touched, nothing was, as long as the
      disk is told: the committed release, its pointers, its Control and its Runner are as
      before. */
  lemma {:induction false} WriteAhead(p: Run, r: Run)
    requires LawfulRun(r) && QuietStretch(p, r) && Heard(p, r) && !Unheard(p)
    ensures Undisturbed(p.world.device, r.world.device)
  {
    if p != r {
      WriteAhead(p, r.prior);
      HeardIsWithin(p, r.prior);
      HeardIsJournaled(p, r);
      EarlierIsLawful(p, r.prior);
      if p.world.device.active.Some? {
        CommitNeverMovesBack(p, r.prior);
      }
      QuietStart(p, r);
      UndisturbedTransitive(p.world.device, r.prior.world.device, r.world.device);
    }
  }

  /** The same read off the records alone: no upgrade has its checkpoint while it says
      Staging. */
  predicate NoneStaged(p: Run, r: Run) {
    !Lagging(r.world.jobs) && (p == r || (r.Step? && NoneStaged(p, r.prior) && !r.actor.OnlineOwner?))
  }

  lemma {:induction false} NoneStagedIsWithin(p: Run, r: Run)
    requires NoneStaged(p, r)
    ensures Within(p, r)
  {
    if p != r {
      NoneStagedIsWithin(p, r.prior);
    }
  }

  lemma {:induction false} WriteAheadByRecords(p: Run, r: Run)
    requires LawfulRun(r) && QuietStretch(p, r) && NoneStaged(p, r)
    ensures Undisturbed(p.world.device, r.world.device)
  {
    if p != r {
      WriteAheadByRecords(p, r.prior);
      NoneStagedIsWithin(p, r.prior);
      EarlierIsLawful(p, r.prior);
      if p.world.device.active.Some? {
        CommitNeverMovesBack(p, r.prior);
      }
      QuietStart(p, r);
      UndisturbedTransitive(p.world.device, r.prior.world.device, r.world.device);
    }
  }

  /** A step the executor may take next that leaves every record before StoppingServices. */
  ghost predicate MayFollow(p: Run, actor: Actor, w: World) {
    && (actor.Maintenance? || actor.Refused? || actor.Unjournaled?)
    && LawfulRun(Step(p, actor, w))
    && !Danger(w.jobs) && !Owned(w.jobs)
  }

  /** A rollback the disk does not know of may flip any of the committed units. */
  function Flipped(d: Device, u: Unit): Device {
    d.(running := if u in d.running then d.running - {u} else d.running + {u})
  }

  lemma MayFlip(p: Run, u: Unit)
    requires LawfulRun(p) && !Danger(p.world.jobs) && !Owned(p.world.jobs) && Unheard(p) && Lagging(p.world.jobs)
    requires u == Control(Effective(p.world.device).slot) || u == Effective(p.world.device).RunnerUnit()
    ensures MayFollow(p, Unjournaled, World(Flipped(p.world.device, u), p.world.jobs))
  {
    var d := p.world.device;
    assert Effective(Flipped(d, u)) == Effective(d);
    hide Danger, Owned, Lagging, Checkpointed, Unheard;
    assert Invariant(p.world, RunnerBefore(p));
  }

  /** Exactly when: the executor may disturb the services under records that say nothing
      was touched if and only if it is in a rollback whose two writes were both refused,
      over a record that is Staging with its checkpoint. */
  lemma WriteAheadExactly(p: Run)
    requires LawfulRun(p) && !Danger(p.world.jobs) && !Owned(p.world.jobs)
    ensures (forall actor, w | MayFollow(p, actor, w) :: Undisturbed(p.world.device, w.device))
            <==> !(Unheard(p) && Lagging(p.world.jobs))
  {
    if Unheard(p) && Lagging(p.world.jobs) {
      var u := Control(Effective(p.world.device).slot);
      var w := World(Flipped(p.world.device, u), p.world.jobs);
      MayFlip(p, u);
      assert !Undisturbed(p.world.device, w.device);
    } else {
      assert !Checkpointed(p.world.jobs);
      forall actor, w | MayFollow(p, actor, w) ensures Undisturbed(p.world.device, w.device) {
        assert LawfulRun(Step(p, actor, w));
      }
    }
  }

  /** As `QuietStretch`, but with restarts. */
  predicate UnmarkedStretch(p: Run, r: Run) {
    || p == r
    || (&& r.Step? && UnmarkedStretch(p, r.prior) && !r.actor.OnlineOwner?
        && !Danger(r.prior.world.jobs) && !Owned(r.prior.world.jobs))
  }

  /** The release pointers keep the law without exception: while every durable record
      says that nothing was touched, all of them name the release they named before. */
  lemma {:induction false} PointersAreWrittenAhead(p: Run, r: Run)
    requires LawfulRun(r) && UnmarkedStretch(p, r) && !Danger(r.world.jobs) && !Owned(r.world.jobs)
    ensures Effective(r.world.device) == Effective(p.world.device) && Consistent(r.world.device)
  {
    if p != r {
      PointersAreWrittenAhead(p, r.prior);
    }
  }

  // -------------------------------------------------------------------- the Runner

  /** The last state in which no checkpointed upgrade was unfinished. */
  function BeforeTheUpgrade(r: Run): Run {
    if r.Step? && Continues(r.actor, r.world) then BeforeTheUpgrade(r.prior) else r
  }

  lemma {:induction false} RunnerBeforeIsObserved(r: Run)
    ensures Within(BeforeTheUpgrade(r), r)
    ensures RunnerBefore(r) == RunnerUp(BeforeTheUpgrade(r).world.device)
  {
    if r.Step? && Continues(r.actor, r.world) {
      RunnerBeforeIsObserved(r.prior);
    }
  }

  /** What the durable checkpoint of an unfinished upgrade says is what was observed when
      the upgrade began, however many runs, crashes and recoveries ago. */
  lemma CheckpointIsObserved(r: Run, id: Id)
    requires LawfulRun(r) && id in r.world.jobs.running && r.world.jobs.running[id].Parsed?
    requires var j := r.world.jobs.running[id].job; j.Touching() && !j.Online() && j.runnerWasRunning.Some?
    ensures Within(BeforeTheUpgrade(r), r)
    ensures r.world.jobs.running[id].job.runnerWasRunning == Some(RunnerUp(BeforeTheUpgrade(r).world.device))
  {
    RunnerBeforeIsObserved(r);
    assert Invariant(r.world, RunnerBefore(r));
  }

  /** The committed Runner runs exactly if it starts at boot. */
  predicate Tied(d: Device) {
    Effective(d).RunnerUnit() in d.running <==> Effective(d).RunnerUnit() in d.enabled
  }

  /** From `p` to `r` the online owner never held the slots, and the machine was restarted
      only inside an upgrade, whose checkpoint outlives it, or with a Runner that comes back
      as it was. */
  predicate OursSince(p: Run, r: Run) {
    && !Owned(r.world.jobs)
    && (|| p == r
        || (&& r.Step? && OursSince(p, r.prior)
            && (r.actor.Reboot? ==> Checkpointed(r.prior.world.jobs) || Tied(r.prior.world.device))))
  }

  /** No upgrade is under way. */
  predicate AtRest(p: Run) {
    !Checkpointed(p.world.jobs) && (p.Start? || !Continues(p.actor, p.world))
  }

  /** A checkpoint is dropped only by a terminal record. */
  lemma CheckpointEnds(b: World, a: World)
    requires Filed(b.jobs) && Filed(a.jobs) && Advances(b.jobs, a.jobs) && Checkpointed(b.jobs) && !Checkpointed(a.jobs)
    ensures Danger(b.jobs) && !Danger(a.jobs)
  {
    var id :| id in b.jobs.running && b.jobs.running[id].Parsed?
              && b.jobs.running[id].job.Touching() && !b.jobs.running[id].job.Online()
              && b.jobs.running[id].job.runnerWasRunning.Some?;
    assert forall x | x in a.jobs.running :: x == id;
  }

  /** Where the Runner stands inside any stretch of the run. */
  lemma {:induction false} RunnerSince(p: Run, r: Run)
    requires LawfulRun(r) && Heard(p, r) && AtRest(p) && OursSince(p, r)
    ensures RunnerBefore(r) == RunnerUp(p.world.device)
    ensures !Checkpointed(r.world.jobs) ==> RunnerUp(r.world.device) == RunnerUp(p.world.device)
  {
    if p != r {
      RunnerSince(p, r.prior);
      assert !Unheard(p);
      HeardIsJournaled(p, r);
      if r.actor.Maintenance? && Checkpointed(r.prior.world.jobs) && !Checkpointed(r.world.jobs) {
        CheckpointEnds(r.prior.world, r.world);
      }
    }
  }

  /** When a job is archived, the Runner runs exactly if it ran in any earlier state at rest,
      through whatever upgrades, crashes, recoveries and restarts came between, as long as
      the disk was told. */
  lemma RunnerIsRestored(p: Run, r: Run, id: Id)
    requires LawfulRun(r) && Heard(p, r) && AtRest(p) && OursSince(p, r)
    requires p != r && r.actor.Maintenance? && id in r.world.jobs.completed && id !in r.prior.world.jobs.completed
    ensures RunnerUp(r.world.device) == RunnerUp(p.world.device)
    ensures r.world.jobs.running.Keys == {}
  {
    RunnerSince(p, r);
    var b, a := r.prior.world.jobs, r.world.jobs;
    assert id in b.running && id !in a.running;
    assert forall x | x in b.running :: x == id;
  }

  /** Exactly when: the Runner may be lost under records that say nothing was touched if
      and only if both writes were refused over a staged record. */
  lemma RunnerIsRestoredExactly(p: Run)
    requires LawfulRun(p) && !Danger(p.world.jobs) && !Owned(p.world.jobs)
    ensures (forall actor, w | MayFollow(p, actor, w) :: RunnerUp(w.device) == RunnerUp(p.world.device))
            <==> !(Unheard(p) && Lagging(p.world.jobs))
  {
    if Unheard(p) && Lagging(p.world.jobs) {
      var u := Effective(p.world.device).RunnerUnit();
      var w := World(Flipped(p.world.device, u), p.world.jobs);
      MayFlip(p, u);
      assert RunnerUp(w.device) != RunnerUp(p.world.device);
    } else {
      WriteAheadExactly(p);
    }
  }

  // ------------------------------------------------------------------- ownership

  /** From `p` to `r` the online owner held the slots and did nothing itself. */
  predicate OwnedStretch(p: Run, r: Run) {
    || p == r
    || (r.Step? && OwnedStretch(p, r.prior) && !r.actor.OnlineOwner? && Owned(r.prior.world.jobs))
  }

  /** Maintenance neither stops, terminates nor archives a job the online owner
      holds: only a restart of the machine changes anything else. */
  lemma {:induction false} OwnedJobsAreLeftAlone(p: Run, r: Run)
    requires LawfulRun(r) && OwnedStretch(p, r)
    ensures r.world.jobs.running == p.world.jobs.running
    ensures r.world.jobs.completed == p.world.jobs.completed
    ensures r.world.device == p.world.device.(running := r.world.device.running, proxy := r.world.device.proxy)
  {
    if p != r {
      OwnedJobsAreLeftAlone(p, r.prior);
    }
  }
}
