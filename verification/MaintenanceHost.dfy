/** The machine the executor runs on.  Every change goes through `Become`, which
    appends it to the recorded run; every operation may succeed, fail, or lose the
    executor process, before or after its effect, as `fate` has it. */
module MaintenanceHost {
  import opened Basics
  import opened Maintenance

  /** The disk content after `persist_job`. */
  function Rewritten(jobs: Jobs, id: Id, job: Job): Jobs {
    jobs.(running := jobs.running[id := Parsed(job.Persisted())])
  }

  /** The next `n` operations all succeed. */
  ghost predicate Smooth(fate: nat -> Fate, tick: nat, n: nat) {
    forall i | tick <= i < tick + n :: fate(i).outcome.Done?
  }

  /** The operation is cut off before it takes effect. */
  ghost predicate CutOff(f: Fate) {
    f.outcome.Crashed? && !f.effect
  }

  class Host {
    var world: World
    var tick: nat
    const fate: nat -> Fate
    const uploads: Id -> Version   // the version the signed upload of a job claims
    ghost const origin: World
    ghost var run: Run

    /** Every step recorded so far obeyed the law, and the invariant holds now. */
    ghost predicate Good()
      reads `world, `run
    {
      run.world == world && Begins(run, origin) && LawfulRun(run)
    }

    /** The Runner state an unfinished upgrade has to return to. */
    ghost function Before(): bool
      reads `run
    {
      RunnerBefore(run)
    }

    /** `actor` may move the installation to `next`. */
    ghost predicate Permitted(actor: Actor, next: World)
      reads `world, `run
    {
      && (actor.Unjournaled? ==> Unheard(run))
      && Lawful(world, actor, next, Before())
      && Invariant(next, if Continues(actor, next) then Before() else RunnerUp(next.device))
    }

    /** How many operations have not succeeded so far. */
    ghost function Troubles(): nat
      reads `tick
    {
      Failures(fate, tick)
    }

    constructor (initial: World, fate: nat -> Fate, uploads: Id -> Version)
      requires Invariant(initial, RunnerUp(initial.device))
      ensures Good() && world == initial && origin == initial && run == Start(initial)
      ensures this.fate == fate && this.uploads == uploads && tick == 0
    {
      this.uploads := uploads;
      this.fate := fate;
      tick := 0;
      world := initial;
      origin := initial;
      run := Start(initial);
    }

    method Become(ghost actor: Actor, next: World)
      requires Good() && Permitted(actor, next)
      modifies `world, `run
      ensures Good() && world == next && run == Step(old(run), actor, next)
    {
      world := next;
      run := Step(run, actor, next);
    }

    method Draw() returns (f: Fate)
      modifies `tick
      ensures f == fate(old(tick)) && tick == old(tick) + 1 && Troubles() == old(Troubles()) + Bad(f.outcome)
    {
      f := fate(tick);
      tick := tick + 1;
    }

    /** A step of which only the outcome matters. */
    method Oracle() returns (o: Outcome)
      modifies `tick
      ensures o == fate(old(tick)).outcome && tick == old(tick) + 1 && Troubles() == old(Troubles()) + Bad(o)
    {
      var f := Draw();
      o := f.outcome;
    }

    // ------------------------------------------------------------- the journal

    lemma MayBeRefused(status: Status)
      requires Good()
      ensures Permitted(Refused(status), world)
    {
    }

    /** One atomic replacement of the running job's file. */
    method Persist(id: Id, job: Job) returns (o: Outcome)
      requires Good() && id in world.jobs.running
      requires Permitted(Maintenance, World(world.device, Rewritten(world.jobs, id, job)))
      modifies this
      ensures Good() && world.device == old(world.device)
      ensures o == fate(old(tick)).outcome && tick == old(tick) + 1 && Troubles() == old(Troubles()) + Bad(o)
      ensures o.Done? ==> world.jobs == Rewritten(old(world.jobs), id, job)
      ensures o.Done? && job.status.Terminal() ==> world.jobs.running[id].Parsed? && world.jobs.running[id].job.runnerWasRunning.None?
      ensures o.Error? ==> world.jobs == old(world.jobs) && run == Step(old(run), Refused(job.status), world)
      ensures o.Error? ==> Before() == old(Before())
      ensures o.Crashed? ==> world.jobs == if fate(old(tick)).effect then Rewritten(old(world.jobs), id, job) else old(world.jobs)
      ensures o.Done? ==> Before() == if Checkpointed(world.jobs) then old(Before()) else RunnerUp(world.device)
    {
      var f := Draw();
      o := f.outcome;
      if o.Done? || (o.Crashed? && f.effect) {
        Become(Maintenance, World(world.device, Rewritten(world.jobs, id, job)));
      } else if o.Error? {
        MayBeRefused(job.status);
        Become(Refused(job.status), world);
      }
    }

    /** One atomic change outside the danger zone. */
    method Write(next: Device) returns (o: Outcome)
      requires Good() && Permitted(Maintenance, World(next, world.jobs)) && !Danger(world.jobs)
      modifies this
      ensures Good() && world.jobs == old(world.jobs)
      ensures o == fate(old(tick)).outcome && tick == old(tick) + 1 && Troubles() == old(Troubles()) + Bad(o)
      ensures world.device == if o.Done? || fate(old(tick)).effect then next else old(world.device)
      ensures Before() == old(Before()) || Before() == RunnerUp(world.device)
    {
      var f := Draw();
      o := f.outcome;
      if o.Done? || f.effect {
        Become(Maintenance, World(next, world.jobs));
      }
    }

    // --------------------------------------- services and pointers in an upgrade

    /** The journal on disk says that services may change, or a rollback runs
        although neither of its journal writes reached the disk. */
    ghost predicate Alterable()
      reads `world, `run
    {
      && !Owned(world.jobs)
      && Exclusive(world.device)
      && (Checkpointed(world.jobs) || (!Danger(world.jobs) && Lagging(world.jobs) && Consistent(world.device) && Unheard(run)))
    }

    ghost predicate MayBecome(next: Device)
      reads `world
    {
      && Exclusive(next)
      && next.active == world.device.active
      && (Checkpointed(world.jobs) || (Consistent(next) && OnlyUnits(world.device, next)))
    }

    method Alter(next: Device)
      requires Good() && Alterable() && MayBecome(next)
      modifies `world, `run
      ensures Good() && Alterable() && world == World(next, old(world.jobs)) && Before() == old(Before())
    {
      ghost var actor := if Checkpointed(world.jobs) then Maintenance else Unjournaled;
      Become(actor, World(next, world.jobs));
    }

    /** One atomic file or link replacement: an error keeps the old content. */
    method Replace(next: Device) returns (o: Outcome)
      requires Good() && Alterable() && MayBecome(next)
      modifies this
      ensures Good() && Alterable() && world.jobs == old(world.jobs) && Before() == old(Before())
      ensures o == fate(old(tick)).outcome && tick == old(tick) + 1 && Troubles() == old(Troubles()) + Bad(o)
      ensures world.device == if o.Done? || (o.Crashed? && fate(old(tick)).effect) then next else old(world.device)
    {
      var f := Draw();
      o := f.outcome;
      if o.Done? || (o.Crashed? && f.effect) {
        Alter(next);
      }
    }

    /** The commit point of an upgrade: one atomic write of `active_slot`. */
    method Commit(next: Active) returns (o: Outcome)
      requires Good() && Alterable() && Checkpointed(world.jobs)
      requires world.device.active.Some? && world.device.active.value.version < next.version
      modifies this
      ensures Good() && world.jobs == old(world.jobs) && Before() == old(Before())
      ensures o == fate(old(tick)).outcome && tick == old(tick) + 1 && Troubles() == old(Troubles()) + Bad(o)
      ensures world.device == if o.Done? || (o.Crashed? && fate(old(tick)).effect)
                              then old(world.device).(active := Some(next))
                              else old(world.device)
    {
      var f := Draw();
      o := f.outcome;
      if o.Done? || (o.Crashed? && f.effect) {
        Become(Maintenance, World(world.device.(active := Some(next)), world.jobs));
      }
    }

    /** A service-manager command: even a reported failure may have taken effect. */
    method Command(next: Device) returns (o: Outcome)
      requires Good() && Alterable() && MayBecome(next)
      modifies this
      ensures Good() && Alterable() && world.jobs == old(world.jobs) && Before() == old(Before())
      ensures o == fate(old(tick)).outcome && tick == old(tick) + 1 && Troubles() == old(Troubles()) + Bad(o)
      ensures world.device == if o.Done? || fate(old(tick)).effect then next else old(world.device)
    {
      var f := Draw();
      o := f.outcome;
      if o.Done? || f.effect {
        Alter(next);
      }
    }

    /** A probe that succeeds only for a unit that is up; when it fails, the unit may turn out
        not to have stayed up. */
    method Probe(unit: Unit) returns (o: Outcome)
      requires Good() && Alterable() && MayBecome(world.device.(running := world.device.running - {unit}))
      modifies this
      ensures Good() && Alterable() && world.jobs == old(world.jobs) && Before() == old(Before())
      ensures tick == old(tick) + 1 && Troubles() == old(Troubles()) + Bad(fate(old(tick)).outcome)
      ensures var f := fate(old(tick));
              && o == (if f.outcome.Done? && unit !in old(world.device.running) then Error else f.outcome)
              && world.device == if !f.outcome.Done? && f.partial
                                 then old(world.device.(running := world.device.running - {unit}))
                                 else old(world.device)
    {
      var f := Draw();
      o := f.outcome;
      if o.Done? {
        if unit !in world.device.running { o := Error; }
      } else if f.partial {
        Alter(world.device.(running := world.device.running - {unit}));
      }
    }

    /** Verifying a release's signature succeeds only for a release that is there. */
    method Verify(version: Version) returns (o: Outcome)
      modifies `tick
      ensures tick == old(tick) + 1 && Troubles() == old(Troubles()) + Bad(fate(old(tick)).outcome)
      ensures o == if fate(old(tick)).outcome.Done? && version !in world.device.releases then Error else fate(old(tick)).outcome
    {
      o := Oracle();
      if o.Done? && version !in world.device.releases {
        o := Error;
      }
    }

    /** Several definition files are replaced one after another. */
    method InstallAssets(assets: Assets) returns (o: Outcome)
      requires Good() && Alterable()
      requires MayBecome(world.device.(assets := assets))
      requires world.device.assets != assets ==> MayBecome(world.device.(assets := Mixed))
      modifies this
      ensures Good() && Alterable() && world.jobs == old(world.jobs) && Before() == old(Before())
      ensures world.device == old(world.device).(assets := world.device.assets)
      ensures o == fate(old(tick)).outcome && tick == old(tick) + 1 && Troubles() == old(Troubles()) + Bad(o)
      ensures var f := fate(old(tick));
              world.device.assets == if o.Done? || f.effect
                                     then assets
                                     else if f.partial && old(world.device.assets) != assets then Mixed else old(world.device.assets)
    {
      var f := Draw();
      o := f.outcome;
      if o.Done? || f.effect {
        Alter(world.device.(assets := assets));
      } else if f.partial && world.device.assets != assets {
        Alter(world.device.(assets := Mixed));
      }
    }
  }
}
