/** The installation as the maintenance executor sees it: the durable files, the
    running and enabled units, and the three job directories.  Everything here is
    a value; `MaintenanceHost` holds one such value and changes it step by step. */
module Maintenance {
  import opened Basics

  /** Position of a release in the semantic-version order. */
  type Version = nat

  /** Position of a job file in the file-name order. */
  type Id = nat

  datatype Slot = Blue | Green {
    function Other(): Slot {
      if Blue? then Green else Blue
    }
  }

  datatype Unit = Control(slot: Slot) | Runner | SlotRunner(slot: Slot)

  /** `active_slot.json`: the commit record of an upgrade. */
  datatype Active = Active(slot: Slot, version: Version, localRunner: Option<nat>) {
    function RunnerUnit(): Unit {
      if localRunner.Some? then SlotRunner(slot) else Runner
    }
  }

  /** Service definitions are several files, so an interrupted install can mix releases. */
  datatype Assets = Of(version: Version) | Mixed

  /** Durable release pointers and the state of the service manager. */
  datatype Device = Device(
    active: Option<Active>,
    link: map<Slot, Version>,
    current: Version,
    upstreams: Slot,        // the proxy's upstream file
    proxy: Slot,            // what the proxy has loaded
    selected: Version,
    cli: Version,
    assets: Assets,
    releases: set<Version>,
    running: set<Unit>,
    enabled: set<Unit>,
    evidence: bool)         // an online journal, preparation or switchback exists

  datatype Mode = InPlace | BlueGreen

  datatype Operation = Upgrade | DeleteVersion(version: Version)

  datatype Status =
    | Queued | Verifying | Staging
    | StoppingServices | RestoringPrevious | StartingCandidate | Migrating
    | SwitchingTraffic | DrainingPrevious
    | Succeeded | Failed
  {
    predicate Terminal() {
      Succeeded? || Failed?
    }

    /** The statuses under which the executor has not touched a service yet. */
    predicate Preparing() {
      Queued? || Verifying? || Staging?
    }
  }

  datatype Job = Job(
    id: Id,
    operation: Operation,
    status: Status,
    mode: Option<Mode>,
    runnerWasRunning: Option<bool>,
    currentVersion: Version,
    targetVersion: Option<Version>,
    previousRelease: Option<Version>)
  {
    /** An unfinished upgrade whose journal says services may have changed. */
    predicate Touching() {
      operation.Upgrade? && !status.Terminal() && !status.Preparing()
    }

    predicate Online() {
      mode == Some(BlueGreen)
    }

    /** What reaches the disk: a terminal record drops the Runner checkpoint. */
    function Persisted(): Job {
      if status.Terminal() then this.(runnerWasRunning := None) else this
    }
  }

  datatype File = Corrupt | Parsed(job: Job)

  datatype Jobs = Jobs(queued: map<Id, File>, running: map<Id, File>, completed: map<Id, Job>) {
    function Ids(): set<Id> {
      queued.Keys + running.Keys + completed.Keys
    }
  }

  datatype World = World(device: Device, jobs: Jobs)

  // ---------------------------------------------------------------- devices

  /** Before the first upgrade there is no commit record: the blue slot runs `current`. */
  function Effective(d: Device): Active {
    if d.active.Some? then d.active.value else Active(Blue, d.current, None)
  }

  predicate RunnerUp(d: Device) {
    Effective(d).RunnerUnit() in d.running
  }

  /** At most one Control instance runs and at most one starts at boot. */
  predicate Exclusive(d: Device) {
    && !(Control(Blue) in d.running && Control(Green) in d.running)
    && !(Control(Blue) in d.enabled && Control(Green) in d.enabled)
  }

  /** Every release pointer names the committed release. */
  predicate Consistent(d: Device) {
    var a := Effective(d);
    && (d.active.Some? ==> a.slot in d.link && d.link[a.slot] == a.version)
    && d.current == a.version
    && d.upstreams == a.slot
    && d.proxy == a.slot
    && d.assets == Of(a.version)
    && a.version in d.releases
    && d.running <= {Control(a.slot), a.RunnerUnit()}
    && d.enabled <= {Control(a.slot), a.RunnerUnit()}
  }

  /** A consistent installation whose committed Control is up and will come back. */
  predicate Settled(d: Device) {
    var a := Effective(d);
    && Consistent(d)
    && d.selected == a.version
    && Control(a.slot) in d.running
    && Control(a.slot) in d.enabled
    && (a.RunnerUnit() in d.running <==> a.RunnerUnit() in d.enabled)
  }

  /** What a step that is not part of an upgrade may do to the installation. */
  predicate Undisturbed(b: Device, a: Device) {
    var active := Effective(b);
    && Effective(a) == active
    && a.current == b.current
    && a.upstreams == b.upstreams
    && a.proxy == b.proxy
    && a.assets == b.assets
    && a.selected == b.selected
    && a.evidence == b.evidence
    && (active.slot in b.link && b.active.Some? ==> active.slot in a.link && a.link[active.slot] == b.link[active.slot])
    && (forall u | u in {Control(active.slot), active.RunnerUnit()} ::
          (u in a.running <==> u in b.running) && (u in a.enabled <==> u in b.enabled))
    && (a.cli == b.cli || a.cli == active.version)
  }

  /** The commit record appears once, and afterwards only moves to a newer release. */
  predicate Forward(b: Option<Active>, a: Option<Active>) {
    || a == b
    || b.None?
    || (a.Some? && a.value.version > b.value.version)
  }

  // ------------------------------------------------------------------- jobs

  predicate Touched(jobs: Jobs, online: bool) {
    exists id ::
      && id in jobs.running && jobs.running[id].Parsed?
      && jobs.running[id].job.Touching() && jobs.running[id].job.Online() == online
  }

  /** A maintenance upgrade is unfinished and may have changed services. */
  predicate Danger(jobs: Jobs) {
    Touched(jobs, false)
  }

  /** The online owner holds both slots. */
  predicate Owned(jobs: Jobs) {
    Touched(jobs, true)
  }

  /** A maintenance upgrade is unfinished and its Runner checkpoint is durable. */
  predicate Checkpointed(jobs: Jobs) {
    exists id ::
      && id in jobs.running && jobs.running[id].Parsed?
      && jobs.running[id].job.Touching() && !jobs.running[id].job.Online()
      && jobs.running[id].job.runnerWasRunning.Some?
  }

  /** A checkpoint is durable, but the record still says that nothing was touched. */
  predicate Lagging(jobs: Jobs) {
    exists id ::
      && id in jobs.running && jobs.running[id].Parsed?
      && jobs.running[id].job.operation.Upgrade? && jobs.running[id].job.status == Staging
      && jobs.running[id].job.runnerWasRunning.Some?
  }

  /** No identity is in two directories, and at most one job is running. */
  predicate Filed(jobs: Jobs) {
    && jobs.queued.Keys !! jobs.running.Keys
    && jobs.queued.Keys !! jobs.completed.Keys
    && jobs.running.Keys !! jobs.completed.Keys
    && (forall x, y | x in jobs.running && y in jobs.running :: x == y)
    && (forall x | x in jobs.queued && jobs.queued[x].Parsed? :: jobs.queued[x].job.status == Queued)
    && (forall x | x in jobs.completed :: jobs.completed[x].status.Terminal())
  }

  /** A claimed success names the committed release. */
  predicate Truthful(j: Job, d: Device) {
    j.operation.Upgrade? && j.status.Succeeded? ==> j.targetVersion == Some(Effective(d).version)
  }

  // ------------------------------------------------------- the law of a step

  /** What holds between any two steps; `before` is the Runner state to return to. */
  predicate Invariant(w: World, before: bool) {
    && Filed(w.jobs)
    && (!Owned(w.jobs) ==> Exclusive(w.device))
    && (!Owned(w.jobs) && !Danger(w.jobs) ==> Consistent(w.device))
    && (forall id | id in w.jobs.running && w.jobs.running[id].Parsed? ::
          var j := w.jobs.running[id].job;
          && Truthful(j, w.device)
          && (j.Touching() || (j.operation.Upgrade? && j.status.Succeeded?) ==> j.previousRelease.Some?)
          && (j.Touching() && !j.Online() && j.runnerWasRunning.Some? ==> j.runnerWasRunning == Some(before)))
    && (Danger(w.jobs) && !Checkpointed(w.jobs) ==> before == RunnerUp(w.device))
  }

  /** Who takes a step.  `Refused`: a journal write came back with an error.
      `Unjournaled`: a rollback goes on although its own journal write was refused. */
  datatype Actor = Maintenance | Refused(status: Status) | Unjournaled | OnlineOwner | Reboot | Submitter

  /** No identity is lost, and a completed record is never replaced. */
  predicate Conserved(b: Jobs, a: Jobs) {
    && b.Ids() <= a.Ids()
    && (forall id | id in b.completed :: id in a.completed && a.completed[id] == b.completed[id])
  }

  /** What an archived upgrade says about the installation it leaves behind. */
  predicate Archived(b: Jobs, a: World) {
    forall id | id in a.jobs.completed && id !in b.completed ::
      var j := a.jobs.completed[id];
      && Consistent(a.device) && Exclusive(a.device)
      && Truthful(j, a.device)
      && (j.operation.Upgrade? && j.status.Succeeded? ==> a.device.cli == Effective(a.device).version)
  }

  /** A record never moves back: an unfinished upgrade stays one, with its checkpoint,
      until it is terminal, and a terminal record stays terminal until it is archived. */
  predicate Advances(b: Jobs, a: Jobs) {
    forall id | id in b.running && b.running[id].Parsed? ::
      var j := b.running[id].job;
      && (j.status.Terminal() ==>
            id in a.completed || (id in a.running && a.running[id].Parsed? && a.running[id].job.status.Terminal()))
      && (j.Touching() ==>
            && id in a.running && a.running[id].Parsed?
            && var k := a.running[id].job;
               k.status.Terminal() || (k.Touching() && (j.runnerWasRunning.Some? ==> k.runnerWasRunning == j.runnerWasRunning)))
  }

  /** A job starts running only in an empty directory, and is archived from there. */
  predicate Filing(b: Jobs, a: Jobs) {
    && (a.running.Keys <= b.running.Keys || b.running.Keys == {})
    && a.completed.Keys <= b.completed.Keys + b.running.Keys
  }

  /** Only what runs, what starts at boot and the selection may differ, and the selection
      only by naming the committed release. */
  predicate OnlyUnits(b: Device, a: Device) {
    && a == b.(running := a.running, enabled := a.enabled, selected := a.selected)
    && (a.selected == b.selected || a.selected == Effective(b).version)
  }

  /** The two-state law of one step of a maintenance run. */
  predicate Lawful(b: World, actor: Actor, a: World, before: bool) {
    && Conserved(b.jobs, a.jobs)
    && Archived(b.jobs, a)
    && Forward(b.device.active, a.device.active)
    && (Owned(a.jobs) || Exclusive(a.device))
    && match actor {
         case Submitter => a.device == b.device && a.jobs.running == b.jobs.running && a.jobs.completed == b.jobs.completed
         case Reboot =>
           && a.jobs == b.jobs
           && a.device == b.device.(running := b.device.enabled, proxy := b.device.upstreams)
         case OnlineOwner => true
         case Refused(_) => a == b
         case Unjournaled =>
           && !Owned(b.jobs) && !Danger(b.jobs) && Lagging(b.jobs) && a.jobs == b.jobs
           && OnlyUnits(b.device, a.device) && Consistent(a.device)
         case Maintenance =>
           && (Owned(b.jobs) ==> a == b)
           && (a.device == b.device || a.jobs == b.jobs)
           && a.jobs.Ids() == b.jobs.Ids()
           && Advances(b.jobs, a.jobs) && Filing(b.jobs, a.jobs)
           && (!Owned(b.jobs) && !Checkpointed(b.jobs) ==> Undisturbed(b.device, a.device))
           && (Danger(b.jobs) && !Danger(a.jobs) ==> Settled(a.device) && (Checkpointed(b.jobs) ==> RunnerUp(a.device) == before))
       }
  }

  // -------------------------------------------------------------------- runs

  /** Everything that has happened to an installation, one step at a time. */
  datatype Run = Start(world: World) | Step(prior: Run, actor: Actor, world: World)

  /** A step that says nothing new about when the upgrade began. */
  predicate Continues(actor: Actor, w: World) {
    Checkpointed(w.jobs) || actor.Unjournaled? || actor.Refused?
  }

  /** The Runner state to return to: what it was the last time no checkpointed
      upgrade was unfinished. */
  function RunnerBefore(r: Run): bool {
    match r
    case Start(w) => RunnerUp(w.device)
    case Step(p, actor, w) => if Continues(actor, w) then RunnerBefore(p) else RunnerUp(w.device)
  }

  /** Neither StoppingServices nor, right after it, RestoringPrevious could be written. */
  predicate BothRefused(r: Run) {
    && r.Step? && r.actor == Refused(RestoringPrevious)
    && r.prior.Step? && r.prior.actor == Refused(StoppingServices)
  }

  /** A rollback is under way that the disk knows nothing of. */
  predicate Unheard(r: Run) {
    BothRefused(r) || (r.Step? && r.actor.Unjournaled? && Unheard(r.prior))
  }

  predicate LawfulRun(r: Run) {
    match r
    case Start(w) => Invariant(w, RunnerBefore(r))
    case Step(p, actor, w) =>
      && LawfulRun(p)
      && (actor.Unjournaled? ==> Unheard(p))
      && Lawful(p.world, actor, w, RunnerBefore(p))
      && Invariant(w, RunnerBefore(r))
  }

  /** The installation the run set out from. */
  predicate Begins(r: Run, initial: World) {
    match r
    case Start(w) => w == initial
    case Step(p, _, _) => Begins(p, initial)
  }
}
