/** The online executor seen from maintenance: it keeps the contract under which maintenance
    leaves a job to it. */
module OnlineOwnership {
  import opened Basics
  import opened Maintenance
  import opened OnlineCommit
  import opened OnlineSwitchback
  import opened OnlineRecovery
  import opened OnlineRuns
  import MaintenanceService

  /** What the disk of a transition does not say about the installation: slot links, service
      definitions, what runs, what starts at boot unless it was disabled, and the version of a
      CLI that is not the active release's. */
  datatype Surroundings = Surroundings(
    link: map<Slot, Version>, assets: Assets, units: set<Unit>, enabled: set<Unit>, cli: Version)

  /** What it does not say about the jobs; nobody changes it during a transition. */
  datatype Records = Records(queued: map<Id, File>, operation: Id -> Operation, runner: Id -> Option<bool>)

  function JobOf(o: OnlineJob, id: Id, r: Records): Job {
    Job(o.id, r.operation(id), o.status, o.mode, r.runner(id), o.currentVersion, o.targetVersion, o.previousRelease).Persisted()
  }

  /** The CLI is known by the release it comes from. */
  function CliOf(d: Disk, s: Surroundings): Version {
    if d.active.version in d.releases && d.cli == d.releases[d.active.version].cli then d.active.version else s.cli
  }

  function DeviceOf(d: Disk, s: Surroundings): Device {
    Device(Some(d.active), s.link, d.current, d.upstreams, d.live, d.selected.version, CliOf(d, s), s.assets,
           d.releases.Keys, s.units, s.enabled - d.disabled, d.journal.Some? || d.reverse.Some? || d.preparation)
  }

  /** Maintenance sees a transition as long as there is a journal of either direction, or a
      preparation that is not archived. */
  lemma EvidenceShows(d: Disk, s: Surroundings)
    ensures DeviceOf(d, s).evidence <==> !Over(d) || d.preparation
  {
  }

  function JobsOf(d: Disk, r: Records): Jobs {
    Jobs(r.queued,
         map id | id in d.running :: Parsed(JobOf(d.running[id], id, r)),
         map id | id in d.completed :: JobOf(d.completed[id], id, r))
  }

  /** The installation as maintenance sees it. */
  function View(d: Disk, s: Surroundings, r: Records): World {
    World(DeviceOf(d, s), JobsOf(d, r))
  }

  /** Processes, links and definitions are those of one side. */
  predicate Quieted(s: Surroundings, side: Active) {
    && side.slot in s.link && s.link[side.slot] == side.version
    && s.assets == Of(side.version)
    && s.units <= {Control(side.slot), side.RunnerUnit()}
    && Runner !in s.enabled
  }

  /** The job is still in progress. */
  predicate Held(d: Disk, plan: Plan) {
    plan.jobId in d.running && !d.running[plan.jobId].status.Terminal()
  }

  /** A transition between two slots to a newer release with a slot Runner, by an upgrade that
      is filed as maintenance files it. */
  ghost predicate Proper(base: Disk, plan: Plan, r: Records) {
    && plan.previous.version < plan.candidate.version && plan.previous.slot != plan.candidate.slot
    && plan.candidate.localRunner.Some?
    && r.operation(plan.jobId).Upgrade?
    && Filed(JobsOf(base, r))
  }

  /** Of all records only the transition's own has changed, in its status, and it is in one of
      the two directories. */
  predicate InPlace(base: Disk, plan: Plan, d: Disk) {
    var id := plan.jobId;
    && id in base.running && id !in base.completed
    && d.releases == base.releases
    && (|| (&& d.running.Keys == {id} && d.running[id] == base.running[id].(status := d.running[id].status)
            && d.completed == base.completed)
        || (&& d.running.Keys == {} && id in d.completed && d.completed == base.completed[id := d.completed[id]]
            && d.completed[id] == base.running[id].(status := d.completed[id].status) && d.completed[id].status.Terminal()))
  }

  lemma OneRuns(base: Disk, plan: Plan, r: Records)
    requires Ready(base, plan) && Proper(base, plan, r)
    ensures base.running.Keys == {plan.jobId}
  {
    assert plan.jobId in JobsOf(base, r).running;
    forall x | x in base.running ensures x == plan.jobId {
      assert x in JobsOf(base, r).running;
    }
  }

  lemma StaysInPlace(base: Disk, plan: Plan, track: Track, d: Disk, r: Records)
    requires Standing(base, plan, track, d) && Proper(base, plan, r)
    ensures InPlace(base, plan, d)
  {
    OneRuns(base, plan, r);
    hide OldMetadata, CandidateRelease, AcceptsProxy, AcceptsReverse, Filed;
    match track
    case Pending =>
    case Reversing =>
    case Forward(c, p) =>
      assert c.running == base.running && c.completed == base.completed;
    case Back(c, original, p) =>
      assert c.running == base.running && c.completed == base.completed;
  }

  /** Which release and slot a transition that has let go of its job ended on. */
  predicate LetGo(plan: Plan, d: Disk, side: Active, other: Active, status: Status) {
    && d.active == side && d.current == side.version && d.selected.version == side.version
    && side.version in d.releases && Routed(d, side.slot)
    && {Control(other.slot), SlotRunner(other.slot)} <= d.disabled
    && (if plan.jobId in d.running then d.running[plan.jobId].status == status
        else plan.jobId in d.completed && d.completed[plan.jobId].status == status)
    && (status.Succeeded? ==> d.cli == d.releases[side.version].cli)
  }

  lemma LetsGoAtAnEnd(base: Disk, plan: Plan, track: Track, d: Disk)
    requires Standing(base, plan, track, d) && !Held(d, plan)
    ensures || LetGo(plan, d, plan.candidate, plan.previous, Succeeded)
            || LetGo(plan, d, plan.previous, plan.candidate, Failed)
  {
    match track
    case Pending =>
    case Reversing =>
    case Forward(c, p) =>
    case Back(c, original, p) => InterruptedSwitchbackIsReturnable(c, original, p);
  }

  /** On the side it ended on every pointer agrees, and one Control is left. */
  lemma EndIsConsistent(plan: Plan, d: Disk, side: Active, other: Active, status: Status, s: Surroundings)
    requires LetGo(plan, d, side, other, status) && Quieted(s, side)
    requires side.slot != other.slot && side.localRunner.Some?
    ensures Consistent(DeviceOf(d, s)) && Exclusive(DeviceOf(d, s))
    ensures status.Succeeded? ==> DeviceOf(d, s).cli == side.version
  {
    forall u | u in s.enabled - d.disabled ensures u in {Control(side.slot), SlotRunner(side.slot)} {
      match u
      case Runner =>
      case Control(slot) => assert slot == side.slot || slot == other.slot;
      case SlotRunner(slot) => assert slot == side.slot || slot == other.slot;
    }
  }

  lemma ArchivedOnce(base: Disk, plan: Plan, a: Track, d: Disk, b: Track, e: Disk)
    requires Standing(base, plan, a, d) && Standing(base, plan, b, e) && SameWay(a, b)
    requires plan.jobId in d.completed
    ensures plan.jobId in e.completed && e.completed[plan.jobId] == d.completed[plan.jobId]
  {
  }

  /** The same, record by record. */
  predicate OnlyOwn(base: Disk, plan: Plan, d: Disk) {
    && (forall x | x in d.completed && x != plan.jobId :: x in base.completed)
    && (forall x | x in base.completed :: x in d.completed && d.completed[x] == base.completed[x])
    && (forall x | x in d.running :: x == plan.jobId)
    && (plan.jobId in d.running <==> plan.jobId !in d.completed)
    && (plan.jobId in d.completed ==> d.completed[plan.jobId].status.Terminal())
  }

  lemma InPlaceIsOnlyOwn(base: Disk, plan: Plan, d: Disk)
    requires InPlace(base, plan, d)
    ensures OnlyOwn(base, plan, d)
  {
    assert forall x | x in d.running :: x in d.running.Keys;
    if plan.jobId in d.running { assert plan.jobId in d.running.Keys; }
  }

  lemma StaysFiled(base: Disk, plan: Plan, d: Disk, r: Records)
    requires OnlyOwn(base, plan, d) && plan.jobId in base.running && Filed(JobsOf(base, r))
    ensures Filed(JobsOf(d, r))
  {
    var z, a := JobsOf(base, r), JobsOf(d, r);
    assert plan.jobId in z.running && plan.jobId !in z.queued;
    forall x | x in a.running ensures x == plan.jobId { assert x in d.running; }
    forall x | x in a.completed ensures a.completed[x].status.Terminal() && x !in a.queued && x !in a.running {
      assert x in d.completed;
      if x != plan.jobId {
        assert x in base.completed && x in z.completed;
        assert a.completed[x] == z.completed[x];
      }
    }
  }

  lemma SameIds(base: Disk, plan: Plan, d: Disk, r: Records)
    requires OnlyOwn(base, plan, d)
    ensures JobsOf(d, r).Ids() == r.queued.Keys + base.completed.Keys + {plan.jobId}
  {
    var ids := r.queued.Keys + base.completed.Keys + {plan.jobId};
    var a := JobsOf(d, r);
    forall x ensures x in a.Ids() <==> x in ids {
      assert x in a.running <==> x in d.running;
      assert x in a.completed <==> x in d.completed;
    }
  }

  /** No record is lost, filed twice or rewritten once it is archived. */
  lemma FilesHonestly(base: Disk, plan: Plan, d: Disk, e: Disk, r: Records)
    requires OnlyOwn(base, plan, d) && OnlyOwn(base, plan, e)
    requires plan.jobId in d.completed ==> plan.jobId in e.completed && e.completed[plan.jobId] == d.completed[plan.jobId]
    ensures Conserved(JobsOf(d, r), JobsOf(e, r)) && JobsOf(e, r).Ids() == JobsOf(d, r).Ids()
    ensures forall id | id in JobsOf(e, r).completed && id !in JobsOf(d, r).completed :: id == plan.jobId
  {
    SameIds(base, plan, d, r);
    SameIds(base, plan, e, r);
    var b, a := JobsOf(d, r), JobsOf(e, r);
    forall x | x in b.completed ensures x in a.completed && a.completed[x] == b.completed[x] {
      assert x in d.completed;
      if x != plan.jobId { assert x in base.completed; }
      assert x in e.completed && e.completed[x] == d.completed[x];
    }
    forall x | x in a.completed && x !in b.completed ensures x == plan.jobId {
      assert x in e.completed && x !in d.completed;
    }
  }

  /** The transition's own record, as maintenance sees it. */
  predicate OwnRecord(plan: Plan, j: Job) {
    && j.operation.Upgrade? && j.Online() && j.previousRelease.Some? && j.targetVersion == Some(plan.candidate.version)
    && (j.status.Terminal() || !j.status.Preparing())
  }

  lemma SeenRecord(base: Disk, plan: Plan, d: Disk, r: Records)
    requires Ready(base, plan) && InPlace(base, plan, d) && r.operation(plan.jobId).Upgrade?
    requires Held(d, plan) ==> d.running[plan.jobId].status == base.running[plan.jobId].status
    ensures plan.jobId in d.running ==> OwnRecord(plan, JobOf(d.running[plan.jobId], plan.jobId, r))
    ensures plan.jobId in d.completed ==> OwnRecord(plan, JobOf(d.completed[plan.jobId], plan.jobId, r))
  {
    assert Matches(base.running[plan.jobId], plan, None);
  }

  lemma HeldIsUnchanged(base: Disk, plan: Plan, track: Track, d: Disk)
    requires Standing(base, plan, track, d) && Held(d, plan)
    ensures plan.jobId in base.running && d.running[plan.jobId].status == base.running[plan.jobId].status
  {
  }

  /** What maintenance may rely on at any point of a transition. */
  predicate Reliable(plan: Plan, w: World) {
    && !Danger(w.jobs)
    && (Owned(w.jobs) || (Exclusive(w.device) && Consistent(w.device)))
    && (forall id | id in w.jobs.running ::
          && w.jobs.running[id].Parsed? && Truthful(w.jobs.running[id].job, w.device)
          && w.jobs.running[id].job.previousRelease.Some?)
    && (plan.jobId in w.jobs.completed ==>
          && Exclusive(w.device) && Consistent(w.device) && Truthful(w.jobs.completed[plan.jobId], w.device)
          && (w.jobs.completed[plan.jobId].status.Succeeded? ==> w.device.cli == Effective(w.device).version))
  }

  /** The transition's record is the only one that runs, and is what it should be. */
  predicate Alone(plan: Plan, d: Disk, r: Records) {
    && (forall x | x in d.running :: x == plan.jobId)
    && (plan.jobId in d.running <==> plan.jobId !in d.completed)
    && (plan.jobId in d.running ==> OwnRecord(plan, JobOf(d.running[plan.jobId], plan.jobId, r)))
    && (plan.jobId in d.completed ==> OwnRecord(plan, JobOf(d.completed[plan.jobId], plan.jobId, r)))
  }

  lemma ReliableWhileHeld(plan: Plan, d: Disk, s: Surroundings, r: Records)
    requires Alone(plan, d, r) && Held(d, plan)
    ensures Reliable(plan, View(d, s, r))
  {
    var w := View(d, s, r);
    forall x | x in w.jobs.running ensures x == plan.jobId { assert x in d.running; }
    assert plan.jobId in w.jobs.running && w.jobs.running[plan.jobId].job.Touching();
  }

  lemma ReliableAtTheEnd(plan: Plan, d: Disk, side: Active, other: Active, status: Status, s: Surroundings, r: Records)
    requires Alone(plan, d, r) && !Held(d, plan) && Quieted(s, side)
    requires LetGo(plan, d, side, other, status) && (status.Succeeded? ==> side == plan.candidate)
    requires side.slot != other.slot && side.localRunner.Some? && status.Terminal()
    ensures Reliable(plan, View(d, s, r))
  {
    var w := View(d, s, r);
    forall x | x in w.jobs.running ensures x == plan.jobId { assert x in d.running; }
    EndIsConsistent(plan, d, side, other, status, s);
    hide Consistent, Exclusive, Quieted;
  }

  lemma ReliableThroughout(base: Disk, plan: Plan, track: Track, d: Disk, s: Surroundings, r: Records)
    requires Standing(base, plan, track, d) && Proper(base, plan, r) && InPlace(base, plan, d) && OnlyOwn(base, plan, d)
    requires !Held(d, plan) ==> Quieted(s, d.active)
    ensures Reliable(plan, View(d, s, r))
  {
    assert plan.previous.localRunner.Some?;
    if Held(d, plan) { HeldIsUnchanged(base, plan, track, d); } else { LetsGoAtAnEnd(base, plan, track, d); }
    SeenRecord(base, plan, d, r);
    hide Standing, InPlace, Reliable, View, OwnRecord, JobOf;
    if Held(d, plan) {
      ReliableWhileHeld(plan, d, s, r);
    } else if LetGo(plan, d, plan.candidate, plan.previous, Succeeded) {
      ReliableAtTheEnd(plan, d, plan.candidate, plan.previous, Succeeded, s, r);
    } else {
      ReliableAtTheEnd(plan, d, plan.previous, plan.candidate, Failed, s, r);
    }
  }

  lemma ActiveMovesOn(base: Disk, plan: Plan, a: Track, d: Disk, b: Track, e: Disk)
    requires Standing(base, plan, a, d) && Standing(base, plan, b, e) && SameWay(a, b)
    requires plan.previous.version < plan.candidate.version
    ensures Maintenance.Forward(Some(d.active), Some(e.active))
  {
    assert base.active == plan.previous;
  }

  /** Whatever the online executor does between two points of a transition, maintenance finds
      what it assumes: jobs filed honestly, `active_slot` as it was or on a newer release, and,
      when the job is let go, a consistent installation that its record tells the truth about.
      The processes, links and definitions are taken to be those of the side it ended on. */
  lemma KeepsOwnerContract(base: Disk, plan: Plan, a: Track, d: Disk, b: Track, e: Disk, s: Surroundings, t: Surroundings,
                           r: Records)
    requires Standing(base, plan, a, d) && Standing(base, plan, b, e) && SameWay(a, b) && Proper(base, plan, r)
    requires !Held(e, plan) ==> Quieted(t, e.active)
    ensures MaintenanceService.OwnerContract(View(d, s, r), View(e, t, r))
  {
    OneRuns(base, plan, r);
    StaysInPlace(base, plan, a, d, r);
    StaysInPlace(base, plan, b, e, r);
    if plan.jobId in d.completed { ArchivedOnce(base, plan, a, d, b, e); }
    InPlaceIsOnlyOwn(base, plan, d);
    InPlaceIsOnlyOwn(base, plan, e);
    FilesHonestly(base, plan, d, e, r);
    StaysFiled(base, plan, e, r);
    ReliableThroughout(base, plan, b, e, t, r);
    ActiveMovesOn(base, plan, a, d, b, e);
    hide Standing, SameWay, InPlace, OnlyOwn, Filed, Consistent, Exclusive, Danger, Owned, Conserved, JobsOf, Truthful;
    assert Archived(JobsOf(d, r), View(e, t, r));
  }

  /** So it is over any attempts and restarts, between any two points of the history. */
  lemma HistoryKeepsOwnerContract(base: Disk, plan: Plan, boot: nat, events: seq<Event>, points: seq<Point>,
                                  around: seq<Surroundings>, r: Records, j: nat, k: nat)
    requires History(base, plan, boot, events, points) && Proper(base, plan, r) && j <= k <= |events|
    requires |around| == |points|
    requires forall n | 0 <= n < |points| && !Held(points[n].disk, plan) :: Quieted(around[n], points[n].disk.active)
    ensures MaintenanceService.OwnerContract(View(points[j].disk, around[j], r), View(points[k].disk, around[k], r))
  {
    hide Standing, Proper, MaintenanceService.OwnerContract, View, Quieted;
    OneWay(base, plan, boot, events, points, j, k);
    KeepsOwnerContract(base, plan, points[j].track, points[j].disk, points[k].track, points[k].disk, around[j], around[k], r);
  }
}
