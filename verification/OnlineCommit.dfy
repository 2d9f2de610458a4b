/** The durable state of an online upgrade, and its forward commit: release pointers, then
    the job archive, then the journal, in an order that any interruption can resume. */
module OnlineCommit {
  import opened Basics
  import opened Maintenance

  type Digest = nat
  type Content = nat

  datatype Phase =
    | OpeningCandidate | SwitchingTraffic | ClosingPrevious | DrainingPrevious | DrainBudgetExhausted
    | RetiringPrevious | Committing | Complete
  {
    /** Release pointers have not moved yet. */
    predicate Early() {
      !Committing? && !Complete?
    }

    /** The previous instance still runs and the candidate may already serve. */
    predicate Reversible() {
      SwitchingTraffic? || ClosingPrevious? || DrainingPrevious? || DrainBudgetExhausted?
    }

    /** The successors the journal accepts. */
    predicate Follows(before: Phase) {
      match before
      case OpeningCandidate => SwitchingTraffic?
      case SwitchingTraffic => ClosingPrevious?
      case ClosingPrevious => DrainingPrevious?
      case DrainingPrevious => RetiringPrevious? || DrainBudgetExhausted?
      case RetiringPrevious => Committing?
      case Committing => Complete?
      case DrainBudgetExhausted => false
      case Complete => false
    }
  }

  /** `boot`: the machine boot in which the transition was planned. */
  datatype Plan = Plan(jobId: Id, previous: Active, candidate: Active, manifest: Digest, boot: nat)

  datatype Journal = Journal(plan: Plan, phase: Phase)

  datatype ReversePhase =
    | PreparingPrevious | SwitchingBack | ClosingCandidate | DrainingCandidate | CandidateExhausted
    | RetiringCandidate | CommittingPrevious | Reversed
  {
    function Revision(): nat {
      match this
      case PreparingPrevious => 0
      case SwitchingBack => 1
      case ClosingCandidate => 2
      case DrainingCandidate => 3
      case CandidateExhausted => 4
      case RetiringCandidate => 4
      case CommittingPrevious => 5
      case Reversed => 6
    }

    /** The successors the journal of a switchback accepts. */
    predicate Follows(before: ReversePhase) {
      !before.CandidateExhausted? && Revision() == before.Revision() + 1
    }
  }

  /** The journal of a switchback, which keeps the forward journal it froze. */
  datatype Reverse = Reverse(original: Journal, phase: ReversePhase)

  datatype Selected = Selected(version: Version, root: Version, manifest: Digest)

  /** A release directory; `genuine` is the verdict of its signature and platform. */
  datatype Release = Release(genuine: bool, manifest: Digest, cli: Content)

  /** A slot's Control environment: the two runtime settings, whether every line is
      terminated, and everything else. */
  datatype Environment = Environment(slot: Option<Slot>, candidate: Option<bool>, terminated: bool, rest: Content)

  datatype OnlineJob = OnlineJob(
    id: Id, mode: Option<Mode>, status: Status,
    currentVersion: Version, targetVersion: Option<Version>,
    previousRelease: Option<Version>, candidateRelease: Option<Version>, upload: Id)

  datatype Disk = Disk(
    active: Active,
    current: Version,
    selected: Selected,
    cli: Content,
    environment: map<Slot, Environment>,
    disabled: set<Unit>,
    audited: set<Id>,
    releases: map<Version, Release>,
    running: map<Id, OnlineJob>,
    completed: map<Id, OnlineJob>,
    preparation: bool,
    journal: Option<Journal>,
    history: map<Id, Journal>,
    reverse: Option<Reverse>,
    reversed: map<Id, Reverse>,
    faulted: set<Id>,       // failures recorded in the audit
    upstreams: Slot,        // the proxy's upstream file
    live: Slot)             // what the proxy has loaded

  // ------------------------------------------------------------------- checks

  /** The environment a committed Control restarts with, when the settings allow one. */
  function CommittedEnvironment(e: Environment, slot: Slot): Option<Environment> {
    if e.slot == Some(slot) && e.candidate.Some?
    then Some(e.(candidate := Some(false), terminated := true))
    else None
  }

  /** The slot's Control will restart as a committed one: the file names its slot, says that it
      is no candidate and ends its last line.  Every other setting, and every other slot's
      file, is as before. */
  predicate Promoted(before: map<Slot, Environment>, after: map<Slot, Environment>, slot: Slot) {
    && slot in before && slot in after
    && after[slot].slot == Some(slot) && after[slot].candidate == Some(false) && after[slot].terminated
    && after[slot].rest == before[slot].rest
    && (slot.Other() in after <==> slot.Other() in before)
    && (slot.Other() in after ==> after[slot.Other()] == before[slot.Other()])
  }

  predicate Startable(d: Disk, slot: Slot) {
    slot in d.environment && CommittedEnvironment(d.environment[slot], slot).Some?
  }

  predicate StartupVerified(d: Disk, slot: Slot) {
    slot in d.environment && CommittedEnvironment(d.environment[slot], slot) == Some(d.environment[slot])
  }

  predicate Matches(job: OnlineJob, plan: Plan, terminal: Option<Status>) {
    && job.id == plan.jobId && job.mode == Some(BlueGreen) && job.upload == job.id
    && job.currentVersion == plan.previous.version
    && job.targetVersion == Some(plan.candidate.version)
    && job.previousRelease == Some(plan.previous.version)
    && job.candidateRelease == Some(plan.candidate.version)
    && (|| job.status.StartingCandidate? || job.status.Migrating?
        || job.status.SwitchingTraffic? || job.status.DrainingPrevious?
        || terminal == Some(job.status))
  }

  /** The durable job of this plan, in one of the two directories, or nothing. */
  function FindJob(d: Disk, journal: Journal, allowCompleted: bool, terminal: Option<Status>): Option<OnlineJob> {
    var plan := journal.plan;
    var found :=
      if plan.jobId in d.running then
        if plan.jobId in d.completed then None else Some(d.running[plan.jobId])
      else if allowCompleted && plan.jobId in d.completed then Some(d.completed[plan.jobId])
      else None;
    if found.Some? && Matches(found.value, plan, terminal) then found else None
  }

  function LoadJob(d: Disk, journal: Journal, allowCompleted: bool): Option<OnlineJob> {
    FindJob(d, journal, allowCompleted, if journal.phase.Complete? then Some(Succeeded) else None)
  }

  /** The job of a transition that is being reversed. */
  function LoadReversed(d: Disk, reverse: Reverse): Option<OnlineJob> {
    FindJob(d, reverse.original, reverse.phase.Reversed?, if reverse.phase.Reversed? then Some(Failed) else None)
  }

  /** Disk and proxy agree on one slot. */
  predicate Routed(d: Disk, slot: Slot) {
    d.live == slot && d.upstreams == slot
  }

  /** What the proxy may show in each phase: the file moves before the proxy does. */
  predicate AcceptsProxy(journal: Journal, d: Disk) {
    var previous, candidate := journal.plan.previous.slot, journal.plan.candidate.slot;
    if journal.phase.OpeningCandidate? then Routed(d, previous)
    else if journal.phase.SwitchingTraffic? then
      (d.live == previous && (d.upstreams == previous || d.upstreams == candidate)) || Routed(d, candidate)
    else Routed(d, candidate)
  }

  predicate AcceptsReverse(reverse: Reverse, d: Disk) {
    var previous, candidate := reverse.original.plan.previous.slot, reverse.original.plan.candidate.slot;
    if reverse.phase.PreparingPrevious? then Routed(d, candidate)
    else if reverse.phase.SwitchingBack? then
      (d.live == candidate && (d.upstreams == candidate || d.upstreams == previous)) || Routed(d, previous)
    else Routed(d, previous)
  }

  predicate CandidateRelease(d: Disk, plan: Plan) {
    && plan.candidate.version in d.releases
    && d.releases[plan.candidate.version].genuine
    && d.releases[plan.candidate.version].manifest == plan.manifest
  }

  /** Each pointer names the candidate or, unless the candidate is required, the
      previous release, and the selection is consistent with what it names. */
  predicate CurrentMetadata(d: Disk, plan: Plan, requireCandidate: bool) {
    && (d.active == plan.candidate || (!requireCandidate && d.active == plan.previous))
    && (d.current == plan.candidate.version || (!requireCandidate && d.current == plan.previous.version))
    && (d.selected.version == plan.candidate.version || (!requireCandidate && d.selected.version == plan.previous.version))
    && d.selected.root == d.selected.version
    && d.selected.root in d.releases
    && d.selected.manifest == d.releases[d.selected.root].manifest
  }

  /** The untouched original installation, as the switchback requires it. */
  predicate RetainedRelease(d: Disk, old': Active) {
    && d.active == old'
    && d.selected.version == old'.version
    && d.current == old'.version
    && d.selected.root == old'.version
    && old'.version in d.releases
    && d.selected.manifest == d.releases[old'.version].manifest
    && d.releases[old'.version].genuine
    && old'.localRunner == Some(d.releases[old'.version].manifest)
    && d.cli == d.releases[old'.version].cli
    && StartupVerified(d, old'.slot)
  }

  /** Something is where neither release of the plan would have put it: a pointer names another
      release, or the selection is not that of the release it names. */
  predicate Foreign(d: Disk, plan: Plan) {
    || d.active !in {plan.previous, plan.candidate}
    || d.current !in {plan.previous.version, plan.candidate.version}
    || d.selected.version !in {plan.previous.version, plan.candidate.version}
    || d.selected.root != d.selected.version
    || (d.selected.version in d.releases && d.selected.manifest != d.releases[d.selected.version].manifest)
  }

  /** The candidate is not there, is not genuine, or is not the one that was planned. */
  predicate Spoiled(d: Disk, plan: Plan) {
    || plan.candidate.version !in d.releases || !d.releases[plan.candidate.version].genuine
    || d.releases[plan.candidate.version].manifest != plan.manifest
  }

  /** A slot whose Control would not restart as a committed one. */
  predicate Provisional(d: Disk, slot: Slot) {
    || slot !in d.environment || d.environment[slot].slot != Some(slot)
    || d.environment[slot].candidate != Some(false) || !d.environment[slot].terminated
  }

  /** The release is not the one that is installed, selected and started, to the last detail. */
  predicate Altered(d: Disk, a: Active) {
    || d.active != a || d.current != a.version || d.selected.version != a.version || d.selected.root != a.version
    || a.version !in d.releases || !d.releases[a.version].genuine || d.releases[a.version].manifest != d.selected.manifest
    || a.localRunner != Some(d.selected.manifest) || d.cli != d.releases[a.version].cli
    || Provisional(d, a.slot)
  }

  lemma VerifiedExactly(d: Disk, slot: Slot)
    ensures StartupVerified(d, slot) <==> !Provisional(d, slot)
  {
  }

  lemma RetainedExactly(d: Disk, a: Active)
    ensures RetainedRelease(d, a) <==> !Altered(d, a)
  {
  }

  /** The record of another upgrade: another job, or another pair of releases. */
  predicate Unrelated(job: OnlineJob, plan: Plan) {
    || job.id != plan.jobId || job.upload != plan.jobId || job.mode != Some(BlueGreen)
    || job.currentVersion != plan.previous.version || job.previousRelease != Some(plan.previous.version)
    || job.targetVersion != Some(plan.candidate.version) || job.candidateRelease != Some(plan.candidate.version)
  }

  /** The statuses of a job in the hands of the online owner. */
  const IN_PROGRESS: set<Status> := {StartingCandidate, Migrating, Status.SwitchingTraffic, Status.DrainingPrevious}

  /** A job is found if and only if it is that of the plan, in one directory only, and in
      progress or ended as the journal says. */
  lemma FoundIsTheJob(d: Disk, journal: Journal, completed: bool, terminal: Option<Status>, job: OnlineJob)
    ensures var plan := journal.plan;
            FindJob(d, journal, completed, terminal) == Some(job) <==>
              && !Unrelated(job, plan) && (job.status in IN_PROGRESS || terminal == Some(job.status))
              && (|| (plan.jobId in d.running && plan.jobId !in d.completed && d.running[plan.jobId] == job)
                  || (completed && plan.jobId !in d.running && plan.jobId in d.completed && d.completed[plan.jobId] == job))
  {
  }

  /** Phases are not skipped, and the two ends of either direction are final. */
  lemma EndsAreFinal(phase: Phase, reverse: ReversePhase)
    ensures !phase.Follows(DrainBudgetExhausted) && !phase.Follows(Complete)
    ensures !reverse.Follows(CandidateExhausted) && !reverse.Follows(Reversed)
  {
  }

  // ------------------------------------------------------------ progress of a commit

  /** What has to hold before a commit may change anything. */
  predicate Admissible(d: Disk, plan: Plan) {
    && d.journal == Some(Journal(plan, Committing)) && d.reverse.None?
    && AcceptsProxy(Journal(plan, Committing), d)
    && LoadJob(d, Journal(plan, Committing), false).Some?
    && CandidateRelease(d, plan)
    && CurrentMetadata(d, plan, false)
  }

  lemma ForeignIsRefused(d: Disk, plan: Plan)
    requires Foreign(d, plan) || Spoiled(d, plan)
    ensures !Admissible(d, plan)
  {
  }

  /** What it further needs to get to the end: a candidate environment that can be
      promoted, and history that is free under this task's name. */
  predicate Finishable(d: Disk, plan: Plan) {
    && Admissible(d, plan)
    && Startable(d, plan.candidate.slot)
    && plan.jobId !in d.completed
    && plan.jobId !in d.history
  }

  /** The durable writes of a transition, in their order. */
  datatype Step =
    | ArchivePreparation | DisablePrevious | SelectCurrent | SelectRelease | ReplaceCli
    | RecordAudit | PromoteStartup | CommitActive | CompleteJournal
    | MarkSucceeded | ArchiveJob | ArchiveJournal
  {
    function Order(): nat {
      match this
      case ArchivePreparation => 0
      case DisablePrevious => 1
      case SelectCurrent => 2
      case SelectRelease => 3
      case ReplaceCli => 4
      case RecordAudit => 5
      case PromoteStartup => 6
      case CommitActive => 7
      case CompleteJournal => 8
      case MarkSucceeded => 9
      case ArchiveJob => 10
      case ArchiveJournal => 11
    }
  }

  /** How many there are. */
  const LAST: nat := 12

  /** What a step needs to find on the disk. */
  predicate Possible(d: Disk, plan: Plan, step: Step) {
    match step
    case ReplaceCli => plan.candidate.version in d.releases
    case PromoteStartup => Startable(d, plan.candidate.slot)
    case MarkSucceeded => plan.jobId in d.running
    case ArchiveJob => plan.jobId in d.running
    case _ => true
  }

  /** What a step writes. */
  function Apply(d: Disk, plan: Plan, step: Step): Disk
    requires Possible(d, plan, step)
  {
    var slot := plan.candidate.slot;
    match step
    case ArchivePreparation => d.(preparation := false)
    case DisablePrevious => d.(disabled := d.disabled + {Control(plan.previous.slot), SlotRunner(plan.previous.slot)})
    case SelectCurrent => d.(current := plan.candidate.version)
    case SelectRelease => d.(selected := Selected(plan.candidate.version, plan.candidate.version, plan.manifest))
    case ReplaceCli => d.(cli := d.releases[plan.candidate.version].cli)
    case RecordAudit => d.(audited := d.audited + {plan.jobId})
    case PromoteStartup => d.(environment := d.environment[slot := CommittedEnvironment(d.environment[slot], slot).value])
    case CommitActive => d.(active := plan.candidate)
    case CompleteJournal => d.(journal := Some(Journal(plan, Complete)))
    case MarkSucceeded => d.(running := d.running[plan.jobId := d.running[plan.jobId].(status := Succeeded)])
    case ArchiveJob => d.(running := d.running - {plan.jobId}, completed := d.completed[plan.jobId := d.running[plan.jobId]])
    case ArchiveJournal => d.(journal := None, history := d.history[plan.jobId := Journal(plan, Complete)])
  }

  /** The disk after the first `p` steps of a transition that set out from `d`. */
  function At(d: Disk, plan: Plan, p: nat): Disk
    requires Finishable(d, plan)
  {
    var slot := plan.candidate.slot;
    var job := d.running[plan.jobId].(status := if p > 9 then Succeeded else d.running[plan.jobId].status);
    d.(preparation := d.preparation && p == 0,
       disabled := if p > 1 then d.disabled + {Control(plan.previous.slot), SlotRunner(plan.previous.slot)} else d.disabled,
       current := if p > 2 then plan.candidate.version else d.current,
       selected := if p > 3 then Selected(plan.candidate.version, plan.candidate.version, plan.manifest) else d.selected,
       cli := if p > 4 then d.releases[plan.candidate.version].cli else d.cli,
       audited := if p > 5 then d.audited + {plan.jobId} else d.audited,
       environment := if p > 6 then d.environment[slot := CommittedEnvironment(d.environment[slot], slot).value] else d.environment,
       active := if p > 7 then plan.candidate else d.active,
       running := if p > 10 then d.running - {plan.jobId} else d.running[plan.jobId := job],
       completed := if p > 10 then d.completed[plan.jobId := job] else d.completed,
       journal := if p > 11 then None else Some(Journal(plan, if p > 8 then Complete else Committing)),
       history := if p > 11 then d.history[plan.jobId := Journal(plan, Complete)] else d.history)
  }

  function Max(x: nat, y: nat): nat {
    if x < y then y else x
  }

  /** Taking a step whose predecessors are done moves on by one, and taking it again
      changes nothing. */
  lemma StepAdvances(d: Disk, plan: Plan, p: nat, step: Step)
    requires Finishable(d, plan) && step.Order() <= p < LAST
    requires step.MarkSucceeded? || step.ArchiveJob? ==> p <= 10
    requires step.CompleteJournal? ==> p <= 9
    ensures Possible(At(d, plan, p), plan, step)
    ensures Apply(At(d, plan, p), plan, step) == At(d, plan, Max(p, step.Order() + 1))
  {
    var e := At(d, plan, p);
    assert plan.jobId in d.running;
    if step.PromoteStartup? {
      assert Apply(e, plan, step).environment == At(d, plan, Max(p, 7)).environment;
    } else if step.ArchiveJob? {
      assert Apply(e, plan, step).running == At(d, plan, 11).running;
    }
  }

  /** However far a commit got, the checks that guard the next attempt pass. */
  lemma InterruptedCommitIsAdmissible(d: Disk, plan: Plan, p: nat)
    requires Finishable(d, plan)
    ensures p <= 8 ==> Admissible(At(d, plan, p), plan)
    ensures p > 7 ==> CurrentMetadata(At(d, plan, p), plan, true) && StartupVerified(At(d, plan, p), plan.candidate.slot)
    ensures 8 < p < LAST ==> LoadJob(At(d, plan, p), Journal(plan, Complete), true).Some?
  {
  }

  /** `active_slot` names the candidate only after every other pointer does, the CLI is
      replaced, the audit is recorded and the candidate restarts as committed. */
  lemma ActiveSlotIsLast(d: Disk, plan: Plan, p: nat)
    requires Finishable(d, plan) && d.active == plan.previous != plan.candidate
    ensures var e := At(d, plan, p);
            e.active == plan.candidate ==>
              && CurrentMetadata(e, plan, true)
              && StartupVerified(e, plan.candidate.slot)
              && Promoted(d.environment, e.environment, plan.candidate.slot)
              && e.cli == e.releases[plan.candidate.version].cli
              && plan.jobId in e.audited
              && {Control(plan.previous.slot), SlotRunner(plan.previous.slot)} <= e.disabled
  {
  }

  /** The journal leaves its place only when the job is archived as a success. */
  lemma JournalIsArchivedLast(d: Disk, plan: Plan, p: nat)
    requires Finishable(d, plan)
    ensures var e := At(d, plan, p);
            e.journal.None? || plan.jobId in e.history ==>
              && plan.jobId !in e.running
              && plan.jobId in e.completed && e.completed[plan.jobId].status == Succeeded
              && CurrentMetadata(e, plan, true)
  {
  }

  /** After the first pointer has moved, the original installation no longer counts
      as retained. */
  lemma NoSwitchbackAfterTheFirstPointer(d: Disk, plan: Plan, p: nat)
    requires Finishable(d, plan) && p > 2 && plan.previous.version != plan.candidate.version
    ensures !RetainedRelease(At(d, plan, p), plan.previous)
  {
  }
}
