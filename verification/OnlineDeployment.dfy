/** The installation an online upgrade runs on, and its forward half from Committing on. */
module OnlineDeployment {
  import opened Basics
  import opened Maintenance
  import opened OnlineCommit

  /** All earlier steps are done, and the step is not a leftover of a later phase. */
  predicate Timely(p: nat, step: Step) {
    && step.Order() <= p < LAST
    && (step.MarkSucceeded? || step.ArchiveJob? ==> p <= 10)
    && (step.CompleteJournal? ==> p <= 9)
  }

  /** No step up to the commit point takes a pointer out of the plan. */
  lemma PointersStayInPlan(d: Disk, plan: Plan, step: Step)
    requires Admissible(d, plan) && Possible(d, plan, step) && 1 <= step.Order() <= 7
    ensures Admissible(Apply(d, plan, step), plan)
  {
    match step
    case DisablePrevious =>
    case SelectCurrent =>
    case SelectRelease =>
    case ReplaceCli =>
    case RecordAudit =>
    case PromoteStartup =>
    case CommitActive =>
  }

  lemma AdmissibleHasRelease(d: Disk, plan: Plan)
    requires Admissible(d, plan)
    ensures plan.candidate.version in d.releases
  {
  }

  /** From the Complete record on, everything `finish` checks holds. */
  lemma CompleteIsConfirmed(d: Disk, plan: Plan, p: nat)
    requires Finishable(d, plan) && 9 <= p <= 11
    ensures var e := At(d, plan, p);
            && LoadJob(e, Journal(plan, Complete), true).Some? && CandidateRelease(e, plan)
            && CurrentMetadata(e, plan, true) && StartupVerified(e, plan.candidate.slot)
            && e.cli == e.releases[plan.candidate.version].cli
  {
    InterruptedCommitIsAdmissible(d, plan, p);
  }

  /** Where the job is while its end is being filed. */
  lemma JobOfProgress(d: Disk, plan: Plan, p: nat)
    requires Finishable(d, plan) && 9 <= p <= 11
    ensures var e := At(d, plan, p);
            && (p <= 10 <==> plan.jobId in e.running)
            && (p == 11 ==> plan.jobId in e.completed && e.completed[plan.jobId].status == Succeeded)
  {
  }

  lemma HistoryIsFree(d: Disk, plan: Plan, p: nat)
    requires Finishable(d, plan) && p <= 11
    ensures plan.jobId !in At(d, plan, p).history
  {
  }

  lemma CandidateStaysStartable(d: Disk, plan: Plan, p: nat)
    requires Finishable(d, plan)
    ensures Startable(At(d, plan, p), plan.candidate.slot)
  {
  }

  /** The previous slot no longer starts, and `current` and the selection name the candidate. */
  predicate PointersMoved(d: Disk, plan: Plan, e: Disk) {
    && e.disabled == d.disabled + {Control(plan.previous.slot), SlotRunner(plan.previous.slot)}
    && e.current == plan.candidate.version
    && e.selected == Selected(plan.candidate.version, plan.candidate.version, plan.manifest)
  }

  /** The CLI is the candidate's, the audit has the job, the candidate restarts as committed,
      and `active_slot` names it. */
  predicate RuntimeMoved(d: Disk, plan: Plan, e: Disk) {
    && plan.candidate.version in d.releases && e.cli == d.releases[plan.candidate.version].cli
    && e.audited == d.audited + {plan.jobId}
    && Promoted(d.environment, e.environment, plan.candidate.slot)
    && e.active == plan.candidate
  }

  /** What the executor finds when it looks: identities and readiness as planned; no request or
      process left to wait for; the drain budget used up; the previous release fit to return
      to; the runtimes reachable; the frozen releases fit to go on with. */
  datatype Sight = Sight(steady: bool, idle: bool, expired: bool, returnable: bool, reachable: bool, compatible: bool)

  /** Whatever the executor looks at is as it hopes. */
  ghost predicate Favourable(sight: nat -> Sight) {
    forall b :: sight(b) == Sight(true, true, false, true, true, true)
  }

  class Installation {
    var disk: Disk
    var boot: nat     // which boot of the machine this is
    var budget: nat   // steps left before a deadline, an error or a crash ends the attempt
    var sight: nat -> Sight   // what is found with so many steps left

    constructor (initial: Disk, boot: nat, sight: nat -> Sight)
      ensures disk == initial && this.boot == boot && budget == 0 && this.sight == sight
    {
      disk := initial;
      this.boot := boot;
      this.sight := sight;
      budget := 0;
    }

    /** The disk is `p` steps into the transition that set out from `base`. */
    ghost predicate Into(base: Disk, plan: Plan, p: nat)
      reads `disk
    {
      Finishable(base, plan) && disk == At(base, plan, p)
    }

    method Spend() returns (go: bool)
      modifies this`budget
      ensures go == (old(budget) > 0)
      ensures budget == if go then old(budget) - 1 else 0
    {
      go := budget > 0;
      if go { budget := budget - 1; }
    }

    /** One durable write of a transition, unless the attempt ends before it. */
    method Take(plan: Plan, step: Step, ghost base: Disk, ghost p: nat) returns (go: bool, ghost q: nat)
      requires Possible(disk, plan, step)
      modifies `disk, `budget
      ensures go == (old(budget) > 0) && budget == if go then old(budget) - 1 else 0
      ensures disk == if go then Apply(old(disk), plan, step) else old(disk)
      ensures q == if go then Max(p, step.Order() + 1) else p
      ensures old(Into(base, plan, p)) && Timely(p, step) ==> Into(base, plan, q)
      ensures Admissible(old(disk), plan) && 1 <= step.Order() <= 7 ==> Admissible(disk, plan)
      ensures step.Order() <= 7 ==> disk.journal == old(disk.journal)
      ensures disk.reverse == old(disk.reverse)
    {
      hide At, Finishable, Admissible;
      go := Spend();
      q := p;
      if go {
        if Admissible(disk, plan) && 1 <= step.Order() <= 7 {
          PointersStayInPlan(disk, plan, step);
        }
        disk := Apply(disk, plan, step);
        q := Max(p, step.Order() + 1);
        if old(Into(base, plan, p)) && Timely(p, step) {
          StepAdvances(base, plan, p, step);
        }
      }
    }

    /** The first half: the previous units stay down, `current` and the selection move. */
    method MovePointers(plan: Plan, ghost base: Disk, ghost p: nat) returns (go: bool, ghost q: nat)
      requires Admissible(disk, plan)
      modifies `disk, `budget
      ensures Admissible(disk, plan)
      ensures disk == old(disk).(disabled := disk.disabled, current := disk.current, selected := disk.selected)
      ensures go ==> PointersMoved(old(disk), plan, disk)
      ensures old(Into(base, plan, p)) && 1 <= p <= 8 ==>
                && p <= q <= 8 && Into(base, plan, q) && (go ==> q >= 4)
                && (old(budget) >= 3 ==> go && budget == old(budget) - 3)
    {
      hide At, Admissible, Finishable;
      go, q := Take(plan, DisablePrevious, base, p);
      if !go { return; }
      go, q := Take(plan, SelectCurrent, base, q);
      if !go { return; }
      go, q := Take(plan, SelectRelease, base, q);
    }

    /** The stable CLI and the audit. */
    method ReplaceAndAudit(plan: Plan, ghost base: Disk, ghost p: nat) returns (go: bool, ghost q: nat)
      requires Admissible(disk, plan)
      modifies `disk, `budget
      ensures Admissible(disk, plan) && disk == old(disk).(cli := disk.cli, audited := disk.audited)
      ensures go ==>
                && plan.candidate.version in old(disk).releases && disk.cli == old(disk).releases[plan.candidate.version].cli
                && disk.audited == old(disk).audited + {plan.jobId}
      ensures old(Into(base, plan, p)) && 4 <= p <= 8 ==>
                && p <= q <= 8 && Into(base, plan, q) && (go ==> q >= 6)
                && (old(budget) >= 2 ==> go && budget == old(budget) - 2)
    {
      hide At, Admissible, Finishable;
      AdmissibleHasRelease(disk, plan);
      go, q := Take(plan, ReplaceCli, base, p);
      if !go { return; }
      go, q := Take(plan, RecordAudit, base, q);
    }

    /** The second half: stable CLI, audit, startup admission, and the commit point. */
    method MoveRuntime(plan: Plan, ghost base: Disk, ghost p: nat) returns (go: bool, ghost q: nat)
      requires Admissible(disk, plan)
      modifies `disk, `budget
      ensures Admissible(disk, plan)
      ensures disk == old(disk).(cli := disk.cli, audited := disk.audited, environment := disk.environment, active := disk.active)
      ensures go ==> RuntimeMoved(old(disk), plan, disk)
      ensures !go ==> disk.active == old(disk.active)
      ensures old(Into(base, plan, p)) && 4 <= p <= 8 ==>
                && p <= q <= 8 && Into(base, plan, q) && (go ==> q == 8)
                && (old(budget) >= 4 ==> go && budget == old(budget) - 4)
    {
      hide At, Admissible, Finishable;
      go, q := ReplaceAndAudit(plan, base, p);
      if !go { return; }
      if !Startable(disk, plan.candidate.slot) {
        if Into(base, plan, q) { CandidateStaysStartable(base, plan, q); }
        return false, q;
      }
      go, q := Take(plan, PromoteStartup, base, q);
      if !go { return; }
      go, q := Take(plan, CommitActive, base, q);
    }

    /** Moves every pointer to the candidate, `active_slot` last.  Refuses before any
        change unless every pointer belongs to the plan. */
    method Commit(plan: Plan, ghost base: Disk, ghost p: nat) returns (ok: bool, ghost q: nat)
      modifies `disk, `budget
      ensures !Admissible(old(disk), plan) || Foreign(old(disk), plan) || Spoiled(old(disk), plan) ==> !ok && disk == old(disk)
      ensures Admissible(old(disk), plan) ==> Admissible(disk, plan)
      ensures disk == old(disk).(disabled := disk.disabled, current := disk.current, selected := disk.selected,
                                 cli := disk.cli, audited := disk.audited, environment := disk.environment, active := disk.active)
      ensures ok ==> PointersMoved(old(disk), plan, disk) && RuntimeMoved(old(disk), plan, disk)
      ensures disk.active != old(disk.active) ==> PointersMoved(old(disk), plan, disk) && RuntimeMoved(old(disk), plan, disk)
      ensures old(Into(base, plan, p)) && 1 <= p <= 8 ==>
                && p <= q <= 8 && Into(base, plan, q)
                && (ok ==> q == 8)
                && (old(budget) >= 7 ==> ok && budget == old(budget) - 7)
    {
      hide At, Admissible, Finishable, CurrentMetadata, StartupVerified, Foreign, Spoiled;
      q := p;
      if Foreign(disk, plan) || Spoiled(disk, plan) { ForeignIsRefused(disk, plan); }
      if !Admissible(disk, plan) {
        if Into(base, plan, p) && p <= 8 { InterruptedCommitIsAdmissible(base, plan, p); }
        return false, q;
      }
      var go;
      go, q := MovePointers(plan, base, q);
      if !go { return false, q; }
      go, q := MoveRuntime(plan, base, q);
      if !go { return false, q; }
      if Into(base, plan, q) { InterruptedCommitIsAdmissible(base, plan, q); }
      ok := CurrentMetadata(disk, plan, true) && StartupVerified(disk, plan.candidate.slot);
    }

    /** Everything `finish` insists on before it touches the job. */
    predicate Confirmed(plan: Plan)
      reads `disk
    {
      && LoadJob(disk, Journal(plan, Complete), true).Some?
      && CandidateRelease(disk, plan)
      && CurrentMetadata(disk, plan, true)
      && StartupVerified(disk, plan.candidate.slot)
      && disk.cli == disk.releases[plan.candidate.version].cli
    }

    lemma ConfirmedExactly(plan: Plan)
      ensures Confirmed(plan) <==>
                && LoadJob(disk, Journal(plan, Complete), true).Some? && !Foreign(disk, plan) && !Spoiled(disk, plan)
                && disk.active == plan.candidate && disk.current == disk.selected.version == plan.candidate.version
                && !Provisional(disk, plan.candidate.slot) && disk.cli == disk.releases[plan.candidate.version].cli
    {
      VerifiedExactly(disk, plan.candidate.slot);
      hide LoadJob;
    }

    /** Marks the job Succeeded and moves it, or finds that an earlier attempt did. */
    method CloseJob(plan: Plan, ghost base: Disk, ghost p: nat) returns (ok: bool, ghost q: nat)
      requires plan.jobId in disk.running || plan.jobId in disk.completed
      modifies `disk, `budget
      ensures disk == old(disk).(running := disk.running, completed := disk.completed)
      ensures ok ==> plan.jobId !in disk.running && plan.jobId in disk.completed && disk.completed[plan.jobId].status == Succeeded
      ensures old(Into(base, plan, p)) && 9 <= p <= 11 ==>
                && p <= q <= 11 && Into(base, plan, q)
                && (ok ==> q == 11)
                && (old(budget) >= 2 ==> ok && budget >= old(budget) - 2)
    {
      q := p;
      if Into(base, plan, p) && 9 <= p <= 11 { JobOfProgress(base, plan, p); }
      hide At, Finishable, Admissible;
      if plan.jobId in disk.running {
        var go;
        go, q := Take(plan, MarkSucceeded, base, q);
        if !go { return false, q; }
        ok, q := Take(plan, ArchiveJob, base, q);
      } else {
        ok := disk.completed[plan.jobId].status == Succeeded;
      }
    }

    /** Archives the job of a complete transition as a success, once. */
    method Finish(plan: Plan, ghost base: Disk, ghost p: nat) returns (ok: bool, ghost q: nat)
      modifies `disk, `budget
      ensures !old(Confirmed(plan)) ==> !ok && disk == old(disk)
      ensures disk == old(disk).(running := disk.running, completed := disk.completed, audited := disk.audited)
      ensures ok ==>
                && plan.jobId !in disk.running
                && plan.jobId in disk.completed && disk.completed[plan.jobId].status == Succeeded
                && CurrentMetadata(disk, plan, true)
      ensures old(Into(base, plan, p)) && 9 <= p <= 11 ==>
                && p <= q <= 11 && Into(base, plan, q)
                && (ok ==> q == 11)
                && (old(budget) >= 3 ==> ok && budget >= old(budget) - 3)
    {
      q := p;
      if !Confirmed(plan) {
        if Into(base, plan, p) && 9 <= p <= 11 { CompleteIsConfirmed(base, plan, p); }
        return false, q;
      }
      hide At, Finishable, Admissible, StartupVerified, CandidateRelease, Matches;
      var go;
      go, q := Take(plan, RecordAudit, base, q);
      if !go { return false, q; }
      ok, q := CloseJob(plan, base, q);
    }

    /** The tail shared by a fresh completion and a resumed one: job, then journal. */
    method FinishAndArchive(plan: Plan, ghost base: Disk, ghost p: nat) returns (ok: bool, ghost q: nat)
      modifies `disk, `budget
      ensures disk.journal != old(disk.journal) ==>
                && disk.journal.None? && disk.history == old(disk.history)[plan.jobId := Journal(plan, Complete)]
                && plan.jobId !in disk.running
                && plan.jobId in disk.completed && disk.completed[plan.jobId].status == Succeeded
                && CurrentMetadata(disk, plan, true)
      ensures plan.jobId in old(disk.history) ==> disk.history == old(disk.history)
      ensures disk.reverse == old(disk.reverse)
      ensures old(Into(base, plan, p)) && 9 <= p <= 11 ==>
                && p <= q <= LAST && Into(base, plan, q)
                && (ok ==> q == LAST)
                && (old(budget) >= 4 ==> ok)
    {
      hide Finishable;
      ok, q := Finish(plan, base, p);
      if !ok { return; }
      if plan.jobId in disk.history {
        if Into(base, plan, q) && q <= 11 { HistoryIsFree(base, plan, q); }
        return false, q;
      }
      ok, q := Take(plan, ArchiveJournal, base, q);
    }
  }

  lemma BeforeTheFirstStep(d: Disk, plan: Plan)
    requires Finishable(d, plan)
    ensures At(d, plan, 0) == d
  {
    assert d.running[plan.jobId := d.running[plan.jobId]] == d.running;
  }

  /** What the journal says at each point of the transition. */
  lemma JournalOfProgress(d: Disk, plan: Plan, p: nat)
    requires Finishable(d, plan) && p <= LAST
    ensures var e := At(d, plan, p);
            && (p == LAST <==> e.journal.None?)
            && (p < LAST ==>
                  && e.journal == Some(Journal(plan, if p <= 8 then Committing else Complete))
                  && LoadJob(e, e.journal.value, p > 8).Some?)
  {
    InterruptedCommitIsAdmissible(d, plan, p);
  }
}
