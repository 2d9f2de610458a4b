/** The way back: a switchback keeps the original installation, archives the job as a
    failure, and only then lets go of both journals. */
module OnlineSwitchback {
  import opened Basics
  import opened Maintenance
  import opened OnlineCommit

  /** The forward journal is the one the switchback froze; after it was deleted, the
      archived copy of the switchback stands in for it. */
  predicate LoadableReverse(d: Disk) {
    d.reverse.Some? ==>
      var reverse := d.reverse.value;
      || d.journal == Some(reverse.original)
      || (&& d.journal.None? && reverse.phase.Reversed?
          && reverse.original.plan.jobId in d.reversed && d.reversed[reverse.original.plan.jobId] == reverse)
  }

  /** Nothing of the original installation has been touched. */
  predicate OldMetadata(d: Disk, plan: Plan) {
    CurrentMetadata(d, plan, false) && RetainedRelease(d, plan.previous)
  }

  /** What has to hold before a switchback may be committed. */
  predicate Returnable(d: Disk, original: Journal) {
    && d.reverse == Some(Reverse(original, CommittingPrevious)) && d.journal == Some(original)
    && original.phase.Reversible()
    && AcceptsReverse(d.reverse.value, d)
    && LoadReversed(d, d.reverse.value).Some?
    && OldMetadata(d, original.plan)
  }

  /** And what it further needs to get to the end. */
  predicate Concludable(d: Disk, original: Journal) {
    Returnable(d, original) && original.plan.jobId !in d.completed && original.plan.jobId !in d.reversed
  }

  /** The durable writes of a switchback from CommittingPrevious on, in their order. */
  datatype BackStep =
    | DisableCandidate | AuditFailure | CompleteReverse | MarkFailed | ArchiveFailed
    | SaveHistory | DropJournal | DropReverse
  {
    function Order(): nat {
      match this
      case DisableCandidate => 0
      case AuditFailure => 1
      case CompleteReverse => 2
      case MarkFailed => 3
      case ArchiveFailed => 4
      case SaveHistory => 5
      case DropJournal => 6
      case DropReverse => 7
    }
  }

  /** How many there are. */
  const BACK: nat := 8

  predicate BackPossible(d: Disk, plan: Plan, step: BackStep) {
    step.MarkFailed? || step.ArchiveFailed? ==> plan.jobId in d.running
  }

  function BackApply(d: Disk, original: Journal, step: BackStep): Disk
    requires BackPossible(d, original.plan, step)
  {
    var id, slot := original.plan.jobId, original.plan.candidate.slot;
    match step
    case DisableCandidate => d.(disabled := d.disabled + {Control(slot), SlotRunner(slot)})
    case AuditFailure => d.(faulted := d.faulted + {id})
    case CompleteReverse => d.(reverse := Some(Reverse(original, Reversed)))
    case MarkFailed => d.(running := d.running[id := d.running[id].(status := Failed)])
    case ArchiveFailed => d.(running := d.running - {id}, completed := d.completed[id := d.running[id]])
    case SaveHistory => d.(reversed := d.reversed[id := Reverse(original, Reversed)])
    case DropJournal => d.(journal := None)
    case DropReverse => d.(reverse := None)
  }

  /** The disk after the first `p` steps of a switchback that set out from `d`. */
  function BackAt(d: Disk, original: Journal, p: nat): Disk
    requires Concludable(d, original)
  {
    var id, slot := original.plan.jobId, original.plan.candidate.slot;
    var job := d.running[id].(status := if p > 3 then Failed else d.running[id].status);
    d.(disabled := if p > 0 then d.disabled + {Control(slot), SlotRunner(slot)} else d.disabled,
       faulted := if p > 1 then d.faulted + {id} else d.faulted,
       reverse := if p > 7 then None else Some(Reverse(original, if p > 2 then Reversed else CommittingPrevious)),
       running := if p > 4 then d.running - {id} else d.running[id := job],
       completed := if p > 4 then d.completed[id := job] else d.completed,
       reversed := if p > 5 then d.reversed[id := Reverse(original, Reversed)] else d.reversed,
       journal := if p > 6 then None else d.journal)
  }

  /** All earlier steps are done, and the step is not a leftover of a later phase. */
  predicate BackTimely(p: nat, step: BackStep) {
    && step.Order() <= p < BACK
    && (step.MarkFailed? || step.ArchiveFailed? ==> p <= 4)
  }

  /** Taking a step whose predecessors are done moves on by one, and taking it again
      changes nothing. */
  lemma BackStepAdvances(d: Disk, original: Journal, p: nat, step: BackStep)
    requires Concludable(d, original) && BackTimely(p, step)
    ensures BackPossible(BackAt(d, original, p), original.plan, step)
    ensures BackApply(BackAt(d, original, p), original, step) == BackAt(d, original, Max(p, step.Order() + 1))
  {
    hide OldMetadata, AcceptsReverse, Matches;
    var e := BackAt(d, original, p);
    assert original.plan.jobId in d.running;
    if step.ArchiveFailed? {
      assert BackApply(e, original, step).running == BackAt(d, original, 5).running;
    }
  }

  /** However far a switchback got, the original installation is retained and the checks
      that guard the next attempt pass. */
  lemma InterruptedSwitchbackIsReturnable(d: Disk, original: Journal, p: nat)
    requires Concludable(d, original)
    ensures var e := BackAt(d, original, p);
            && OldMetadata(e, original.plan) && Routed(e, original.plan.previous.slot)
            && (p <= 2 ==> Returnable(e, original))
            && (2 < p < BACK ==> LoadableReverse(e) && LoadReversed(e, Reverse(original, Reversed)).Some?)
  {
  }

  lemma BackStart(d: Disk, original: Journal)
    requires Concludable(d, original)
    ensures BackAt(d, original, 0) == d
  {
    var id := original.plan.jobId;
    assert d.running[id := d.running[id]] == d.running;
  }

  /** Both journals are gone only when the job is archived as a failure over the retained
      original release. */
  lemma ReverseIsDroppedLast(d: Disk, original: Journal, p: nat)
    requires Concludable(d, original)
    ensures var e := BackAt(d, original, p);
            e.reverse.None? ==>
              && e.journal.None?
              && original.plan.jobId !in e.running
              && original.plan.jobId in e.completed && e.completed[original.plan.jobId].status == Failed
              && RetainedRelease(e, original.plan.previous)
  {
  }
}
