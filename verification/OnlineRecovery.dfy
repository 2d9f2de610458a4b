/** The online executor: it resumes whatever the journals and the disk say, forwards or
    backwards, and never both. */
module OnlineRecovery {
  import opened Basics
  import opened Maintenance
  import opened OnlineCommit
  import opened OnlineDeployment
  import opened OnlineSwitchback

  /** What decides which release an installation is on. */
  function Pointers(d: Disk): (Active, Version, Selected, Content, map<Slot, Environment>) {
    (d.active, d.current, d.selected, d.cli, d.environment)
  }

  // ---------------------------------------------------------- committing the way back

  /** The disk is `p` steps into the switchback that set out from `base`. */
  ghost predicate Behind(i: Installation, base: Disk, original: Journal, p: nat)
    reads i`disk
  {
    Concludable(base, original) && i.disk == BackAt(base, original, p)
  }

  /** One durable write of a switchback, unless the attempt ends before it. */
  method TakeBack(i: Installation, original: Journal, step: BackStep, ghost base: Disk, ghost p: nat)
    returns (go: bool, ghost q: nat)
    requires BackPossible(i.disk, original.plan, step)
    modifies i`disk, i`budget
    ensures go == (old(i.budget) > 0) && i.budget == if go then old(i.budget) - 1 else 0
    ensures i.disk == if go then BackApply(old(i.disk), original, step) else old(i.disk)
    ensures q == if go then Max(p, step.Order() + 1) else p
    ensures old(Behind(i, base, original, p)) && BackTimely(p, step) ==> Behind(i, base, original, q)
  {
    hide BackAt, Concludable;
    go := i.Spend();
    q := p;
    if go {
      i.disk := BackApply(i.disk, original, step);
      q := Max(p, step.Order() + 1);
      if old(Behind(i, base, original, p)) && BackTimely(p, step) {
        BackStepAdvances(base, original, p, step);
      }
    }
  }

  /** Disables the candidate and records the failure. */
  method DisableAndAudit(i: Installation, original: Journal, ghost base: Disk, ghost p: nat) returns (ok: bool, ghost q: nat)
    modifies i`disk, i`budget
    ensures i.disk == old(i.disk).(disabled := i.disk.disabled, faulted := i.disk.faulted)
    ensures ok ==> old(i.budget) >= 2
    ensures old(i.budget) >= 2 ==> ok && i.budget == old(i.budget) - 2
    ensures old(Behind(i, base, original, p)) && p <= 2 ==> p <= q <= 2 && Behind(i, base, original, q) && (ok ==> q == 2)
  {
    hide BackAt, Concludable;
    ok, q := TakeBack(i, original, DisableCandidate, base, p);
    if !ok { return; }
    ok, q := TakeBack(i, original, AuditFailure, base, q);
  }

  /** Commits the way back over an original installation that is checked first; refuses
      before any change otherwise. */
  method CommitPrevious(i: Installation, original: Journal, ghost base: Disk, ghost p: nat) returns (ok: bool, ghost q: nat)
    modifies i`disk, i`budget
    ensures !Returnable(old(i.disk), original) || Altered(old(i.disk), original.plan.previous) ==> !ok && i.disk == old(i.disk)
    ensures i.disk == old(i.disk).(disabled := i.disk.disabled, faulted := i.disk.faulted)
    ensures old(Behind(i, base, original, p)) && p <= 2 ==>
              && p <= q <= 2 && Behind(i, base, original, q)
              && (ok ==> q == 2)
              && (old(i.budget) >= 2 ==> ok && i.budget == old(i.budget) - 2)
  {
    q := p;
    RetainedExactly(i.disk, original.plan.previous);
    hide Altered, RetainedRelease;
    if !Returnable(i.disk, original) {
      if Behind(i, base, original, p) && p <= 2 { InterruptedSwitchbackIsReturnable(base, original, p); }
      return false, q;
    }
    hide Behind, Returnable;
    ok, q := DisableAndAudit(i, original, base, p);
  }

  lemma JobOnTheWayBack(d: Disk, original: Journal, p: nat)
    requires Concludable(d, original) && 3 <= p < BACK
    ensures var e := BackAt(d, original, p);
            && (p <= 4 <==> original.plan.jobId in e.running)
            && (p > 4 ==> original.plan.jobId in e.completed && e.completed[original.plan.jobId].status == Failed)
  {
  }

  /** Marks the job Failed and moves it, or finds that an earlier attempt did. */
  method CloseFailed(i: Installation, original: Journal, ghost base: Disk, ghost p: nat) returns (ok: bool, ghost q: nat)
    requires original.plan.jobId in i.disk.running || original.plan.jobId in i.disk.completed
    modifies i`disk, i`budget
    ensures i.disk == old(i.disk).(running := i.disk.running, completed := i.disk.completed)
    ensures ok ==>
              && original.plan.jobId !in i.disk.running
              && original.plan.jobId in i.disk.completed && i.disk.completed[original.plan.jobId].status == Failed
    ensures old(Behind(i, base, original, p)) && 3 <= p < BACK ==>
              && p <= q < BACK && Behind(i, base, original, q)
              && (ok ==> 5 <= q)
              && (old(i.budget) >= 2 ==> ok && i.budget >= old(i.budget) - 2)
  {
    q := p;
    if Behind(i, base, original, p) && 3 <= p < BACK { JobOnTheWayBack(base, original, p); }
    hide BackAt, Concludable;
    if original.plan.jobId in i.disk.running {
      var go;
      go, q := TakeBack(i, original, MarkFailed, base, q);
      if !go { return false, q; }
      ok, q := TakeBack(i, original, ArchiveFailed, base, q);
    } else {
      ok := i.disk.completed[original.plan.jobId].status == Failed;
    }
  }

  /** Everything the end of a switchback insists on before it touches the job. */
  predicate Returned(d: Disk, original: Journal) {
    LoadReversed(d, Reverse(original, Reversed)).Some? && OldMetadata(d, original.plan)
  }

  /** Archives the job of a completed switchback as a failure, once. */
  method FinishSwitchback(i: Installation, original: Journal, ghost base: Disk, ghost p: nat) returns (ok: bool, ghost q: nat)
    modifies i`disk, i`budget
    ensures !Returned(old(i.disk), original) || Altered(old(i.disk), original.plan.previous) ==> !ok && i.disk == old(i.disk)
    ensures i.disk == old(i.disk).(running := i.disk.running, completed := i.disk.completed, faulted := i.disk.faulted)
    ensures ok ==>
              && original.plan.jobId !in i.disk.running
              && original.plan.jobId in i.disk.completed && i.disk.completed[original.plan.jobId].status == Failed
              && OldMetadata(i.disk, original.plan)
    ensures old(Behind(i, base, original, p)) && 3 <= p < BACK ==>
              && p <= q < BACK && Behind(i, base, original, q)
              && (ok ==> 5 <= q)
              && (old(i.budget) >= 3 ==> ok && i.budget >= old(i.budget) - 3)
  {
    q := p;
    RetainedExactly(i.disk, original.plan.previous);
    hide Altered, RetainedRelease;
    if !Returned(i.disk, original) {
      if Behind(i, base, original, p) && 3 <= p < BACK { InterruptedSwitchbackIsReturnable(base, original, p); }
      return false, q;
    }
    hide BackAt, Concludable, Matches;
    var go;
    go, q := TakeBack(i, original, AuditFailure, base, q);
    if !go { return false, q; }
    ok, q := CloseFailed(i, original, base, q);
  }

  lemma JournalsOnTheWayBack(d: Disk, original: Journal, p: nat)
    requires Concludable(d, original) && 5 <= p < BACK
    ensures var e := BackAt(d, original, p);
            && (p > 5 <==> original.plan.jobId in e.reversed)
            && (p > 5 ==> e.reversed[original.plan.jobId] == Reverse(original, Reversed))
            && (p > 6 <==> e.journal.None?)
  {
  }

  /** Keeps a copy of the switchback, unless an earlier attempt did; never replaces one. */
  method KeepCopy(i: Installation, original: Journal, ghost base: Disk, ghost p: nat) returns (ok: bool, ghost q: nat)
    modifies i`disk, i`budget
    ensures i.disk == old(i.disk).(reversed := i.disk.reversed)
    ensures forall id | id in old(i.disk.reversed) :: id in i.disk.reversed && i.disk.reversed[id] == old(i.disk.reversed)[id]
    ensures ok ==> original.plan.jobId in i.disk.reversed && i.disk.reversed[original.plan.jobId] == Reverse(original, Reversed)
    ensures old(Behind(i, base, original, p)) && 5 <= p < BACK ==>
              && p <= q < BACK && Behind(i, base, original, q)
              && (ok ==> 6 <= q)
              && (old(i.budget) >= 1 ==> ok && i.budget >= old(i.budget) - 1)
  {
    q := p;
    if Behind(i, base, original, p) && 5 <= p < BACK { JournalsOnTheWayBack(base, original, p); }
    hide BackAt, Concludable;
    var id := original.plan.jobId;
    if id in i.disk.reversed {
      ok := i.disk.reversed[id] == Reverse(original, Reversed);
    } else {
      ok, q := TakeBack(i, original, SaveHistory, base, q);
    }
  }

  /** Deletes the forward journal, unless an earlier attempt did, and last the switchback. */
  method DropJournals(i: Installation, original: Journal, ghost base: Disk, ghost p: nat) returns (ok: bool, ghost q: nat)
    modifies i`disk, i`budget
    ensures i.disk == old(i.disk).(journal := i.disk.journal, reverse := i.disk.reverse)
    ensures i.disk.journal == old(i.disk.journal) || i.disk.journal.None?
    ensures i.disk.reverse == old(i.disk.reverse) || (i.disk.reverse.None? && i.disk.journal.None?)
    ensures ok ==> i.disk.reverse.None? && i.disk.journal.None?
    ensures old(Behind(i, base, original, p)) && 6 <= p < BACK ==>
              && p <= q <= BACK && Behind(i, base, original, q)
              && (ok ==> q == BACK)
              && (old(i.budget) >= 2 ==> ok)
  {
    q := p;
    if Behind(i, base, original, p) && 6 <= p < BACK { JournalsOnTheWayBack(base, original, p); }
    hide BackAt, Concludable;
    if i.disk.journal.Some? {
      ok, q := TakeBack(i, original, DropJournal, base, q);
      if !ok { return; }
    }
    ok, q := TakeBack(i, original, DropReverse, base, q);
  }

  /** Lets go of a finished switchback: copy, forward journal, switchback, in this order. */
  method ArchiveSwitchback(i: Installation, original: Journal, ghost base: Disk, ghost p: nat) returns (ok: bool, ghost q: nat)
    requires i.disk.reverse == Some(Reverse(original, Reversed)) && LoadableReverse(i.disk)
    modifies i`disk, i`budget
    ensures i.disk == old(i.disk).(reversed := i.disk.reversed, journal := i.disk.journal, reverse := i.disk.reverse)
    ensures i.disk.reverse == old(i.disk.reverse) || (i.disk.reverse.None? && i.disk.journal.None?)
    ensures LoadableReverse(i.disk)
    ensures forall id | id in old(i.disk.reversed) :: id in i.disk.reversed && i.disk.reversed[id] == old(i.disk.reversed)[id]
    ensures old(Behind(i, base, original, p)) && 5 <= p < BACK ==>
              && p <= q <= BACK && Behind(i, base, original, q)
              && (ok ==> q == BACK)
              && (old(i.budget) >= 3 ==> ok)
  {
    hide BackAt, Concludable;
    ok, q := KeepCopy(i, original, base, p);
    if !ok { return; }
    ok, q := DropJournals(i, original, base, q);
  }

  // ------------------------------------------------------- the phases before a commit

  /** Only journals, preparation and traffic differ from the disk the transition began on. */
  ghost predicate Untouched(base: Disk, d: Disk) {
    d == base.(journal := d.journal, reverse := d.reverse, preparation := d.preparation, upstreams := d.upstreams, live := d.live)
  }

  /** Moves the proxy's file, and then the proxy. */
  method SwitchTraffic(i: Installation, slot: Slot) returns (go: bool)
    modifies i`disk, i`budget
    ensures i.disk == old(i.disk).(upstreams := i.disk.upstreams, live := i.disk.live)
    ensures i.disk.upstreams == old(i.disk.upstreams) || i.disk.upstreams == slot
    ensures i.disk.live == old(i.disk.live) || Routed(i.disk, slot)
    ensures go ==> Routed(i.disk, slot)
    ensures old(i.budget) == 0 ==> !go && i.disk == old(i.disk)
    ensures old(i.budget) == 1 ==> !go && i.disk == old(i.disk).(upstreams := slot)
    ensures i.budget <= old(i.budget) && (old(i.budget) >= 2 ==> go && i.budget == old(i.budget) - 2)
  {
    go := i.Spend();
    if !go { return; }
    i.disk := i.disk.(upstreams := slot);
    go := i.Spend();
    if !go { return; }
    i.disk := i.disk.(live := slot);
  }

  /** The journal moves one phase at a time; any other write is refused. */
  method SaveJournal(i: Installation, journal: Journal) returns (go: bool)
    requires i.disk.journal.Some?
    modifies i`disk, i`budget
    ensures go == (old(i.budget) > 0 && journal.plan == old(i.disk.journal).value.plan && journal.phase.Follows(old(i.disk.journal).value.phase))
    ensures i.budget <= old(i.budget)
    ensures go ==> i.budget == old(i.budget) - 1
    ensures i.disk == if go then old(i.disk).(journal := Some(journal)) else old(i.disk)
  {
    if journal.plan != i.disk.journal.value.plan || !journal.phase.Follows(i.disk.journal.value.phase) { return false; }
    go := i.Spend();
    if go { i.disk := i.disk.(journal := Some(journal)); }
  }

  /** A switchback begins at its first phase and moves one phase at a time. */
  predicate Accepted(before: Option<Reverse>, reverse: Reverse) {
    match before
    case None => reverse.phase.PreparingPrevious?
    case Some(b) => reverse.original == b.original && reverse.phase.Follows(b.phase)
  }

  method SaveReverse(i: Installation, reverse: Reverse) returns (go: bool)
    modifies i`disk, i`budget
    ensures go == (old(i.budget) > 0 && Accepted(old(i.disk.reverse), reverse))
    ensures i.budget <= old(i.budget)
    ensures go ==> i.budget == old(i.budget) - 1
    ensures i.disk == if go then old(i.disk).(reverse := Some(reverse)) else old(i.disk)
  {
    if !Accepted(i.disk.reverse, reverse) { return false; }
    go := i.Spend();
    if go { i.disk := i.disk.(reverse := Some(reverse)); }
  }

  /** Time passes while requests drain or a process exits. */
  method Wait(i: Installation) returns (go: bool)
    modifies i`budget
    ensures go == (old(i.budget) > 0) && (go ==> i.budget == old(i.budget) - 1)
    ensures i.budget <= old(i.budget)
  {
    go := i.Spend();
  }

  /** The phase after an early one; none while requests drain or a process exits. */
  function Successor(phase: Phase, idle: bool, expired: bool): Option<Phase>
    requires phase.Early() && !phase.DrainBudgetExhausted?
  {
    match phase
    case OpeningCandidate => Some(Phase.SwitchingTraffic)
    case SwitchingTraffic => Some(ClosingPrevious)
    case ClosingPrevious => Some(Phase.DrainingPrevious)
    case DrainingPrevious => if expired then Some(DrainBudgetExhausted) else if idle then Some(RetiringPrevious) else None
    case RetiringPrevious => if idle then Some(Committing) else None
  }

  /** In SwitchingTraffic, moves the traffic to the candidate unless it is there. */
  method Reroute(i: Installation, journal: Journal) returns (go: bool)
    requires AcceptsProxy(journal, i.disk)
    modifies i`disk, i`budget
    ensures i.disk == old(i.disk).(upstreams := i.disk.upstreams, live := i.disk.live) && AcceptsProxy(journal, i.disk)
    ensures i.budget <= old(i.budget) && (old(i.budget) >= 2 ==> go && i.budget >= old(i.budget) - 2)
    ensures !journal.phase.SwitchingTraffic? || old(i.disk.live) != journal.plan.previous.slot ==>
              go && i.disk == old(i.disk) && i.budget == old(i.budget)
    ensures go && journal.phase.SwitchingTraffic? ==> Routed(i.disk, journal.plan.candidate.slot)
  {
    go := true;
    if journal.phase.SwitchingTraffic? && i.disk.live == journal.plan.previous.slot {
      go := SwitchTraffic(i, journal.plan.candidate.slot);
    }
  }

  lemma ProxyFollows(journal: Journal, d: Disk, idle: bool, expired: bool)
    requires journal.phase.Early() && !journal.phase.DrainBudgetExhausted? && AcceptsProxy(journal, d)
    requires journal.phase.SwitchingTraffic? ==> Routed(d, journal.plan.candidate.slot)
    requires Successor(journal.phase, idle, expired).Some?
    ensures var next := Journal(journal.plan, Successor(journal.phase, idle, expired).value);
            AcceptsProxy(next, d.(journal := Some(next))) && !next.phase.Complete?
  {
  }

  /** Records the next phase, or lets time pass. */
  method Checkpoint(i: Installation, journal: Journal, idle: bool, expired: bool) returns (go: bool)
    requires i.disk.journal == Some(journal) && journal.phase.Early() && !journal.phase.DrainBudgetExhausted?
    requires AcceptsProxy(journal, i.disk) && (journal.phase.SwitchingTraffic? ==> Routed(i.disk, journal.plan.candidate.slot))
    modifies i`disk, i`budget
    ensures i.disk == old(i.disk).(journal := i.disk.journal)
    ensures i.disk.journal.Some? && i.disk.journal.value.plan == journal.plan
    ensures i.disk.journal.value == journal || i.disk.journal.value.phase.Follows(journal.phase)
    ensures var next := Successor(journal.phase, idle, expired);
            if next.None? then i.disk == old(i.disk)
            else old(i.budget) > 0 ==> i.disk.journal == Some(Journal(journal.plan, next.value))
    ensures AcceptsProxy(i.disk.journal.value, i.disk)
    ensures if go then i.budget < old(i.budget) else i.disk == old(i.disk)
    ensures i.budget <= old(i.budget) && (old(i.budget) >= 1 ==> go && i.budget == old(i.budget) - 1)
  {
    hide AcceptsProxy, Routed;
    var next := Successor(journal.phase, idle, expired);
    if next.Some? {
      ProxyFollows(journal, i.disk, idle, expired);
      go := SaveJournal(i, Journal(journal.plan, next.value));
    } else {
      go := Wait(i);
    }
  }

  /** Traffic first, then the next phase. */
  method RerouteAndRecord(i: Installation, journal: Journal, idle: bool, expired: bool) returns (go: bool)
    requires i.disk.journal == Some(journal) && journal.phase.Early() && !journal.phase.DrainBudgetExhausted?
    requires AcceptsProxy(journal, i.disk)
    modifies i`disk, i`budget
    ensures i.disk == old(i.disk).(journal := i.disk.journal, upstreams := i.disk.upstreams, live := i.disk.live)
    ensures i.disk.journal.Some? && i.disk.journal.value.plan == journal.plan
    ensures i.disk.journal.value == journal || i.disk.journal.value.phase.Follows(journal.phase)
    ensures AcceptsProxy(i.disk.journal.value, i.disk)
    ensures go ==> i.budget < old(i.budget)
    ensures !go ==> i.disk.journal == Some(journal)
    ensures old(i.budget) >= 3 ==>
              && go && i.budget >= old(i.budget) - 3
              && var next := Successor(journal.phase, idle, expired);
                 i.disk.journal == if next.Some? then Some(Journal(journal.plan, next.value)) else Some(journal)
  {
    hide AcceptsProxy, Routed, Successor;
    go := Reroute(i, journal);
    if !go { return; }
    go := Checkpoint(i, journal, idle, expired);
  }

  /** One step of the forward transition before Committing: a checkpoint, a wait, or a stop
      at an error, an exhausted drain or the end of the attempt. */
  method ForwardOnce(i: Installation) returns (go: bool)
    requires i.disk.journal.Some? && i.disk.journal.value.phase.Early()
    modifies i`disk, i`budget
    ensures i.disk == old(i.disk).(journal := i.disk.journal, upstreams := i.disk.upstreams, live := i.disk.live)
    ensures i.disk.journal.Some? && i.disk.journal.value.plan == old(i.disk.journal).value.plan
    ensures i.disk.journal == old(i.disk.journal) || i.disk.journal.value.phase.Follows(old(i.disk.journal).value.phase)
    ensures AcceptsProxy(old(i.disk.journal).value, old(i.disk)) ==> AcceptsProxy(i.disk.journal.value, i.disk)
    ensures go ==> i.budget < old(i.budget)
    ensures !go ==> i.disk.journal.value.phase.Early()
    ensures !i.sight(old(i.budget)).steady || !AcceptsProxy(old(i.disk.journal).value, old(i.disk)) ==>
              !go && i.disk == old(i.disk) && i.budget == old(i.budget)
    ensures old(i.disk.journal).value.phase.DrainBudgetExhausted? ==> !go && i.disk == old(i.disk) && i.budget == old(i.budget)
    ensures var journal, sight := old(i.disk.journal).value, i.sight(old(i.budget));
            sight.steady && AcceptsProxy(journal, old(i.disk)) && !journal.phase.DrainBudgetExhausted? && old(i.budget) >= 3 ==>
              && go && i.budget >= old(i.budget) - 3
              && var next := Successor(journal.phase, sight.idle, sight.expired);
                 i.disk.journal == if next.Some? then Some(Journal(journal.plan, next.value)) else Some(journal)
  {
    hide AcceptsProxy, Routed, Successor;
    var journal := i.disk.journal.value;
    var sight := i.sight(i.budget);
    if !sight.steady || !AcceptsProxy(journal, i.disk) || journal.phase.DrainBudgetExhausted? { return false; }
    go := RerouteAndRecord(i, journal, sight.idle, sight.expired);
  }

  /** A transition that can be turned around: it has left OpeningCandidate and not begun to
      retire the previous processes, its job is in progress, the candidate serves, in the boot
      of the plan. */
  predicate Claimable(d: Disk, boot: nat)
    requires d.journal.Some?
  {
    var plan, phase := d.journal.value.plan, d.journal.value.phase;
    && !phase.OpeningCandidate? && !phase.RetiringPrevious? && !phase.Committing? && !phase.Complete?
    && plan.jobId in d.running && plan.jobId !in d.completed && Matches(d.running[plan.jobId], plan, None)
    && boot == plan.boot && !d.preparation && Routed(d, plan.candidate.slot)
  }

  /** Freezes the forward journal under a switchback: only a reversible phase, in the boot
      of the plan, with the candidate serving and the preparation archived. */
  method Claim(i: Installation) returns (claimed: bool)
    requires i.disk.journal.Some? && i.disk.reverse.None?
    modifies i`disk, i`budget
    ensures i.budget <= old(i.budget)
    ensures var journal := old(i.disk.journal).value;
            if claimed then
              && i.disk == old(i.disk).(reverse := Some(Reverse(journal, PreparingPrevious)))
              && journal.phase.Reversible() && i.boot == journal.plan.boot && !i.disk.preparation
              && Routed(i.disk, journal.plan.candidate.slot)
            else i.disk == old(i.disk)
    ensures claimed <==> Claimable(old(i.disk), i.boot) && i.sight(old(i.budget)).returnable && old(i.budget) > 0
    ensures claimed ==> i.budget == old(i.budget) - 1
  {
    var journal := i.disk.journal.value;
    var sight := i.sight(i.budget);   // processes, Runners, readiness and budget of the previous release
    claimed := false;
    if !journal.phase.Reversible() || LoadJob(i.disk, journal, false).None? { return; }
    if i.boot != journal.plan.boot || !sight.returnable { return; }
    if !AcceptsProxy(journal, i.disk) || i.disk.live != journal.plan.candidate.slot { return; }
    if i.disk.preparation { return; }
    claimed := SaveReverse(i, Reverse(journal, PreparingPrevious));
  }

  function ReverseSuccessor(phase: ReversePhase, idle: bool, expired: bool): Option<ReversePhase>
    requires !phase.CommittingPrevious? && !phase.Reversed? && !phase.CandidateExhausted?
  {
    match phase
    case PreparingPrevious => Some(SwitchingBack)
    case SwitchingBack => Some(ClosingCandidate)
    case ClosingCandidate => Some(DrainingCandidate)
    case DrainingCandidate => if expired then Some(CandidateExhausted) else if idle then Some(RetiringCandidate) else None
    case RetiringCandidate => if idle then Some(CommittingPrevious) else None
  }

  /** In SwitchingBack, moves the traffic back unless it is back. */
  method RerouteBack(i: Installation, reverse: Reverse) returns (go: bool)
    requires AcceptsReverse(reverse, i.disk)
    modifies i`disk, i`budget
    ensures i.disk == old(i.disk).(upstreams := i.disk.upstreams, live := i.disk.live) && AcceptsReverse(reverse, i.disk)
    ensures i.budget <= old(i.budget) && (old(i.budget) >= 2 ==> go && i.budget >= old(i.budget) - 2)
    ensures !reverse.phase.SwitchingBack? || old(i.disk.live) == reverse.original.plan.previous.slot ==>
              go && i.disk == old(i.disk) && i.budget == old(i.budget)
    ensures go && reverse.phase.SwitchingBack? ==> Routed(i.disk, reverse.original.plan.previous.slot)
  {
    go := true;
    if reverse.phase.SwitchingBack? && i.disk.live != reverse.original.plan.previous.slot {
      go := SwitchTraffic(i, reverse.original.plan.previous.slot);
    }
  }

  lemma ProxyFollowsBack(reverse: Reverse, d: Disk, idle: bool, expired: bool)
    requires !reverse.phase.CommittingPrevious? && !reverse.phase.Reversed? && !reverse.phase.CandidateExhausted?
    requires AcceptsReverse(reverse, d)
    requires reverse.phase.SwitchingBack? ==> Routed(d, reverse.original.plan.previous.slot)
    requires ReverseSuccessor(reverse.phase, idle, expired).Some?
    ensures var next := Reverse(reverse.original, ReverseSuccessor(reverse.phase, idle, expired).value);
            AcceptsReverse(next, d.(reverse := Some(next))) && !next.phase.Reversed?
  {
  }

  method CheckpointBack(i: Installation, reverse: Reverse, idle: bool, expired: bool) returns (go: bool)
    requires i.disk.reverse == Some(reverse)
    requires !reverse.phase.CommittingPrevious? && !reverse.phase.Reversed? && !reverse.phase.CandidateExhausted?
    requires AcceptsReverse(reverse, i.disk)
    requires (reverse.phase.SwitchingBack? ==> Routed(i.disk, reverse.original.plan.previous.slot))
    modifies i`disk, i`budget
    ensures i.disk == old(i.disk).(reverse := i.disk.reverse)
    ensures i.disk.reverse.Some? && i.disk.reverse.value.original == reverse.original
    ensures i.disk.reverse.value == reverse || i.disk.reverse.value.phase.Follows(reverse.phase)
    ensures var next := ReverseSuccessor(reverse.phase, idle, expired);
            if next.None? then i.disk == old(i.disk)
            else old(i.budget) > 0 ==> i.disk.reverse == Some(Reverse(reverse.original, next.value))
    ensures AcceptsReverse(i.disk.reverse.value, i.disk)
    ensures if go then i.budget < old(i.budget) else i.disk == old(i.disk)
    ensures i.budget <= old(i.budget) && (old(i.budget) >= 1 ==> go && i.budget == old(i.budget) - 1)
  {
    hide AcceptsReverse, Routed;
    var next := ReverseSuccessor(reverse.phase, idle, expired);
    if next.Some? {
      ProxyFollowsBack(reverse, i.disk, idle, expired);
      go := SaveReverse(i, Reverse(reverse.original, next.value));
    } else {
      go := Wait(i);
    }
  }

  /** The way back: traffic first, then the next phase. */
  method RerouteBackAndRecord(i: Installation, reverse: Reverse, idle: bool, expired: bool) returns (go: bool)
    requires i.disk.reverse == Some(reverse) && AcceptsReverse(reverse, i.disk)
    requires !reverse.phase.CommittingPrevious? && !reverse.phase.Reversed? && !reverse.phase.CandidateExhausted?
    modifies i`disk, i`budget
    ensures i.disk == old(i.disk).(reverse := i.disk.reverse, upstreams := i.disk.upstreams, live := i.disk.live)
    ensures i.disk.reverse.Some? && i.disk.reverse.value.original == reverse.original
    ensures i.disk.reverse.value == reverse || i.disk.reverse.value.phase.Follows(reverse.phase)
    ensures AcceptsReverse(i.disk.reverse.value, i.disk)
    ensures go ==> i.budget < old(i.budget)
    ensures !go ==> i.disk.reverse == Some(reverse)
    ensures old(i.budget) >= 3 ==>
              && go && i.budget >= old(i.budget) - 3
              && var next := ReverseSuccessor(reverse.phase, idle, expired);
                 i.disk.reverse == if next.Some? then Some(Reverse(reverse.original, next.value)) else Some(reverse)
  {
    hide AcceptsReverse, Routed, ReverseSuccessor;
    go := RerouteBack(i, reverse);
    if !go { return; }
    go := CheckpointBack(i, reverse, idle, expired);
  }

  /** One step of a switchback before CommittingPrevious. */
  method ReverseOnce(i: Installation) returns (go: bool)
    requires i.disk.reverse.Some? && !i.disk.reverse.value.phase.CommittingPrevious? && !i.disk.reverse.value.phase.Reversed?
    modifies i`disk, i`budget
    ensures i.disk == old(i.disk).(reverse := i.disk.reverse, upstreams := i.disk.upstreams, live := i.disk.live)
    ensures i.disk.reverse.Some? && i.disk.reverse.value.original == old(i.disk.reverse).value.original
    ensures i.disk.reverse == old(i.disk.reverse) || i.disk.reverse.value.phase.Follows(old(i.disk.reverse).value.phase)
    ensures AcceptsReverse(old(i.disk.reverse).value, old(i.disk)) ==> AcceptsReverse(i.disk.reverse.value, i.disk)
    ensures go ==> i.budget < old(i.budget)
    ensures !go ==> !i.disk.reverse.value.phase.CommittingPrevious?
    ensures !i.sight(old(i.budget)).steady || !AcceptsReverse(old(i.disk.reverse).value, old(i.disk)) ==>
              !go && i.disk == old(i.disk) && i.budget == old(i.budget)
    ensures old(i.disk.reverse).value.phase.CandidateExhausted? ==> !go && i.disk == old(i.disk) && i.budget == old(i.budget)
    ensures var reverse, sight := old(i.disk.reverse).value, i.sight(old(i.budget));
            sight.steady && AcceptsReverse(reverse, old(i.disk)) && !reverse.phase.CandidateExhausted? && old(i.budget) >= 3 ==>
              && go && i.budget >= old(i.budget) - 3
              && var next := ReverseSuccessor(reverse.phase, sight.idle, sight.expired);
                 i.disk.reverse == if next.Some? then Some(Reverse(reverse.original, next.value)) else Some(reverse)
  {
    hide AcceptsReverse, Routed, ReverseSuccessor;
    var reverse := i.disk.reverse.value;
    var sight := i.sight(i.budget);
    if !sight.steady || !AcceptsReverse(reverse, i.disk) || reverse.phase.CandidateExhausted? { return false; }
    go := RerouteBackAndRecord(i, reverse, sight.idle, sight.expired);
  }

  // ------------------------------------------------------------------ where it stands

  /** The four stretches of a transition: still reversible or not yet committing, committing
      forwards, switching back, committing the way back. */
  datatype Track = Pending | Forward(c: Disk, p: nat) | Reversing | Back(c: Disk, original: Journal, p: nat)

  /** The installation a transition may end on either way. */
  ghost predicate Ready(base: Disk, plan: Plan) {
    && plan.jobId in base.running && Matches(base.running[plan.jobId], plan, None)
    && plan.jobId !in base.completed && plan.jobId !in base.history && plan.jobId !in base.reversed
    && CandidateRelease(base, plan) && Startable(base, plan.candidate.slot)
    && OldMetadata(base, plan)
  }

  /** Where on its way from `base` a transition is. */
  ghost predicate On(base: Disk, plan: Plan, track: Track, d: Disk) {
    match track
    case Pending =>
      && Untouched(base, d) && d.reverse.None?
      && d.journal.Some? && d.journal.value.plan == plan && d.journal.value.phase.Early() && AcceptsProxy(d.journal.value, d)
    case Forward(c, p) =>
      Untouched(base, c) && Finishable(c, plan) && p <= LAST && d == At(c, plan, p)
    case Reversing =>
      && Untouched(base, d) && d.reverse.Some?
      && var reverse := d.reverse.value;
         && reverse.original.plan == plan && reverse.original.phase.Reversible() && d.journal == Some(reverse.original)
         && !reverse.phase.CommittingPrevious? && !reverse.phase.Reversed? && AcceptsReverse(reverse, d)
    case Back(c, original, p) =>
      Untouched(base, c) && original.plan == plan && Concludable(c, original) && p <= BACK && d == BackAt(c, original, p)
  }

  /** A transition that reaches Committing can be finished. */
  lemma ReadyToCommit(base: Disk, plan: Plan, d: Disk)
    requires Ready(base, plan) && Untouched(base, d) && d.reverse.None?
    requires d.journal == Some(Journal(plan, Committing)) && AcceptsProxy(Journal(plan, Committing), d)
    ensures On(base, plan, Forward(d, 0), d)
  {
    assert Finishable(d, plan);
    BeforeTheFirstStep(d, plan);
  }

  /** A switchback that reaches CommittingPrevious can be concluded. */
  lemma ReadyToReturn(base: Disk, plan: Plan, original: Journal, d: Disk)
    requires Ready(base, plan) && Untouched(base, d) && original.plan == plan && original.phase.Reversible()
    requires d.journal == Some(original) && d.reverse == Some(Reverse(original, CommittingPrevious))
    requires AcceptsReverse(d.reverse.value, d)
    ensures On(base, plan, Back(d, original, 0), d)
  {
    assert Concludable(d, original);
    BackStart(d, original);
  }
}
