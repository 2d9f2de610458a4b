/** Whole attempts of the online executor, any number of them, with machine restarts. */
module OnlineRuns {
  import opened Basics
  import opened Maintenance
  import opened OnlineCommit
  import opened OnlineDeployment
  import opened OnlineSwitchback
  import opened OnlineRecovery

  // ------------------------------------------------------------------- how it can end

  /** Archived as a success, with every pointer on the candidate. */
  predicate EndedForward(d: Disk, plan: Plan) {
    && plan.jobId !in d.running
    && plan.jobId in d.completed && d.completed[plan.jobId].status == Succeeded
    && CurrentMetadata(d, plan, true)
  }

  /** Archived as a failure, with the original installation retained. */
  predicate EndedBackward(d: Disk, plan: Plan) {
    && plan.jobId !in d.running
    && plan.jobId in d.completed && d.completed[plan.jobId].status == Failed
    && RetainedRelease(d, plan.previous)
  }

  predicate Over(d: Disk) {
    d.journal.None? && d.reverse.None?
  }

  /** A decided transition keeps its direction. */
  predicate SameWay(a: Track, b: Track) {
    && (a.Forward? ==> b.Forward? && b.c == a.c && a.p <= b.p)
    && (a.Back? ==> b.Back? && b.c == a.c && b.original == a.original && a.p <= b.p)
    && (a.Reversing? ==> b.Reversing? || b.Back?)
  }

  // --------------------------------------------------------------------- the way back

  /** How many phases a switchback has before its commit. */
  function PhasesBack(phase: ReversePhase): nat {
    match phase
    case PreparingPrevious => 5
    case SwitchingBack => 4
    case ClosingCandidate => 3
    case DrainingCandidate => 2
    case RetiringCandidate => 1
    case _ => 0
  }

  /** How many phases a transition has before its commit. */
  function PhasesAhead(phase: Phase): nat {
    match phase
    case OpeningCandidate => 5
    case SwitchingTraffic => 4
    case ClosingPrevious => 3
    case DrainingPrevious => 2
    case RetiringPrevious => 1
    case _ => 0
  }

  /** A switchback whose candidate has used up the time it had to drain. */
  predicate Stuck(d: Disk) {
    d.reverse.Some? && d.reverse.value.phase.CandidateExhausted?
  }

  /** Nothing an attempt looks at stands in its way. */
  ghost predicate Hopeful(i: Installation, healthy: bool, plan: Plan)
    reads i`boot, i`sight
  {
    healthy && i.boot == plan.boot && Favourable(i.sight)
  }

  /** Takes a switchback up to CommittingPrevious, in the boot of the plan only. */
  method ApproachBack(i: Installation) returns (arrived: bool)
    requires i.disk.reverse.Some? && !i.disk.reverse.value.phase.Reversed?
    modifies i`disk, i`budget
    ensures i.disk == old(i.disk).(reverse := i.disk.reverse, upstreams := i.disk.upstreams, live := i.disk.live)
    ensures i.disk.reverse.Some? && i.disk.reverse.value.original == old(i.disk.reverse).value.original
    ensures AcceptsReverse(old(i.disk.reverse).value, old(i.disk)) ==> AcceptsReverse(i.disk.reverse.value, i.disk)
    ensures !i.disk.reverse.value.phase.Reversed?
    ensures i.disk.reverse.value.phase.CommittingPrevious? ==> arrived == (i.boot == i.disk.reverse.value.original.plan.boot)
    ensures arrived ==> i.disk.reverse.value.phase.CommittingPrevious?
    ensures old(i.disk.reverse).value.phase.CommittingPrevious? || i.boot != old(i.disk.reverse).value.original.plan.boot ==>
              i.disk == old(i.disk) && i.budget == old(i.budget)
    ensures var reverse := old(i.disk.reverse).value;
            Favourable(i.sight) && AcceptsReverse(reverse, old(i.disk)) && !reverse.phase.CandidateExhausted? && old(i.budget) >= 15 ==>
              (i.boot == reverse.original.plan.boot ==> arrived && i.budget >= old(i.budget) - 15)
    ensures old(i.disk.reverse).value.phase.CandidateExhausted? ==> !arrived && i.disk == old(i.disk)
  {
    hide AcceptsReverse;
    if i.boot != i.disk.reverse.value.original.plan.boot { return false; }
    while !i.disk.reverse.value.phase.CommittingPrevious?
      invariant i.disk == old(i.disk).(reverse := i.disk.reverse, upstreams := i.disk.upstreams, live := i.disk.live)
      invariant i.disk.reverse.Some? && i.disk.reverse.value.original == old(i.disk.reverse).value.original
      invariant AcceptsReverse(old(i.disk.reverse).value, old(i.disk)) ==> AcceptsReverse(i.disk.reverse.value, i.disk)
      invariant !i.disk.reverse.value.phase.Reversed?
      invariant old(i.disk.reverse).value.phase.CommittingPrevious? ==> i.disk == old(i.disk) && i.budget == old(i.budget)
      invariant old(i.disk.reverse).value.phase.CandidateExhausted? ==> i.disk == old(i.disk)
      invariant var reverse, now := old(i.disk.reverse).value, i.disk.reverse.value;
                Favourable(i.sight) && AcceptsReverse(reverse, old(i.disk)) && !reverse.phase.CandidateExhausted? && old(i.budget) >= 15 ==>
                  !now.phase.CandidateExhausted? && i.budget >= old(i.budget) - 15 + 3 * PhasesBack(now.phase)
      decreases i.budget
    {
      var go := ReverseOnce(i);
      if !go { return false; }
    }
    arrived := true;
  }

  /** The end of a switchback that is Reversed: the job, then both journals. */
  method ConcludeSwitchback(i: Installation, original: Journal, ghost base: Disk, ghost p: nat) returns (ok: bool, ghost q: nat)
    requires i.disk.reverse == Some(Reverse(original, Reversed)) && LoadableReverse(i.disk)
    modifies i`disk, i`budget
    ensures Pointers(i.disk) == Pointers(old(i.disk)) && LoadableReverse(i.disk)
    ensures i.disk.reverse == old(i.disk.reverse) || (Over(i.disk) && EndedBackward(i.disk, original.plan))
    ensures old(Behind(i, base, original, p)) && 3 <= p < BACK ==>
              p <= q <= BACK && Behind(i, base, original, q) && (old(i.budget) >= 6 ==> q == BACK)
  {
    hide Concludable, BackAt, CurrentMetadata;
    ok, q := FinishSwitchback(i, original, base, p);
    if !ok { return; }
    ok, q := ArchiveSwitchback(i, original, base, q);
  }

  /** Commits the way back and records that it is Reversed. */
  method Seal(i: Installation, original: Journal, ghost base: Disk, ghost p: nat) returns (ok: bool, ghost q: nat)
    requires i.disk.reverse == Some(Reverse(original, CommittingPrevious)) && i.disk.journal == Some(original)
    modifies i`disk, i`budget
    ensures i.disk == old(i.disk).(disabled := i.disk.disabled, faulted := i.disk.faulted, reverse := i.disk.reverse)
    ensures i.disk.reverse == if ok then Some(Reverse(original, Reversed)) else old(i.disk.reverse)
    ensures old(Behind(i, base, original, p)) && p <= 2 ==>
              && p <= q <= 3 && Behind(i, base, original, q)
              && (ok ==> q == 3)
              && (old(i.budget) >= 3 ==> ok && i.budget == old(i.budget) - 3)
  {
    hide Concludable, BackAt, Returnable, Routed, LoadableReverse, Over;
    ok, q := CommitPrevious(i, original, base, p);
    if !ok { return; }
    assert Accepted(i.disk.reverse, Reverse(original, Reversed));
    ok, q := TakeBack(i, original, CompleteReverse, base, q);
  }

  /** Commits the way back and concludes it. */
  method CommitSwitchback(i: Installation, original: Journal, ghost base: Disk, ghost p: nat) returns (ok: bool, ghost q: nat)
    requires i.disk.reverse == Some(Reverse(original, CommittingPrevious)) && i.disk.journal == Some(original)
    modifies i`disk, i`budget
    ensures Pointers(i.disk) == Pointers(old(i.disk)) && LoadableReverse(i.disk)
    ensures i.disk.reverse.None? ==> Over(i.disk) && EndedBackward(i.disk, original.plan)
    ensures old(Behind(i, base, original, p)) && p <= 2 ==>
              p <= q <= BACK && Behind(i, base, original, q) && (old(i.budget) >= 9 ==> q == BACK)
  {
    hide Behind, EndedBackward;
    ok, q := Seal(i, original, base, p);
    if !ok { return; }
    ok, q := ConcludeSwitchback(i, original, base, q);
  }

  /** What the switchback on the disk says about how far it is. */
  lemma ReverseOfProgress(c: Disk, original: Journal, p: nat)
    requires Concludable(c, original) && p < BACK
    ensures var e := BackAt(c, original, p);
            && e.reverse == Some(Reverse(original, if p <= 2 then CommittingPrevious else Reversed))
            && LoadableReverse(e) && LoadReversed(e, e.reverse.value).Some?
  {
    InterruptedSwitchbackIsReturnable(c, original, p);
  }

  /** Where a switchback stands on its way from `base`. */
  ghost predicate OnTheWayBack(base: Disk, plan: Plan, track: Track, d: Disk) {
    Ready(base, plan) && On(base, plan, track, d) && (track.Reversing? || track.Back?)
  }

  lemma ReadyHasJob(base: Disk, plan: Plan, d: Disk)
    requires OnTheWayBack(base, plan, Reversing, d)
    ensures LoadReversed(d, d.reverse.value).Some?
  {
  }

  /** Ends a switchback that is Reversed, in whatever boot. */
  method ResumeReversed(i: Installation, ghost base: Disk, ghost plan: Plan, ghost track: Track) returns (ghost next: Track)
    requires i.disk.reverse.Some? && LoadableReverse(i.disk) && i.disk.reverse.value.phase.Reversed?
    modifies i`disk, i`budget
    ensures Pointers(i.disk) == Pointers(old(i.disk)) && LoadableReverse(i.disk)
    ensures i.disk.reverse.None? ==> Over(i.disk) && EndedBackward(i.disk, old(i.disk.reverse).value.original.plan)
    ensures !AcceptsReverse(old(i.disk.reverse).value, old(i.disk)) ==> i.disk == old(i.disk) && next == track
    ensures old(OnTheWayBack(base, plan, track, i.disk)) ==>
              && track.Back? && OnTheWayBack(base, plan, next, i.disk) && SameWay(track, next)
              && (old(i.budget) >= 13 ==> next == Back(track.c, track.original, BACK))
  {
    next := track;
    var original := i.disk.reverse.value.original;
    ghost var behind := OnTheWayBack(base, plan, track, i.disk);
    if behind {
      ReverseOfProgress(track.c, track.original, track.p);
      InterruptedSwitchbackIsReturnable(track.c, track.original, track.p);
    }
    hide Ready, Concludable, BackAt, LoadReversed, RetainedRelease, Untouched, AcceptsProxy, OldMetadata, EndedBackward;
    if !AcceptsReverse(i.disk.reverse.value, i.disk) { return; }
    ghost var c, p, q := if behind then track.c else i.disk, if behind then track.p else 0, 0;
    var ok;
    ok, q := ConcludeSwitchback(i, original, c, p);
    if behind { next := Back(c, original, q); }
  }

  /** The same switchback, its journal and traffic moved on. */
  ghost predicate MovedBack(d: Disk, e: Disk) {
    && d.reverse.Some? && e.reverse.Some? && e.reverse.value.original == d.reverse.value.original
    && e == d.(reverse := e.reverse, upstreams := e.upstreams, live := e.live)
    && (AcceptsReverse(d.reverse.value, d) ==> AcceptsReverse(e.reverse.value, e))
    && !e.reverse.value.phase.Reversed?
  }

  lemma MovedBackIsOn(base: Disk, plan: Plan, d: Disk, e: Disk)
    requires MovedBack(d, e)
    ensures Pointers(e) == Pointers(d)
    ensures d.journal == Some(d.reverse.value.original) ==> e.journal == Some(d.reverse.value.original) && LoadableReverse(e)
    ensures OnTheWayBack(base, plan, Reversing, d) ==>
              OnTheWayBack(base, plan, if e.reverse.value.phase.CommittingPrevious?
                                       then Back(e, d.reverse.value.original, 0)
                                       else Reversing, e)
  {
    if OnTheWayBack(base, plan, Reversing, d) && e.reverse.value.phase.CommittingPrevious? {
      ReadyToReturn(base, plan, d.reverse.value.original, e);
    }
  }

  /** Where a switchback stands that has arrived at its commit. */
  lemma ArrivedBack(base: Disk, plan: Plan, track: Track, d: Disk, e: Disk) returns (c: Disk, p: nat)
    requires MovedBack(d, e) && e.reverse.value.phase.CommittingPrevious? && !d.reverse.value.phase.Reversed?
    requires d.reverse.value.phase.CommittingPrevious? ==> e == d
    requires OnTheWayBack(base, plan, track, d)
    ensures p <= 2 && OnTheWayBack(base, plan, Back(c, d.reverse.value.original, p), e)
    ensures track.Back? ==> track == Back(c, d.reverse.value.original, p)
  {
    if track.Back? {
      c, p := track.c, track.p;
      ReverseOfProgress(c, track.original, p);
    } else {
      c, p := e, 0;
      MovedBackIsOn(base, plan, d, e);
    }
  }

  lemma BehindOfTrack(base: Disk, plan: Plan, c: Disk, original: Journal, p: nat, e: Disk)
    requires OnTheWayBack(base, plan, Back(c, original, p), e)
    ensures Concludable(c, original) && e == BackAt(c, original, p)
  {
  }

  lemma TrackOfBehind(base: Disk, plan: Plan, c: Disk, original: Journal, p: nat, e: Disk, q: nat, f: Disk)
    requires OnTheWayBack(base, plan, Back(c, original, p), e) && Concludable(c, original)
    requires q <= BACK && f == BackAt(c, original, q)
    ensures OnTheWayBack(base, plan, Back(c, original, q), f)
  {
  }

  /** Commits a switchback that has arrived there. */
  method CommitArrived(i: Installation, original: Journal, ghost base: Disk, ghost plan: Plan, ghost c: Disk, ghost p: nat,
                       ghost behind: bool)
    returns (ghost next: Track)
    requires i.disk.reverse == Some(Reverse(original, CommittingPrevious)) && i.disk.journal == Some(original)
    requires behind ==> p <= 2 && OnTheWayBack(base, plan, Back(c, original, p), i.disk)
    modifies i`disk, i`budget
    ensures Pointers(i.disk) == Pointers(old(i.disk)) && LoadableReverse(i.disk)
    ensures i.disk.reverse.None? ==> Over(i.disk) && EndedBackward(i.disk, original.plan)
    ensures behind ==> OnTheWayBack(base, plan, next, i.disk) && SameWay(Back(c, original, p), next)
    ensures behind && old(i.budget) >= 9 ==> next == Back(c, original, BACK)
  {
    ghost var e := i.disk;
    if behind { BehindOfTrack(base, plan, c, original, p, e); }
    hide Concludable, BackAt, EndedBackward, OnTheWayBack, LoadableReverse, Pointers;
    var ok;
    ghost var q;
    ok, q := CommitSwitchback(i, original, c, p);
    next := Back(c, original, q);
    if behind { TrackOfBehind(base, plan, c, original, p, e, q, i.disk); }
  }

  lemma PlanOfReverse(base: Disk, plan: Plan, track: Track, d: Disk)
    requires OnTheWayBack(base, plan, track, d) && d.reverse.Some?
    ensures d.reverse.value.original.plan == plan
    ensures track.Back? && !d.reverse.value.phase.Reversed? ==> d.reverse.value.phase.CommittingPrevious?
    ensures track.Reversing? ==> !d.reverse.value.phase.CommittingPrevious?
  {
    if track.Back? { ReverseOfProgress(track.c, track.original, track.p); }
  }

  /** Takes a switchback to its commit, in the boot of the plan only. */
  method ArriveBack(i: Installation, ghost base: Disk, ghost plan: Plan, ghost track: Track)
    returns (arrived: bool, ghost next: Track)
    requires i.disk.reverse.Some? && i.disk.journal == Some(i.disk.reverse.value.original)
    requires !i.disk.reverse.value.phase.Reversed?
    modifies i`disk, i`budget
    ensures Pointers(i.disk) == Pointers(old(i.disk)) && LoadableReverse(i.disk)
    ensures i.disk.reverse.Some? && i.disk.journal == Some(old(i.disk.reverse).value.original)
    ensures arrived ==> i.disk.reverse == Some(Reverse(old(i.disk.reverse).value.original, CommittingPrevious))
    ensures old(OnTheWayBack(base, plan, track, i.disk)) ==>
              && OnTheWayBack(base, plan, next, i.disk) && SameWay(track, next)
              && (arrived ==> next.Back? && next.original == old(i.disk.reverse).value.original && next.p <= 2)
              && (track.Back? ==> next == track && i.budget == old(i.budget) && arrived == (i.boot == plan.boot))
              && (i.boot != plan.boot ==> !arrived && i.disk == old(i.disk) && next == track)
              && (i.boot == plan.boot && Favourable(i.sight) && old(i.budget) >= 15 && !Stuck(old(i.disk)) ==>
                    arrived && i.budget >= old(i.budget) - 15)
              && (Stuck(old(i.disk)) ==> !arrived && next == track)
  {
    next := track;
    ghost var d := i.disk;
    ghost var behind := OnTheWayBack(base, plan, track, d);
    if behind { PlanOfReverse(base, plan, track, d); }
    hide Ready, Concludable, BackAt, Untouched, AcceptsReverse, AcceptsProxy, OnTheWayBack, LoadableReverse, Pointers;
    arrived := ApproachBack(i);
    assert MovedBack(d, i.disk);
    MovedBackIsOn(base, plan, d, i.disk);
    if behind && arrived {
      ghost var c, p := ArrivedBack(base, plan, track, d, i.disk);
      next := Back(c, d.reverse.value.original, p);
    }
  }

  /** Takes a switchback to its commit and through it, in the boot of the plan only. */
  method ResumeReversing(i: Installation, ghost base: Disk, ghost plan: Plan, ghost track: Track) returns (ghost next: Track)
    requires i.disk.reverse.Some? && i.disk.journal == Some(i.disk.reverse.value.original)
    requires !i.disk.reverse.value.phase.Reversed?
    modifies i`disk, i`budget
    ensures Pointers(i.disk) == Pointers(old(i.disk)) && LoadableReverse(i.disk)
    ensures i.disk.reverse.None? ==> Over(i.disk) && EndedBackward(i.disk, old(i.disk.reverse).value.original.plan)
    ensures old(OnTheWayBack(base, plan, track, i.disk)) ==> OnTheWayBack(base, plan, next, i.disk) && SameWay(track, next)
    ensures old(OnTheWayBack(base, plan, track, i.disk)) && track.Back? && i.boot == plan.boot && old(i.budget) >= 13 ==>
              next == Back(track.c, track.original, BACK)
    ensures old(OnTheWayBack(base, plan, track, i.disk)) && i.boot != plan.boot ==> i.disk == old(i.disk) && next == track
    ensures old(OnTheWayBack(base, plan, track, i.disk)) && i.boot == plan.boot && Favourable(i.sight) && old(i.budget) >= 24 ==>
              if Stuck(old(i.disk)) then next == track else next.Back? && next.p == BACK
  {
    hide OnTheWayBack, LoadableReverse, Pointers, EndedBackward, Over;
    var original := i.disk.reverse.value.original;
    ghost var behind := OnTheWayBack(base, plan, track, i.disk);
    var arrived;
    arrived, next := ArriveBack(i, base, plan, track);
    if !arrived { return; }
    ghost var c, p := if behind then next.c else i.disk, if behind then next.p else 0;
    next := CommitArrived(i, original, base, plan, c, p, behind);
  }

  /** Runs the switchback on the disk.  Once its commit has begun it is ended if and only if
      it is Reversed or the machine has not been restarted since it was planned. */
  method RunSwitchback(i: Installation, healthy: bool, ghost base: Disk, ghost plan: Plan, ghost track: Track)
    returns (ghost next: Track)
    requires i.disk.reverse.Some? && LoadableReverse(i.disk)
    modifies i`disk, i`budget
    ensures Pointers(i.disk) == Pointers(old(i.disk)) && LoadableReverse(i.disk)
    ensures i.disk.reverse.None? ==> Over(i.disk) && EndedBackward(i.disk, old(i.disk.reverse).value.original.plan)
    ensures LoadReversed(old(i.disk), old(i.disk.reverse).value).None? || !healthy ==> i.disk == old(i.disk) && next == track
    ensures old(OnTheWayBack(base, plan, track, i.disk)) ==> OnTheWayBack(base, plan, next, i.disk) && SameWay(track, next)
    ensures old(OnTheWayBack(base, plan, track, i.disk)) && track.Back? && healthy && old(i.budget) >= 13 ==>
              (next == Back(track.c, track.original, BACK) <==> track.p > 2 || i.boot == plan.boot)
    ensures old(OnTheWayBack(base, plan, track, i.disk)) && !(track.Back? && track.p > 2) && i.boot != plan.boot ==>
              i.disk == old(i.disk) && next == track
    ensures old(OnTheWayBack(base, plan, track, i.disk)) && track.Reversing? && Hopeful(i, healthy, plan) && old(i.budget) >= 24 ==>
              if Stuck(old(i.disk)) then next == track else next.Back? && next.p == BACK
  {
    next := track;
    var reverse := i.disk.reverse.value;
    if OnTheWayBack(base, plan, track, i.disk) {
      if track.Back? { ReverseOfProgress(track.c, track.original, track.p); } else { ReadyHasJob(base, plan, i.disk); }
    }
    hide OnTheWayBack, LoadReversed, EndedBackward;
    if LoadReversed(i.disk, reverse).None? || !healthy { return; }
    if reverse.phase.Reversed? {
      next := ResumeReversed(i, base, plan, track);
    } else {
      next := ResumeReversing(i, base, plan, track);
    }
  }

  // ------------------------------------------------------------------------- forwards

  /** Takes a transition up to Committing, or stops on the way. */
  method Approach(i: Installation) returns (arrived: bool)
    requires i.disk.journal.Some? && !i.disk.journal.value.phase.Complete?
    modifies i`disk, i`budget
    ensures i.disk == old(i.disk).(journal := i.disk.journal, upstreams := i.disk.upstreams, live := i.disk.live)
    ensures i.disk.journal.Some? && i.disk.journal.value.plan == old(i.disk.journal).value.plan
    ensures AcceptsProxy(old(i.disk.journal).value, old(i.disk)) ==> AcceptsProxy(i.disk.journal.value, i.disk)
    ensures if arrived then i.disk.journal.value.phase.Committing? else i.disk.journal.value.phase.Early()
    ensures old(i.disk.journal).value.phase.Committing? ==> i.disk == old(i.disk) && i.budget == old(i.budget)
    ensures var journal := old(i.disk.journal).value;
            Favourable(i.sight) && AcceptsProxy(journal, old(i.disk)) && !journal.phase.DrainBudgetExhausted? && old(i.budget) >= 15 ==>
              arrived && i.budget >= old(i.budget) - 15
    ensures old(i.disk.journal).value.phase.DrainBudgetExhausted? ==> i.disk == old(i.disk) && i.budget == old(i.budget)
  {
    hide AcceptsProxy;
    while i.disk.journal.value.phase.Early()
      invariant i.disk == old(i.disk).(journal := i.disk.journal, upstreams := i.disk.upstreams, live := i.disk.live)
      invariant i.disk.journal.Some? && i.disk.journal.value.plan == old(i.disk.journal).value.plan
      invariant AcceptsProxy(old(i.disk.journal).value, old(i.disk)) ==> AcceptsProxy(i.disk.journal.value, i.disk)
      invariant !i.disk.journal.value.phase.Complete?
      invariant old(i.disk.journal).value.phase.Committing? ==> i.disk == old(i.disk) && i.budget == old(i.budget)
      invariant var journal, now := old(i.disk.journal).value, i.disk.journal.value;
                Favourable(i.sight) && AcceptsProxy(journal, old(i.disk)) && !journal.phase.DrainBudgetExhausted? && old(i.budget) >= 15 ==>
                  !now.phase.DrainBudgetExhausted? && i.budget >= old(i.budget) - 15 + 3 * PhasesAhead(now.phase)
      invariant old(i.disk.journal).value.phase.DrainBudgetExhausted? ==> i.disk == old(i.disk) && i.budget == old(i.budget)
      decreases i.budget
    {
      var go := ForwardOnce(i);
      if !go { return false; }
    }
    arrived := true;
  }

  /** Commits forwards and files the end. */
  method CommitForward(i: Installation, plan: Plan, ghost base: Disk, ghost p: nat) returns (ok: bool, ghost q: nat)
    requires i.disk.journal == Some(Journal(plan, Committing)) && i.disk.reverse.None?
    modifies i`disk, i`budget
    ensures i.disk.reverse.None? && (i.disk.journal.None? ==> EndedForward(i.disk, plan))
    ensures old(i.Into(base, plan, p)) && 1 <= p <= 8 ==>
              p <= q <= LAST && i.Into(base, plan, q) && (old(i.budget) >= 12 ==> q == LAST)
  {
    hide At, Finishable, CurrentMetadata, Admissible;
    ok, q := i.Commit(plan, base, p);
    if !ok { return; }
    assert Complete.Follows(i.disk.journal.value.phase);
    ok, q := i.Take(plan, CompleteJournal, base, q);
    if !ok { return; }
    ok, q := i.FinishAndArchive(plan, base, q);
  }

  lemma ClaimedIsReversing(base: Disk, plan: Plan, d: Disk, e: Disk)
    requires d.journal.Some? && d.reverse.None?
    requires e == d.(reverse := Some(Reverse(d.journal.value, PreparingPrevious)))
    requires d.journal.value.phase.Reversible() && Routed(e, d.journal.value.plan.candidate.slot)
    ensures LoadableReverse(e) && Pointers(e) == Pointers(d)
    ensures Ready(base, plan) && On(base, plan, Pending, d) ==> OnTheWayBack(base, plan, Reversing, e)
  {
  }

  /** After an error, switches back if the transition can still be claimed for it. */
  method ClaimAndReturn(i: Installation, ghost base: Disk, ghost plan: Plan) returns (ghost next: Track)
    requires i.disk.journal.Some? && i.disk.reverse.None?
    modifies i`disk, i`budget
    ensures Pointers(i.disk) == Pointers(old(i.disk)) && LoadableReverse(i.disk)
    ensures i.disk.reverse.None? ==>
              i.disk == old(i.disk) || (Over(i.disk) && EndedBackward(i.disk, old(i.disk.journal).value.plan))
    ensures !old(i.disk.journal).value.phase.Reversible() ==> i.disk == old(i.disk)
    ensures Claimable(old(i.disk), i.boot) && i.sight(old(i.budget)).returnable && old(i.budget) > 0 ==>
              i.disk.reverse.Some? || Over(i.disk)
    ensures Ready(base, plan) && On(base, plan, Pending, old(i.disk)) ==> On(base, plan, next, i.disk) && !next.Forward?
    ensures Ready(base, plan) && On(base, plan, Pending, old(i.disk)) && Claimable(old(i.disk), i.boot) && Favourable(i.sight) && old(i.budget) >= 25 ==>
              next.Back? && next.p == BACK
  {
    hide Claimable;
    next := Pending;
    ghost var d := i.disk;
    var claimed := Claim(i);
    if claimed {
      ClaimedIsReversing(base, plan, d, i.disk);
      hide Ready, On, LoadableReverse, EndedBackward, Pointers, Routed, AcceptsProxy;
      var reachable := i.sight(i.budget).reachable;
      next := RunSwitchback(i, reachable, base, plan, Reversing);
    }
  }

  /** The same transition, its preparation archived and its journal and traffic moved on. */
  ghost predicate MovedOn(d: Disk, e: Disk) {
    && d.journal.Some? && e.journal.Some? && e.journal.value.plan == d.journal.value.plan
    && e == d.(preparation := false, journal := e.journal, upstreams := e.upstreams, live := e.live)
    && (AcceptsProxy(d.journal.value, d) ==> AcceptsProxy(e.journal.value, e))
  }

  lemma NothingPrepared(d: Disk, plan: Plan)
    requires Finishable(d, plan) && !d.preparation
    ensures At(d, plan, 1) == d
  {
    BeforeTheFirstStep(d, plan);
    assert At(d, plan, 1) == At(d, plan, 0);
  }

  lemma MovedOnIsOn(base: Disk, plan: Plan, d: Disk, e: Disk)
    requires MovedOn(d, e)
    ensures Pointers(e) == Pointers(d) && e.reverse == d.reverse
    ensures On(base, plan, Pending, d) && e.journal.value.phase.Early() ==> On(base, plan, Pending, e)
    ensures Ready(base, plan) && On(base, plan, Pending, d) && e.journal.value.phase.Committing? ==>
              On(base, plan, Forward(e, 1), e) && e.journal.value.plan == plan
  {
    if Ready(base, plan) && On(base, plan, Pending, d) && e.journal.value.phase.Committing? {
      ReadyToCommit(base, plan, e);
      NothingPrepared(e, plan);
    }
  }

  lemma AcceptsIgnoresPreparation(d: Disk)
    requires d.journal.Some?
    ensures AcceptsProxy(d.journal.value, d) == AcceptsProxy(d.journal.value, d.(preparation := false))
  {
  }

  /** Archives the preparation and takes the transition up to Committing. */
  method Proceed(i: Installation) returns (arrived: bool)
    requires i.disk.journal.Some? && i.disk.journal.value.phase.Early()
    modifies i`disk, i`budget
    ensures i.disk == old(i.disk) || MovedOn(old(i.disk), i.disk)
    ensures old(i.budget) == 0 ==> !arrived && i.disk == old(i.disk)
    ensures arrived ==> MovedOn(old(i.disk), i.disk)
    ensures i.disk.journal.Some?
    ensures if arrived then i.disk.journal.value.phase.Committing? else i.disk.journal.value.phase.Early()
    ensures var journal := old(i.disk.journal).value;
            Favourable(i.sight) && AcceptsProxy(journal, old(i.disk)) && !journal.phase.DrainBudgetExhausted? && old(i.budget) >= 16 ==>
              arrived && i.budget >= old(i.budget) - 16
    ensures old(i.disk.journal).value.phase.DrainBudgetExhausted? && old(i.budget) >= 1 ==>
              i.disk == old(i.disk).(preparation := false) && i.budget == old(i.budget) - 1
  {
    hide AcceptsProxy;
    arrived := i.Spend();
    if !arrived { return; }
    ghost var d := i.disk;
    i.disk := i.disk.(preparation := false);
    AcceptsIgnoresPreparation(d);
    arrived := Approach(i);
  }

  lemma MovedOnKeepsPlan(d: Disk, e: Disk)
    requires MovedOn(d, e)
    ensures e.journal.value.plan == d.journal.value.plan
  {
  }

  /** Commits a transition that has arrived at Committing. */
  method FinishForward(i: Installation, plan: Plan, ghost base: Disk, ghost basePlan: Plan, ghost ready: bool)
    returns (ghost next: Track)
    requires i.disk.journal == Some(Journal(plan, Committing)) && i.disk.reverse.None?
    requires ready ==> plan == basePlan && On(base, basePlan, Forward(i.disk, 1), i.disk)
    modifies i`disk, i`budget
    ensures i.disk.reverse.None? && LoadableReverse(i.disk)
    ensures i.disk.journal.None? ==> EndedForward(i.disk, plan)
    ensures ready ==> On(base, basePlan, next, i.disk)
    ensures ready && old(i.budget) >= 12 ==> next.Forward? && next.p == LAST
  {
    hide At, Finishable, EndedForward;
    ghost var c := i.disk;
    var ok;
    ghost var q;
    ok, q := CommitForward(i, plan, c, 1);
    next := Forward(c, q);
  }

  lemma PendingHasJob(base: Disk, plan: Plan, d: Disk, boot: nat)
    requires Ready(base, plan) && On(base, plan, Pending, d)
    ensures LoadJob(d, d.journal.value, false).Some? && d.journal.value.plan == plan && AcceptsProxy(d.journal.value, d)
    ensures d.journal.value.phase.DrainBudgetExhausted? && boot == plan.boot ==> Claimable(d.(preparation := false), boot)
  {
  }

  lemma ClaimableLoads(d: Disk, boot: nat)
    requires d.journal.Some? && Claimable(d, boot)
    ensures LoadJob(d, d.journal.value, false).Some? && boot == d.journal.value.plan.boot
  {
  }

  /** Takes a transition to its commit and through it; what stops on the way is switched back
      if it can be. */
  method GoForward(i: Installation, ghost base: Disk, ghost plan: Plan) returns (ghost next: Track)
    requires i.disk.journal.Some? && i.disk.reverse.None? && i.disk.journal.value.phase.Early()
    modifies i`disk, i`budget
    ensures LoadableReverse(i.disk) && (i.disk.reverse.Some? ==> Pointers(i.disk) == Pointers(old(i.disk)))
    ensures Over(i.disk) ==>
              EndedForward(i.disk, old(i.disk.journal).value.plan) || EndedBackward(i.disk, old(i.disk.journal).value.plan)
    ensures Ready(base, plan) && On(base, plan, Pending, old(i.disk)) ==> On(base, plan, next, i.disk)
    ensures Ready(base, plan) && On(base, plan, Pending, old(i.disk)) && Hopeful(i, true, plan) && old(i.budget) >= 28 ==>
              if old(i.disk.journal).value.phase.DrainBudgetExhausted?
              then next.Back? && next.p == BACK
              else next.Forward? && next.p == LAST
  {
    hide Ready, EndedForward, EndedBackward, MovedOn, Pointers, Claimable, LoadJob, AcceptsProxy, Routed;
    ghost var d := i.disk;
    ghost var ready := Ready(base, plan) && On(base, plan, Pending, d);
    if ready { PendingHasJob(base, plan, d, i.boot); }
    var arrived := Proceed(i);
    if MovedOn(d, i.disk) {
      MovedOnIsOn(base, plan, d, i.disk);
      MovedOnKeepsPlan(d, i.disk);
    }
    hide On, LoadableReverse;
    if arrived {
      next := FinishForward(i, i.disk.journal.value.plan, base, plan, ready);
    } else {
      next := ClaimAndReturn(i, base, plan);
    }
  }

  /** Resumes a transition before Committing: it may end the attempt anywhere, be claimed for
      a switchback, or arrive at Committing and go on from there. */
  method ResumeEarly(i: Installation, healthy: bool, ghost base: Disk, ghost plan: Plan) returns (ghost next: Track)
    requires i.disk.journal.Some? && i.disk.reverse.None? && i.disk.journal.value.phase.Early()
    modifies i`disk, i`budget
    ensures LoadableReverse(i.disk) && (i.disk.reverse.Some? ==> Pointers(i.disk) == Pointers(old(i.disk)))
    ensures Over(i.disk) ==>
              EndedForward(i.disk, old(i.disk.journal).value.plan) || EndedBackward(i.disk, old(i.disk.journal).value.plan)
    ensures Ready(base, plan) && On(base, plan, Pending, old(i.disk)) ==> On(base, plan, next, i.disk)
    ensures LoadJob(old(i.disk), old(i.disk.journal).value, false).None? ==> i.disk == old(i.disk) && next == Pending
    ensures !healthy && i.sight(old(i.budget)).compatible ==> i.disk == old(i.disk) && next == Pending
    ensures !healthy && !i.sight(old(i.budget)).compatible && Claimable(old(i.disk), i.boot) ==>
              (i.sight(old(i.budget)).returnable && old(i.budget) > 0 ==> i.disk.reverse.Some? || Over(i.disk))
    ensures i.boot != old(i.disk.journal).value.plan.boot ==> i.disk == old(i.disk) && next == Pending
    ensures Ready(base, plan) && On(base, plan, Pending, old(i.disk)) && Hopeful(i, healthy, plan) && old(i.budget) >= 28 ==>
              if old(i.disk.journal).value.phase.DrainBudgetExhausted?
              then next.Back? && next.p == BACK
              else next.Forward? && next.p == LAST
  {
    if Claimable(i.disk, i.boot) { ClaimableLoads(i.disk, i.boot); }
    if Ready(base, plan) && On(base, plan, Pending, i.disk) { PendingHasJob(base, plan, i.disk, i.boot); }
    hide Ready, On, EndedForward, EndedBackward, Pointers, Claimable, LoadJob, AcceptsProxy, Routed;
    next := Pending;
    var journal := i.disk.journal.value;
    if LoadJob(i.disk, journal, false).None? || i.boot != journal.plan.boot { return; }
    if healthy {
      next := GoForward(i, base, plan);
      return;
    }
    var incompatible := !i.sight(i.budget).compatible;   // a frozen release may not be taken forward
    if incompatible { next := ClaimAndReturn(i, base, plan); }
  }

  /** Resumes a transition at Committing, in the boot of the plan only. */
  method ResumeCommitting(i: Installation, healthy: bool, ghost c: Disk, ghost plan: Plan, ghost p: nat) returns (ghost q: nat)
    requires i.disk.journal.Some? && i.disk.reverse.None? && i.disk.journal.value.phase.Committing?
    modifies i`disk, i`budget
    ensures i.disk.reverse.None? && LoadableReverse(i.disk)
    ensures i.disk.journal.None? ==> EndedForward(i.disk, old(i.disk.journal).value.plan)
    ensures old(i.Into(c, plan, p)) && p < LAST ==> p <= q <= LAST && i.Into(c, plan, q)
    ensures old(i.Into(c, plan, p)) && p < LAST && healthy && i.boot == plan.boot && old(i.budget) >= 13 ==> q == LAST
    ensures LoadJob(old(i.disk), old(i.disk.journal).value, false).None? || !healthy ==> i.disk == old(i.disk) && q == p
    ensures i.boot != old(i.disk.journal).value.plan.boot ==> i.disk == old(i.disk) && q == p
  {
    q := p;
    var journal := i.disk.journal.value;
    if i.Into(c, plan, p) && p < LAST { JournalOfProgress(c, plan, p); }
    hide At, Finishable, EndedForward, LoadJob;
    if LoadJob(i.disk, journal, false).None? || i.boot != journal.plan.boot || !healthy { return; }
    var go;
    go, q := i.Take(journal.plan, ArchivePreparation, c, q);
    if !go { return; }
    go, q := CommitForward(i, journal.plan, c, q);
  }

  /** Ends a transition that is Complete, in whatever boot. */
  method ResumeComplete(i: Installation, ghost c: Disk, ghost plan: Plan, ghost p: nat) returns (ghost q: nat)
    requires i.disk.journal.Some? && i.disk.reverse.None? && i.disk.journal.value.phase.Complete?
    modifies i`disk, i`budget
    ensures i.disk.reverse.None? && LoadableReverse(i.disk)
    ensures i.disk.journal.None? ==> EndedForward(i.disk, old(i.disk.journal).value.plan)
    ensures LoadJob(old(i.disk), old(i.disk.journal).value, true).None? ==> i.disk == old(i.disk) && q == p
    ensures old(i.Into(c, plan, p)) && p < LAST ==> p <= q <= LAST && i.Into(c, plan, q) && (old(i.budget) >= 13 ==> q == LAST)
  {
    q := p;
    var journal := i.disk.journal.value;
    if i.Into(c, plan, p) && p < LAST { JournalOfProgress(c, plan, p); }
    hide At, Finishable, CurrentMetadata, LoadJob;
    if LoadJob(i.disk, journal, true).None? { return; }
    var go;
    go, q := i.Take(journal.plan, ArchivePreparation, c, q);
    if !go { return; }
    go, q := i.FinishAndArchive(journal.plan, c, q);
  }

  // -------------------------------------------------------------------- one attempt

  /** The plan of the transition on the disk. */
  function Planned(d: Disk): Plan
    requires !Over(d)
  {
    if d.reverse.Some? then d.reverse.value.original.plan else d.journal.value.plan
  }

  /** The job the journals speak of is the one on disk. */
  predicate Loadable(d: Disk)
    requires !Over(d)
  {
    if d.reverse.Some? then LoadReversed(d, d.reverse.value).Some?
    else LoadJob(d, d.journal.value, d.journal.value.phase.Complete?).Some?
  }

  ghost predicate Standing(base: Disk, plan: Plan, track: Track, d: Disk) {
    Ready(base, plan) && On(base, plan, track, d)
  }

  predicate Ended(track: Track) {
    (track.Forward? && track.p == LAST) || (track.Back? && track.p == BACK)
  }

  /** Its commit, one way or the other, has begun. */
  predicate Decided(track: Track) {
    track.Forward? || track.Back?
  }

  /** Its commit is durable, so that only the filing is left. */
  predicate Sealed(track: Track) {
    (track.Forward? && track.p > 8) || (track.Back? && track.p > 2)
  }

  /** What the journals on the disk say about where a transition stands. */
  lemma JournalsOfTrack(base: Disk, plan: Plan, track: Track, d: Disk)
    requires Standing(base, plan, track, d)
    ensures Over(d) <==> Ended(track)
    ensures LoadableReverse(d)
    ensures !Over(d) ==> Planned(d) == plan
    ensures d.reverse.Some? <==> track.Reversing? || (track.Back? && track.p < BACK)
    ensures track.Pending? ==> d.journal.value.phase.Early()
    ensures track.Forward? && track.p < LAST ==> d.journal.value.phase == if track.p <= 8 then Committing else Complete
  {
    match track
    case Pending =>
    case Reversing =>
    case Forward(c, p) => JournalOfProgress(c, plan, p);
    case Back(c, original, p) => if p < BACK { ReverseOfProgress(c, original, p); }
  }

  /** Resumes the transition the journals describe.  It ends archived as a success with every
      pointer on the candidate, or as a failure with the original installation retained.
      While a switchback exists no release pointer moves.  A transition whose commit has
      begun is ended by one attempt with time enough if and only if its commit is durable or
      the machine has not been restarted since it was planned.  If nothing stands in its way
      an attempt ends the transition from wherever it stands, forwards unless the previous
      release's drain has run out; only a switchback whose own drain has run out stays. */
  method RunExisting(i: Installation, healthy: bool, ghost base: Disk, ghost plan: Plan, ghost track: Track)
    returns (pending: bool, ghost next: Track)
    modifies i`disk, i`budget
    ensures pending == !Over(old(i.disk)) && (!pending ==> i.disk == old(i.disk))
    ensures pending && !Loadable(old(i.disk)) ==> i.disk == old(i.disk)
    ensures pending && Over(i.disk) ==>
              EndedForward(i.disk, Planned(old(i.disk))) || EndedBackward(i.disk, Planned(old(i.disk)))
    ensures old(i.disk.reverse).Some? || i.disk.reverse.Some? ==> Pointers(i.disk) == Pointers(old(i.disk))
    ensures old(Standing(base, plan, track, i.disk)) ==> Standing(base, plan, next, i.disk) && SameWay(track, next)
    ensures old(Standing(base, plan, track, i.disk)) && Decided(track) && healthy && old(i.budget) >= 13 ==>
              (Ended(next) <==> Sealed(track) || i.boot == plan.boot)
    ensures old(Standing(base, plan, track, i.disk)) && !Sealed(track) && i.boot != plan.boot ==>
              i.disk == old(i.disk) && next == track
    ensures old(Standing(base, plan, track, i.disk)) && Hopeful(i, healthy, plan) && old(i.budget) >= 28 ==>
              && (Ended(next) <==> !Stuck(old(i.disk)))
              && (track.Pending? ==> (next.Back? <==> old(i.disk.journal.Some? && i.disk.journal.value.phase.DrainBudgetExhausted?)))
  {
    next := track;
    pending := !Over(i.disk);
    if Standing(base, plan, track, i.disk) { JournalsOfTrack(base, plan, track, i.disk); }
    if !pending || !LoadableReverse(i.disk) { return; }
    hide Ready, EndedForward, EndedBackward, LoadableReverse, Pointers, At, BackAt, Finishable, Concludable, Untouched;
    hide AcceptsProxy, AcceptsReverse;
    if i.disk.reverse.Some? {
      next := RunSwitchback(i, healthy, base, plan, track);
      return;
    }
    var phase := i.disk.journal.value.phase;
    ghost var c, p, q := if track.Forward? then track.c else i.disk, if track.Forward? then track.p else 0, 0;
    if phase.Early() {
      next := ResumeEarly(i, healthy, base, plan);
    } else {
      if phase.Complete? {
        q := ResumeComplete(i, c, plan, p);
      } else {
        q := ResumeCommitting(i, healthy, c, plan, p);
      }
      next := Forward(c, q);
    }
  }

  // -------------------------------------------------------------- attempts and restarts

  datatype Event = Attempt(budget: nat, healthy: bool, sight: nat -> Sight) | Restart(boot: nat)

  lemma RestartKeepsTrack(base: Disk, plan: Plan, track: Track, d: Disk)
    requires Standing(base, plan, track, d)
    ensures var e := d.(live := d.upstreams); Standing(base, plan, track, e) && (Decided(track) ==> e == d)
  {
    match track
    case Pending =>
    case Reversing =>
    case Forward(c, p) => assert Routed(c, plan.candidate.slot);
    case Back(c, original, p) => InterruptedSwitchbackIsReturnable(c, original, p);
  }

  /** A restart brings the proxy up as its file says. */
  method Reboot(i: Installation, boot: nat, ghost base: Disk, ghost plan: Plan, ghost track: Track) returns (ghost next: Track)
    modifies i
    ensures i.boot == boot && i.disk == old(i.disk).(live := old(i.disk.upstreams))
    ensures old(Standing(base, plan, track, i.disk)) ==>
              && Standing(base, plan, next, i.disk) && SameWay(track, next)
              && (Decided(track) ==> next == track && i.disk == old(i.disk))
  {
    next := track;
    if Standing(base, plan, track, i.disk) { RestartKeepsTrack(base, plan, track, i.disk); }
    i.boot := boot;
    i.disk := i.disk.(live := i.disk.upstreams);
  }

  /** An attempt with time enough. */
  predicate Ample(event: Event) {
    event.Attempt? && event.healthy && event.budget >= 13
  }

  /** An attempt with time enough for the whole way, and nothing in it. */
  ghost predicate Smooth(event: Event) {
    event.Attempt? && event.healthy && event.budget >= 28 && Favourable(event.sight)
  }

  /** The boot of the machine when event `k` comes. */
  function BootAt(boot: nat, events: seq<Event>, k: nat): nat
    requires k <= |events|
  {
    if k == 0 then boot
    else if events[k - 1].Restart? then events[k - 1].boot
    else BootAt(boot, events, k - 1)
  }

  /** Where a transition stands, and what is on the disk. */
  datatype Point = Point(track: Track, disk: Disk)

  /** What one event can do to a transition. */
  ghost predicate Leads(plan: Plan, boot: nat, event: Event, a: Point, b: Point) {
    && SameWay(a.track, b.track)
    && (event.Restart? && Decided(a.track) ==> b == a)
    && (event.Attempt? && boot != plan.boot && !Sealed(a.track) ==> b == a)
    && (Ample(event) && Decided(a.track) ==> (Ended(b.track) <==> Sealed(a.track) || boot == plan.boot))
    && (Smooth(event) && boot == plan.boot ==> (Ended(b.track) <==> !Stuck(a.disk)))
  }

  /** A history of a transition that began on `base`: a point before every event, and the last. */
  ghost predicate History(base: Disk, plan: Plan, boot: nat, events: seq<Event>, points: seq<Point>) {
    && |points| == |events| + 1
    && (forall k | 0 <= k <= |events| :: Standing(base, plan, points[k].track, points[k].disk))
    && (forall k | 0 <= k < |events| :: Leads(plan, BootAt(boot, events, k), events[k], points[k], points[k + 1]))
  }

  /** No attempt from `j` up to `k` is made in the boot of the plan. */
  predicate Stranded(boot: nat, events: seq<Event>, j: nat, k: nat, plan: Plan)
    requires k <= |events|
  {
    forall m | j <= m < k && events[m].Attempt? :: BootAt(boot, events, m) != plan.boot
  }

  lemma StaysEnded(a: Track, b: Track, base: Disk, plan: Plan, d: Disk)
    requires SameWay(a, b) && Standing(base, plan, b, d)
    ensures Ended(a) ==> Ended(b)
    ensures Sealed(a) ==> Sealed(b)
  {
  }

  /** Once its direction is decided, a transition keeps it over any attempts and restarts, and
      what is durable or ended stays so. */
  lemma {:induction false} OneWay(base: Disk, plan: Plan, boot: nat, events: seq<Event>, points: seq<Point>, j: nat, k: nat)
    requires History(base, plan, boot, events, points) && j <= k <= |events|
    ensures SameWay(points[j].track, points[k].track)
    ensures Sealed(points[j].track) ==> Sealed(points[k].track)
    ensures Ended(points[j].track) ==> Ended(points[k].track)
  {
    hide Standing, Ample;
    if j < k {
      OneWay(base, plan, boot, events, points, j, k - 1);
      assert Leads(plan, BootAt(boot, events, k - 1), events[k - 1], points[k - 1], points[k]);
      StaysEnded(points[k - 1].track, points[k].track, base, plan, points[k].disk);
    }
  }

  /** A commit that is not durable is never taken up again outside the boot of the plan,
      however many attempts and restarts follow, and from wherever it was cut off. */
  lemma {:induction false} LeftBehind(base: Disk, plan: Plan, boot: nat, events: seq<Event>, points: seq<Point>, j: nat, k: nat)
    requires History(base, plan, boot, events, points) && j <= k <= |events|
    requires Decided(points[j].track) && !Sealed(points[j].track) && Stranded(boot, events, j, k, plan)
    ensures points[k] == points[j]
  {
    hide Standing, Ample, SameWay;
    if j < k {
      LeftBehind(base, plan, boot, events, points, j, k - 1);
      assert Leads(plan, BootAt(boot, events, k - 1), events[k - 1], points[k - 1], points[k]);
    }
  }

  /** The first attempt with time enough that finds the commit durable, or is made in the boot
      of the plan, ends the transition for good; if there is none such among the attempts with
      time enough, none of them does. */
  lemma EndsExactly(base: Disk, plan: Plan, boot: nat, events: seq<Event>, points: seq<Point>, k: nat)
    requires History(base, plan, boot, events, points) && k < |events|
    requires Ample(events[k]) && Decided(points[k].track)
    ensures Sealed(points[k].track) || BootAt(boot, events, k) == plan.boot ==> Ended(points[|events|].track)
    ensures !Sealed(points[k].track) && BootAt(boot, events, k) != plan.boot ==>
              !Ended(points[k + 1].track) && points[k + 1] == points[k]
  {
    hide Standing, SameWay;
    assert Leads(plan, BootAt(boot, events, k), events[k], points[k], points[k + 1]);
    OneWay(base, plan, boot, events, points, k + 1, |events|);
  }

  /** An attempt that nothing stands in the way of, made in the boot of the plan, ends the
      transition for good wherever the events before it left it, unless it is a switchback
      whose drain has run out. */
  lemma EndsFromAnywhere(base: Disk, plan: Plan, boot: nat, events: seq<Event>, points: seq<Point>, k: nat)
    requires History(base, plan, boot, events, points) && k < |events|
    requires Smooth(events[k]) && BootAt(boot, events, k) == plan.boot
    ensures Ended(points[k + 1].track) <==> !Stuck(points[k].disk)
    ensures !Stuck(points[k].disk) ==> Ended(points[|events|].track) && Over(points[|events|].disk)
  {
    hide SameWay;
    assert Leads(plan, BootAt(boot, events, k), events[k], points[k], points[k + 1]);
    OneWay(base, plan, boot, events, points, k + 1, |events|);
    assert Standing(base, plan, points[|events|].track, points[|events|].disk);
    JournalsOfTrack(base, plan, points[|events|].track, points[|events|].disk);
  }

  /** Any attempts and restarts, from wherever earlier ones left the disk, make a history of
      the transition; the last point is where the next ones may go on. */
  method Resume(initial: Disk, boot: nat, plan: Plan, ghost base: Disk, ghost track: Track, events: seq<Event>)
    returns (i: Installation, ghost points: seq<Point>)
    requires Standing(base, plan, track, initial)
    ensures fresh(i) && i.boot == BootAt(boot, events, |events|)
    ensures History(base, plan, boot, events, points)
    ensures points[0] == Point(track, initial) && points[|events|].disk == i.disk
  {
    hide Standing, Pointers, EndedForward, EndedBackward, SameWay, Ended, Sealed, Decided, Favourable, Stuck;
    i := new Installation(initial, boot, _ => Sight(false, false, false, false, false, false));
    points := [Point(track, initial)];
    for n := 0 to |events|
      invariant fresh(i) && i.boot == BootAt(boot, events, n)
      invariant |points| == n + 1 && points[0] == Point(track, initial) && points[n].disk == i.disk
      invariant forall k | 0 <= k <= n :: Standing(base, plan, points[k].track, points[k].disk)
      invariant forall k | 0 <= k < n :: Leads(plan, BootAt(boot, events, k), events[k], points[k], points[k + 1])
    {
      ghost var next;
      match events[n] {
        case Attempt(budget, healthy, sight) =>
          i.budget := budget;
          i.sight := sight;
          var pending;
          pending, next := RunExisting(i, healthy, base, plan, points[n].track);
        case Restart(b) =>
          next := Reboot(i, b, base, plan, points[n].track);
      }
      points := points + [Point(next, i.disk)];
      assert Leads(plan, BootAt(boot, events, n), events[n], points[n], points[n + 1]);
    }
  }

  /** Over any run the two directions exclude each other: once a release pointer has moved
      there is no switchback, and where there is a switchback, or was one, no pointer has
      moved; `active_slot` moves after everything else; and the end is archived as exactly
      one of the two outcomes. */
  lemma NeverBothDirections(base: Disk, plan: Plan, track: Track, d: Disk)
    requires Standing(base, plan, track, d) && plan.previous.version != plan.candidate.version
    ensures Pointers(d) != Pointers(base) ==> d.reverse.None? && plan.jobId !in d.reversed && track.Forward?
    ensures d.reverse.Some? || plan.jobId in d.reversed ==> Pointers(d) == Pointers(base) && RetainedRelease(d, plan.previous)
    ensures d.current != base.current ==> !RetainedRelease(d, plan.previous)
    ensures d.active != base.active ==>
              && CurrentMetadata(d, plan, true) && Promoted(base.environment, d.environment, plan.candidate.slot)
              && d.cli == d.releases[plan.candidate.version].cli && plan.jobId in d.audited
              && {Control(plan.previous.slot), SlotRunner(plan.previous.slot)} <= d.disabled
    ensures Over(d) ==> EndedForward(d, plan) != EndedBackward(d, plan)
    ensures Over(d) && EndedForward(d, plan) ==> Routed(d, plan.candidate.slot) && plan.jobId in d.history
    ensures Over(d) && EndedBackward(d, plan) ==> Routed(d, plan.previous.slot) && plan.jobId in d.reversed
  {
    JournalsOfTrack(base, plan, track, d);
    match track
    case Pending =>
    case Reversing =>
    case Forward(c, p) =>
      JournalIsArchivedLast(c, plan, p);
      ActiveSlotIsLast(c, plan, p);
      if p > 2 { NoSwitchbackAfterTheFirstPointer(c, plan, p); }
    case Back(c, original, p) =>
      InterruptedSwitchbackIsReturnable(c, original, p);
      ReverseIsDroppedLast(c, original, p);
  }
}
