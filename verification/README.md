# Verified models of aster-team

This project models the parts of aster-team whose correctness is hardest to see by
reading: transactions over durable files that may be cut off anywhere, a checkpoint
cache over a commit graph, concurrent form handlers over one database, SMTP framing,
and exact decimal money.  Each model follows the branches, the order of the writes and
the error cases of the code it cites; what the code promises is proved about it for all
inputs and all runs.

How the modules fit together:

- `Maintenance` describes an installation as a value (release pointers, running and
  enabled units, the three job directories) and the law that every step has to obey.
  `MaintenanceHost` is the machine: each write or command may succeed, fail, or lose the
  executor before or after its effect, as an arbitrary sequence of fates decides, and each
  change and each refused journal write is appended to a recorded run.
  `MaintenanceUpgrade`, `MaintenanceForward`, `MaintenanceExecutor` and
  `MaintenanceService` are the executor itself, up to any schedule of runs, submissions
  and reboots.  `MaintenanceRuns` states what a lawful run means, and `MaintenanceFailure`
  runs the executor under the one fate that defeats its journal.
- `OnlineCommit` and `OnlineDeployment` are the interruptible commit of an online
  upgrade, with a budget of steps per attempt standing for deadlines, errors and crashes.
  `OnlineSwitchback` and `OnlineRecovery` are the way back and the phases before either
  commit; `OnlineRuns` is any sequence of attempts and machine restarts.  A switchback that
  the source calls Complete is called `Reversed` here.  `OnlineOwnership` shows that all this
  keeps the contract maintenance assumes of the online owner.
- `Toml`, `Codex`, `CodexSetup`, `CodexHome` and `CodexRuns` are the Codex configuration
  transaction: documents as trees, setup and remove with a failure or crash at every write,
  and whole histories of commands.
- `Git` and `PrIntegration` are the local integration branch.
- `Intake` is the website's inquiry and trial forms with their shared rate limiter.
- `Smtp` and `SmtpSession` are dot stuffing and reply reading.
- `Decimals`, `Money` and `MoneyFormat` are exact sums and their display.

Where the code falls short of what it is for, the model keeps the code and says exactly
where:

- If neither the StoppingServices nor, right after it, the RestoringPrevious record can be
  written, the rollback still stops services while the durable record says Staging
  (`customer/backend/cli/src/maintenance_executor.rs:957-972`).  A crash then leaves a job
  that recovery only marks Failed, with Control and Runner down
  (`MaintenanceFailure.LoseServices`).  This is the only way: the write-ahead law and the
  return of the Runner hold if and only if not both writes are refused
  (`MaintenanceRuns.WriteAheadExactly`, `MaintenanceRuns.RunnerIsRestoredExactly`), and the
  release pointers keep the law always.
- An online transition whose commit has begun but is not durable is never taken up again
  after a machine restart, in either direction and however many pointers have moved
  (`customer/backend/cli/src/online_deployment.rs:170-174`); `OnlineRuns.EndsExactly` and
  `OnlineRuns.LeftBehind` give the exact condition over whole histories.
- The rate limiter counts by the time a handler reads before it asks.  By the time on the
  stored rows, the bound of twice the maximum holds for delays of at most a second between
  the two readings and fails for two, whatever the window and the maximum
  (`Intake.AtMostTwiceIfPrompt`, `Intake.LateRows`).
- A second Codex setup with another address that crashes between its first two writes
  makes a following remove report the first address as a conflict
  (`CodexRuns.InterruptedUpdateConflicts`); `CodexRuns.InterruptedUpdateRestores` gives the
  exact condition for any two setups, and `CodexRuns.RemoveRestores` for any state a crash
  can leave.
- A multi-line SMTP reply whose last line is the bare code, which section 4.2.1 of
  RFC 5321 asks clients to accept, is read past its end
  (`SmtpSession.BareLastLineIsOverrun`); `SmtpSession.ExpectReadsOneReply` gives the exact
  condition.
- After a rollback whose CLI install fails, the stable CLI may lag behind; after a recovery
  whose CLI synchronization fails, a committed upgrade is recorded as Failed.  Both are
  kept as they are, so no theorem claims otherwise.

Assumptions: semantic versions are positions in their order and job files positions in
file-name order; an `atomic_replace` that fails keeps the old content; a job is submitted
as Queued under a name never used before, or is unreadable; a unit without a definition is
neither running nor enabled; when the online owner lets go of a job, processes, slot links
and service definitions are those of the side it ended on;
verification of signatures, probes and foreign programs are oracles; a digest identifies
what it is computed from; a website handler is not resumed more than a day after it read
the clock; the clock does not run backwards.

## Model

| member | source | states |
|---|---|---|
| MaintenanceUpgrade.Quiesce | customer/backend/cli/src/maintenance_executor.rs:1011-1055 | when it reports success no unit runs and no slot Runner starts at boot, and it does so if and only if each of its seven commands succeeds; whenever it stops early no file has changed; and if the executor dies after the fifth stop, everything is down |
| MaintenanceUpgrade.DisableOthers | customer/backend/cli/src/maintenance_executor.rs:1063-1073 | every Runner but one no longer starts at boot, and nothing else changes |
| MaintenanceUpgrade.RestoreRunner | customer/backend/cli/src/maintenance_executor.rs:1057-1109 | exactly the committed Runner unit is enabled, running and probed if it ran before, and no Runner is enabled otherwise; it reports success if and only if every operation it performs succeeds |
| MaintenanceUpgrade.BringUp | customer/backend/cli/src/maintenance_executor.rs:373-384 | one slot becomes the only enabled Control and the only thing running, probed, with the other disabled before it is enabled; it reports success if and only if every operation it performs succeeds |
| MaintenanceUpgrade.Route | customer/backend/cli/src/maintenance_executor.rs:385-391 | proxy file, loaded proxy and selection name the slot and release; stopped early, nothing else has changed |
| MaintenanceUpgrade.PointAt | customer/backend/cli/src/maintenance_executor.rs:370-372 | definitions, slot link and `current` name the committed release; the commit record is untouched |
| MaintenanceUpgrade.Restored | customer/backend/cli/src/maintenance_executor.rs:361-394 | with every pointer on the committed release and its Control alone, restoring the Runner settles the installation |
| MaintenanceUpgrade.Reconcile | customer/backend/cli/src/maintenance_executor.rs:361-394 | from wherever an interrupted upgrade left the installation, success settles it on the release in `active_slot` with the Runner as checkpointed; `active_slot` is never changed; it succeeds if and only if the committed release is installed and every operation succeeds |
| MaintenanceForward.MarkPhase | customer/backend/cli/src/maintenance_executor.rs:1270-1294 | a phase is recorded without losing the checkpoint; a failed write leaves the old record and is noted in the run as refused |
| MaintenanceForward.StopAndStage | customer/backend/cli/src/maintenance_executor.rs:884-922 | the candidate's slot and definitions are in place only with everything stopped and the previous slot disabled, under a record that says so |
| MaintenanceForward.LaunchControl | customer/backend/cli/src/maintenance_executor.rs:923-935 | success leaves the candidate Control running alone and answering, started only when nothing else ran; it reports success if and only if every operation it performs succeeds |
| MaintenanceForward.StartCandidate | customer/backend/cli/src/maintenance_executor.rs:923-943 | exactly the candidate Control, and the Runner if it ran before, are up and enabled; never two Controls |
| MaintenanceForward.Switch | customer/backend/cli/src/maintenance_executor.rs:944-955 | traffic, `current`, selection and CLI name the candidate and the audit is written when `active_slot` moves, and until then `active_slot` is untouched; it reports success if and only if every operation it performs succeeds |
| MaintenanceForward.CommitSettles | customer/backend/cli/src/maintenance_executor.rs:936-955 | with the candidate up and every other pointer moved, the commit record alone settles the installation on it |
| MaintenanceForward.Advance | customer/backend/cli/src/maintenance_executor.rs:877-956 | success settles on the target with the Runner as before, and comes if and only if every operation succeeds; after an error the previous release is still committed and either the record is journaled, or nothing at all has changed and the StoppingServices record was refused |
| MaintenanceForward.RestorePrevious | customer/backend/cli/src/maintenance_executor.rs:966-988 | success settles on the previous release with the Runner as before, from any point of the forward path; it reports success if and only if every operation it performs succeeds |
| MaintenanceForward.PointBack | customer/backend/cli/src/maintenance_executor.rs:969-975 | definitions, `current` and the slot link name the previous release again and nothing else changes |
| MaintenanceForward.BringBack | customer/backend/cli/src/maintenance_executor.rs:966-985 | success leaves every pointer on the previous release and its Control up alone; it reports success if and only if every operation it performs succeeds |
| MaintenanceForward.Conclude | customer/backend/cli/src/maintenance_executor.rs:990-997 | the record becomes Failed only on a settled installation, and only then does the CLI follow; it reports success if and only if every operation it performs succeeds |
| MaintenanceForward.RestoreAndConclude | customer/backend/cli/src/maintenance_executor.rs:966-1008 | success settles on the previous release with the Runner as before, the CLI on it and a Failed record on disk, and comes if and only if every operation succeeds; stopped early, the job is held as RestoringPrevious with its checkpoint |
| MaintenanceForward.Rollback | customer/backend/cli/src/maintenance_executor.rs:957-1009 | unless the executor dies at once, the previous release is settled with its Runner, its CLI and a Failed record if and only if every operation after the first journal write succeeds, whether that write was refused or not; whatever fails, the job ends in memory as RestoringPrevious with its checkpoint, or as Failed with the previous release settled; the restore runs over a record that says Staging only if both the StoppingServices and the RestoringPrevious record were refused, and then a crash after the stops leaves every unit down under the old record |
| MaintenanceExecutor.CompleteJob | customer/backend/cli/src/maintenance_executor.rs:1296-1354 | a terminal record moves once to a free name and nothing else changes; a success is archived only with the CLI on the committed release; it reports success if and only if every operation it performs succeeds |
| MaintenanceExecutor.Record | customer/backend/cli/src/maintenance_executor.rs:1270-1294 | progress of a job that has touched nothing is recorded, or the old record stays; nothing else changes |
| MaintenanceExecutor.LoadOrInitialize | customer/backend/cli/src/maintenance_executor.rs:1454-1471 | the first commit record names what is already running and disturbs nothing |
| MaintenanceExecutor.TakeCheckpoint | customer/backend/cli/src/maintenance_executor.rs:846-876 | the release to return to and whether its Runner runs are durable before anything is stopped; it succeeds if and only if the installation is the one the job was queued for and every operation succeeds |
| MaintenanceExecutor.AdvanceOrRollBack | customer/backend/cli/src/maintenance_executor.rs:877-1009 | the upgrade is committed if and only if every operation succeeds; a single failure ends with the previous release settled again, its Runner and CLI as before, under a Failed record |
| MaintenanceExecutor.ExecuteMaintenance | customer/backend/cli/src/maintenance_executor.rs:839-1009 | ends committed and settled on the target if and only if the installation is the one the job was queued for and every operation succeeds; after a single failure either nothing was touched, or the release that was up before is up again, alone, with its Runner and CLI, under a Failed record; otherwise the job ends in a state the caller may file, with the Runner checkpoint durable before the first stop; if the two journal writes are refused and the executor dies in the restore, all units are down and the record says Staging |
| MaintenanceExecutor.EnsureMaintenanceAllowed | customer/backend/cli/src/online_journal.rs:210-240 | allowed if and only if the directories can be read and hold no evidence of an online transition |
| MaintenanceExecutor.Hold | customer/backend/cli/src/maintenance_executor.rs:165-194 | the outcome of a rollback is persisted as it is, and no archived record changes |
| MaintenanceExecutor.FailUntouched | customer/backend/cli/src/maintenance_executor.rs:128-195 | a job that has touched nothing is archived as Failed if and only if there is no evidence of an online transition and every operation succeeds |
| MaintenanceExecutor.FailRolledBack | customer/backend/cli/src/maintenance_executor.rs:165-195 | a rolled back job is archived as Failed if and only if its rollback has ended, there is no such evidence and every operation succeeds |
| MaintenanceExecutor.FinishFailed | customer/backend/cli/src/maintenance_executor.rs:128-195 | no service or pointer is touched; a job the online owner may have is left exactly as it is unless the record on disk is the same job and still preparing; with evidence of an online transition nothing is archived; otherwise the job is archived as Failed if and only if every operation succeeds and its rollback has ended |
| MaintenanceExecutor.DeleteRelease | customer/backend/cli/src/maintenance_executor.rs:1208-1268 | success leaves no release and no slot link of that version and every other release; the committed release, its pointers and its units are undisturbed in every case; it succeeds if and only if the release is installed and neither committed nor the one the job was queued for and every operation succeeds |
| MaintenanceExecutor.DetachSlot | customer/backend/cli/src/maintenance_executor.rs:1245-1262 | exactly a slot link to the deleted version disappears, and the committed release is undisturbed |
| MaintenanceExecutor.RemoveRelease | customer/backend/cli/src/maintenance_executor.rs:1245-1267 | the release and every slot link to it are gone and no other release is, if and only if every operation succeeds |
| MaintenanceService.ExecuteOnline | customer/backend/cli/src/maintenance_executor/online.rs:6-88 | exactly if the active slot is the one the job was queued for, its Runner is up, no transition is in progress and the checks succeed, the record that gives the job to its owner is on disk before the owner acts; otherwise nothing changes |
| MaintenanceService.OwnershipIsHonest | customer/backend/cli/src/maintenance_executor/online.rs:6-88 | the record that is handed over names the release that is up as the one to return to and says that its Runner runs |
| MaintenanceService.StageUpgrade | customer/backend/cli/src/maintenance_executor.rs:587-757 | an upgrade is staged, with its release installed and named by the record on disk, if and only if its upload is strictly newer and every operation succeeds; the record says Verifying and then Staging while it is checked; a refused upload changes nothing |
| MaintenanceService.Unpack | customer/backend/cli/src/maintenance_executor.rs:669-757 | the release is installed and the record names it, if and only if both writes succeed; nothing else changes |
| MaintenanceService.ExecuteUpgrade | customer/backend/cli/src/maintenance_executor.rs:587-836 | an in-place upgrade that reports success has committed the strictly newer release its upload carries; if no operation fails it succeeds exactly if the upload is newer and the installation the one the job was queued for, and an online one is handed over exactly if the upload is newer and the installation can take it; after a single failure the installation is undisturbed or the release before is back under a Failed record |
| MaintenanceService.FinishUpgrade | customer/backend/cli/src/maintenance_executor.rs:111-123 | a committed upgrade is archived as Succeeded, replaces no other record and leaves the running directory empty, if and only if every operation succeeds |
| MaintenanceService.FinishDeletion | customer/backend/cli/src/maintenance_executor.rs:111-123 | a deletion is archived as Succeeded, replaces no other record and leaves the running directory empty, if and only if every operation succeeds |
| MaintenanceService.ResumeTerminal | customer/backend/cli/src/maintenance_executor.rs:270-281 | a terminal record left in running is archived as it is, an upgrade past its checkpoint only with the CLI on the committed release and only if there is one, and nothing else changes; otherwise it reports success if and only if every operation it performs succeeds |
| MaintenanceService.SynchronizeCli | customer/backend/cli/src/maintenance_executor.rs:202-206 | the stable CLI follows the committed release next to a terminal record, and nothing else changes; it reports success if and only if every operation it performs succeeds |
| MaintenanceService.DiscardPrepared | customer/backend/cli/src/maintenance_executor.rs:295-308 | a job that had touched nothing is archived as Failed without touching anything; it reports success if and only if every operation it performs succeeds |
| MaintenanceService.Checkpoint | customer/backend/cli/src/maintenance_executor.rs:309-319 | recovery makes the Runner's state durable before it stops anything: what it finds, or the earlier checkpoint if there is one |
| MaintenanceService.RecoverUpgrade | customer/backend/cli/src/maintenance_executor.rs:309-356 | `active_slot` is kept, and success settles the installation and archives the job, as Succeeded exactly if it had got past its commit point; it succeeds if and only if the committed release is installed and every operation succeeds |
| MaintenanceService.ConcludeRecovery | customer/backend/cli/src/maintenance_executor.rs:343-356 | the verdict is archived only with the CLI synchronized; a release that cannot be verified turns it into Failed |
| MaintenanceService.RecoverFile | customer/backend/cli/src/maintenance_executor.rs:230-356 | an unreadable record, one under a wrong name, and one held by the online owner are kept and stop recovery with nothing changed; a job that says it has touched nothing is archived as Failed with no service or pointer changed; an interrupted upgrade is archived on a settled installation, as Succeeded exactly if it had got past its commit point; success means that no operation failed |
| MaintenanceService.Recover | customer/backend/cli/src/maintenance_executor.rs:210-359 | success empties the running directory, with what was in it recovered; while the online owner holds a job, any evidence of an online transition exists, or a record is unreadable or misnamed, nothing changes and recovery fails; if none of these holds, the committed release is installed and no operation fails, it succeeds; success means that no operation failed |
| MaintenanceService.Claim | customer/backend/cli/src/maintenance_executor.rs:526-585 | the first queued file, and no other, moves into the empty running directory exactly if the move takes effect, and the job is claimed exactly if it succeeds and the file is readable and under its own name |
| MaintenanceService.Execute | customer/backend/cli/src/maintenance_executor.rs:101-126 | if no operation fails the claimed job is archived: an upgrade the installation is ready for with its release committed, one that carries no newer release with nothing changed, a deletion as Succeeded exactly if the release may go, an online upgrade handed over exactly if it can be; an upgrade that meets a single failure is archived as Failed with the previous release up, undisturbed or brought back, or as Succeeded with the new one |
| MaintenanceService.RunNext | customer/backend/cli/src/maintenance_executor.rs:84-126 | every step of an executor run, ended anywhere, obeys the law of the installation; a job held by the online owner stops it before any change; if no operation fails and nothing stands in the way of recovery, what was interrupted is recovered first and the first queued job is then served on what recovery left |
| MaintenanceService.Operate | customer/backend/cli/src/maintenance_executor.rs:63-126 | any schedule of executor runs, submissions and reboots is a lawful run from its initial installation, in which every submission that may enter the queue does and every reboot brings up what is enabled |
| MaintenanceService.Restart | customer/backend/cli/src/maintenance_executor.rs:884-937 | a reboot brings up exactly the enabled units and the proxy as its file says |
| MaintenanceRuns.CommitNeverMovesBack | customer/backend/cli/src/maintenance_executor.rs:816-836 | over any run `active_slot`, once written, stays or moves to a strictly newer release |
| MaintenanceRuns.OneControlAtATime | customer/backend/cli/src/maintenance_executor.rs:884-937 | in every state of any run, with crashes and reboots, at most one Control runs and at most one is enabled, unless the online owner holds both slots |
| MaintenanceRuns.JobsAreConserved | customer/backend/cli/src/maintenance_executor.rs:526-585 | no job identity is ever lost or filed twice, and a completed record is never replaced or resurrected |
| MaintenanceRuns.ArchivedJobsAreHonest | customer/backend/cli/src/maintenance_executor.rs:1311-1354 | every job archived in a run was archived when all pointers named the committed release; a success names it, with the CLI on it |
| MaintenanceRuns.UnjournaledMeansRefused | customer/backend/cli/src/maintenance_executor.rs:957-972 | a service or unit is changed under a record that is not past Staging only in a rollback whose own record and the one of the upgrade were refused, one right after the other |
| MaintenanceRuns.HeardIsJournaled | customer/backend/cli/src/maintenance_executor.rs:957-972 | as long as one of those two writes always gets through, every step of a run is journaled |
| MaintenanceRuns.CheckpointIsObserved | customer/backend/cli/src/maintenance_executor.rs:865-867 | the durable checkpoint of an unfinished upgrade says what the Runner was doing when the upgrade began, however many crashes and recoveries ago |
| MaintenanceRuns.RunnerIsRestored | customer/backend/cli/src/maintenance_executor.rs:309-356 | at the step that archives a job the Runner runs exactly if it ran in any earlier state at rest, through whatever upgrades, crashes and recoveries came between, and through every restart inside an upgrade or with a Runner that starts at boot exactly if it runs, as long as the disk was told |
| MaintenanceRuns.RunnerSince | customer/backend/cli/src/maintenance_executor.rs:309-331 | at every point of such a stretch the state to return to is the one the Runner had at its start, and outside an upgrade the Runner has it |
| MaintenanceRuns.RunnerIsRestoredExactly | customer/backend/cli/src/maintenance_executor.rs:957-987 | under records that are not past Staging the law of the executor admits a step that loses the Runner if and only if both journal writes were refused over a staged record; that the executor takes one is MaintenanceFailure.RestoreUnheard |
| MaintenanceRuns.WriteAhead | customer/backend/cli/src/maintenance_executor.rs:282-308 | while all durable records are Queued, Verifying or Staging, services and pointers are as they were, on every stretch in which one of the two journal writes always got through |
| MaintenanceRuns.WriteAheadByRecords | customer/backend/cli/src/maintenance_executor.rs:282-308 | the same from the records alone: no upgrade had its checkpoint while it said Staging |
| MaintenanceRuns.WriteAheadExactly | customer/backend/cli/src/maintenance_executor.rs:957-972 | under such records the law of the executor admits a step that disturbs services if and only if both journal writes were refused over a staged record; that the executor takes one is MaintenanceFailure.RestoreUnheard |
| MaintenanceRuns.PointersAreWrittenAhead | customer/backend/cli/src/maintenance_executor.rs:865-884 | the same for the release pointers alone, without exception: refused writes and reboots included |
| MaintenanceFailure.RestoreUnheard | customer/backend/cli/src/maintenance_executor.rs:966-972 | at the end of any run in which both journal writes were refused, the restore the executor goes on with, cut off after its stops, leaves Control and Runner down under the old records |
| MaintenanceFailure.LoseServices | customer/backend/cli/src/maintenance_executor.rs:957-972 | on any installation the executor itself, with the two journal writes refused and a crash after the stops, ends with the job archived as Failed by the next recovery, every unit down and the Runner lost |
| MaintenanceRuns.OwnedJobsAreLeftAlone | customer/backend/cli/src/maintenance_executor.rs:156-176 | until the online owner acts, its job is not stopped, terminated or archived, and only a reboot changes what runs |
| OnlineCommit.StepAdvances | customer/backend/cli/src/online_commit.rs:380-444 | a step whose predecessors are done advances by one, and taking it again changes nothing |
| OnlineCommit.InterruptedCommitIsAdmissible | customer/backend/cli/src/online_commit.rs:170-223 | every state left by an interrupted commit passes the checks that guard the next attempt |
| OnlineCommit.ActiveSlotIsLast | customer/backend/cli/src/online_commit.rs:412-443 | `active_slot` names the candidate only when every pointer, the CLI, the audit and the startup admission do, and then the candidate's environment says that it is no candidate any more and is otherwise as it was, and the other slot's is untouched |
| OnlineCommit.JournalIsArchivedLast | customer/backend/cli/src/online_commit.rs:446-481 | the journal is gone only when the job is archived as Succeeded |
| OnlineCommit.NoSwitchbackAfterTheFirstPointer | customer/backend/cli/src/online_commit.rs:484-543 | after the first pointer change the previous release is no longer accepted for a switchback |
| OnlineCommit.VerifiedExactly | customer/backend/cli/src/slot_preparation.rs:342-380 | a slot's startup is verified if and only if its file names the slot, says that it is no candidate and ends its last line |
| OnlineCommit.RetainedExactly | customer/backend/cli/src/online_commit.rs:484-543 | the original release counts as retained if and only if it is committed, current, selected, genuine, with its own Runner and CLI, and starts as a committed one |
| OnlineCommit.FoundIsTheJob | customer/backend/cli/src/online_commit.rs:88-148 | a job is found if and only if it is that of the plan, in one directory only, and in progress or ended as the journal says |
| OnlineCommit.EndsAreFinal | customer/backend/crates/upgrade-core/src/online.rs:322-363 | a complete transition and one whose drain has run out move no further, in either direction |
| OnlineCommit.ForeignIsRefused | customer/backend/cli/src/online_commit.rs:150-223 | a pointer outside the plan, a selection that is not its release's, and a candidate that is missing, not genuine or not the planned one each keep a commit from starting |
| OnlineDeployment.PointersStayInPlan | customer/backend/cli/src/online_commit.rs:291-378 | no step up to the commit point takes a pointer out of the plan |
| OnlineDeployment.Installation.MovePointers | customer/backend/cli/src/online_commit.rs:393-424 | success leaves the previous units disabled and `current` and the selection on the candidate; the steps are resumable, stay in the plan and touch nothing else |
| OnlineDeployment.Installation.ReplaceAndAudit | customer/backend/cli/src/online_commit.rs:426-432 | success leaves the candidate's CLI and the audit of the job and touches nothing else |
| OnlineDeployment.Installation.MoveRuntime | customer/backend/cli/src/online_commit.rs:425-443 | success leaves the candidate's CLI, the audit of the job, the candidate committed in its environment and `active_slot` on it; `active_slot` moves only after the others; the steps are resumable and touch nothing else |
| OnlineDeployment.Installation.Commit | customer/backend/cli/src/online_commit.rs:380-444 | a pointer outside the plan and a spoiled candidate are refused before any change; once `active_slot` has moved every pointer, the CLI and the audit are the candidate's and its environment is committed, with nothing else changed; an interrupted attempt stays on the path; enough time reaches the all-candidate state |
| OnlineDeployment.Installation.ConfirmedExactly | customer/backend/cli/src/online_commit.rs:446-464 | a transition may be filed if and only if its job is there and every pointer, the startup and the CLI are those of the genuine candidate |
| OnlineDeployment.Installation.CloseJob | customer/backend/cli/src/online_commit.rs:465-481 | the job is marked and moved once as Succeeded, or is found archived as Succeeded |
| OnlineDeployment.Installation.Finish | customer/backend/cli/src/online_commit.rs:446-481 | only a confirmed transition archives its job, as Succeeded, once, and can be resumed between any two writes |
| OnlineDeployment.Installation.FinishAndArchive | customer/backend/cli/src/online_deployment.rs:219-239 | the journal leaves its place only with the job archived as Succeeded, and an archived journal is never replaced |
| OnlineSwitchback.BackStepAdvances | customer/backend/cli/src/online_commit/switchback.rs:39-107 | a step of a switchback whose predecessors are done advances by one, and taking it again changes nothing |
| OnlineSwitchback.InterruptedSwitchbackIsReturnable | customer/backend/cli/src/online_commit/switchback.rs:22-37 | every state left by an interrupted switchback retains the original release, routes traffic to it and passes the checks that guard the next attempt |
| OnlineSwitchback.ReverseIsDroppedLast | customer/backend/cli/src/online_journal/switchback.rs:52-128 | the switchback is gone only when the forward journal is, with the job archived as Failed over the retained original release |
| OnlineRecovery.CommitPrevious | customer/backend/cli/src/online_commit/switchback.rs:39-68 | a switchback commits only over an untouched original installation, refuses before any change otherwise, and moves no release pointer |
| OnlineRecovery.CloseFailed | customer/backend/cli/src/online_commit/switchback.rs:85-105 | the job is marked and moved once as Failed, or is found archived as Failed |
| OnlineRecovery.FinishSwitchback | customer/backend/cli/src/online_commit/switchback.rs:70-107 | only a switchback whose original installation is intact archives its job, as Failed, once, resumably |
| OnlineRecovery.KeepCopy | customer/backend/cli/src/online_journal/switchback.rs:77-92 | the copy of the finished switchback is kept before either journal is deleted, and a copy is never replaced |
| OnlineRecovery.DropJournals | customer/backend/cli/src/online_journal/switchback.rs:102-127 | the frozen forward journal goes first and the switchback last, resumably |
| OnlineRecovery.ArchiveSwitchback | customer/backend/cli/src/online_journal/switchback.rs:54-128 | the way from a finished switchback to none can be cut off anywhere and still be loaded and resumed |
| OnlineRecovery.SwitchTraffic | customer/backend/cli/src/online_deployment.rs:94-118 | the proxy follows only its file: cut off, file and proxy name the old slot, or the file alone the new one, according to the steps left |
| OnlineRecovery.Checkpoint | customer/backend/crates/upgrade-core/src/online.rs:322-363 | the phase the transition moves to is one its journal accepts as the next, so with time left it is recorded; otherwise the journal is as it was |
| OnlineRecovery.CheckpointBack | customer/backend/crates/upgrade-core/src/online/switchback.rs:311-343 | the same for the phases of a switchback |
| OnlineRecovery.ForwardOnce | customer/backend/crates/upgrade-core/src/online.rs:507-742 | one step before Committing moves only journal and traffic, skips no phase, and leaves traffic where the recorded phase allows it; nothing happens where something is not as planned or the drain has run out; otherwise, with three steps left, the journal is at the next phase or still waiting |
| OnlineRecovery.Claim | customer/backend/cli/src/online_deployment/switchback.rs:139-235 | a switchback is claimed if and only if the phase is from SwitchingTraffic to DrainBudgetExhausted, the job is in progress, the boot is that of the plan, the preparation is archived, traffic is on the candidate and the previous release can be returned to; it freezes exactly the durable forward journal |
| OnlineRecovery.ReverseOnce | customer/backend/crates/upgrade-core/src/online/switchback.rs:393-630 | one step of a switchback before its commit moves only its journal and traffic, and leaves traffic where the recorded phase allows it; nothing happens where something is not as planned or the drain has run out; otherwise, with three steps left, the journal is at the next phase or still waiting |
| OnlineRecovery.ReadyToCommit | customer/backend/crates/upgrade-core/src/online.rs:293-320 | a transition that reaches Committing over an untouched installation can be finished |
| OnlineRecovery.ReadyToReturn | customer/backend/crates/upgrade-core/src/online/switchback.rs:213-238 | a switchback that reaches CommittingPrevious over an untouched installation can be concluded |
| OnlineRuns.RunSwitchback | customer/backend/cli/src/online_deployment/switchback.rs:90-137 | no release pointer moves; the switchback is gone only with the job archived as Failed; nothing changes without the job on disk; once its commit has begun an attempt with time enough ends it if and only if it is complete or the machine was not restarted; before, one in the boot of the plan that nothing stands in the way of ends it unless its drain has run out |
| OnlineRuns.ClaimAndReturn | customer/backend/cli/src/online_deployment.rs:195-228 | an error before the previous processes retire turns the transition around if it can be claimed, and after that never does; claimed, with nothing in the way and time enough, it ends with the original installation retained |
| OnlineRuns.GoForward | customer/backend/cli/src/online_deployment.rs:195-239 | a transition that nothing stands in the way of is committed and filed, or switched back and filed if its drain has run out; stopped anywhere it stays on its way |
| OnlineRuns.ResumeEarly | customer/backend/cli/src/online_deployment.rs:168-239 | from any phase before Committing the attempt stays on the way, turns around or ends one of the two ways; in another boot, or without its job on disk, nothing changes; if nothing stands in its way it ends forwards, or backwards if the drain has run out |
| OnlineRuns.ResumeCommitting | customer/backend/cli/src/online_deployment.rs:168-224 | a commit is resumed in the boot of the plan and with its job on disk only, and ended by one attempt with time enough |
| OnlineRuns.ResumeComplete | customer/backend/cli/src/online_deployment.rs:161-167 | a complete transition is filed in whatever boot, and left alone if its job is not on disk |
| OnlineRuns.RunExisting | customer/backend/cli/src/online_deployment.rs:148-239 | the journals disappear only with the job archived as Succeeded and every pointer on the candidate, or as Failed and the original release retained; while a switchback exists no pointer moves; without the job on disk nothing changes; once a commit has begun one attempt with time enough ends it if and only if it is durable or the machine was not restarted since the plan; an attempt in the boot of the plan that nothing stands in the way of ends the transition from wherever it stands, unless it is a switchback whose drain has run out |
| OnlineRuns.Reboot | customer/backend/cli/src/online_deployment.rs:170-174 | a restart brings the proxy up as its file says and keeps the transition where it was |
| OnlineRuns.Resume | customer/backend/cli/src/online_deployment.rs:148-239 | from wherever earlier attempts left the disk, any attempts cut off anywhere and any restarts make one history: at every point the transition stands on its way from the disk it began on, and an attempt with time enough after its commit has begun ends it if and only if the commit is durable or the machine is in the boot of the plan |
| OnlineRuns.OneWay | customer/backend/cli/src/online_deployment.rs:148-239 | over any history a decided transition keeps its direction, a durable commit stays durable and an ended transition ended |
| OnlineRuns.LeftBehind | customer/backend/cli/src/online_deployment.rs:170-174 | a commit that is not durable, with however many of its pointers moved, is never taken up again by attempts outside the boot of the plan, wherever in the history the restart came |
| OnlineRuns.EndsExactly | customer/backend/cli/src/online_deployment.rs:148-239 | an attempt with time enough at any point ends the transition for good if it finds the commit durable or the boot of the plan, and otherwise changes nothing |
| OnlineRuns.EndsFromAnywhere | customer/backend/cli/src/online_deployment.rs:148-239 | an attempt in the boot of the plan that nothing stands in the way of ends the transition for good wherever the attempts and restarts before it left it, if and only if it does not find a switchback whose drain has run out |
| OnlineRuns.NeverBothDirections | customer/backend/cli/src/online_commit.rs:484-543 | at every point of every history a moved pointer excludes a switchback and a switchback a moved pointer; the original counts as retained no longer once `current` has moved; `active_slot` has moved only with every pointer, the CLI and the audit, and with the candidate committed in its environment and nothing else there changed; and the end is exactly one of the two outcomes, with traffic on its slot |
| OnlineOwnership.StaysInPlace | customer/backend/cli/src/online_commit.rs:88-148 | at every point of a transition only its own job record has changed, in its status, and it is in exactly one directory |
| OnlineOwnership.EvidenceShows | customer/backend/cli/src/online_journal.rs:210-240 | maintenance sees evidence of a transition exactly while there is a journal of either direction or a preparation |
| OnlineOwnership.LetsGoAtAnEnd | customer/backend/cli/src/online_commit.rs:446-481 | the job stops being in progress only as Succeeded with pointers, traffic and CLI on the candidate, or as Failed with them on the previous release, and the other slot disabled |
| OnlineOwnership.FilesHonestly | customer/backend/cli/src/maintenance_executor.rs:1296-1354 | seen from maintenance no record is lost, filed twice or rewritten once it is archived |
| OnlineOwnership.KeepsOwnerContract | customer/backend/cli/src/maintenance_executor.rs:156-176 | what the online executor does between any two points of a transition keeps the contract under which maintenance leaves the job to it |
| OnlineOwnership.HistoryKeepsOwnerContract | customer/backend/cli/src/online_deployment.rs:148-239 | the same over any attempts and restarts |
| Toml.PutLeaf | customer/backend/crates/codex-config/src/lib.rs:125-145 | writing a string at a path that holds a string or nothing changes no other value in the document |
| Toml.PutFails | customer/backend/crates/codex-config/src/lib.rs:125-145 | a write fails only at something on its way that is not a table |
| Toml.DropLeaf | customer/backend/asterctl/src/codex.rs:504-521 | removing such a path changes no other value and no table |
| Codex.ManagedPathsAreUnrelated | customer/backend/crates/codex-config/src/lib.rs:61-76 | no managed path leads through another |
| Codex.Restore | customer/backend/asterctl/src/codex.rs:316-321 | one field gets its earlier string or disappears, and no other value or table changes |
| Codex.RemoveFields | customer/backend/asterctl/src/codex.rs:305-329 | restores exactly the fields that still hold what was installed, keeps exactly the changed ones in order, and fails exactly at a field that holds no string |
| Codex.RemoveTouchesOnlyItsOwn | customer/backend/asterctl/src/codex.rs:316-329 | a value that is neither installed nor before, and every unrecorded path, survives remove |
| Codex.RemoveAgain | customer/backend/asterctl/src/codex.rs:360-362 | remove over its own result changes nothing and reaches the same verdict |
| Codex.PrunedTables | customer/backend/asterctl/src/codex.rs:523-552 | pruning loses no value and no other table, and leaves no empty aster table |
| CodexSetup.BuildPending | customer/backend/asterctl/src/codex.rs:401-450 | refuses exactly an unrecorded field that holds no string; otherwise records every setting with the value to return to |
| CodexSetup.ApplySettings | customer/backend/crates/codex-config/src/lib.rs:78-87 | puts every setting in force and changes no other value; it fails if and only if something that is not a table was in the way from the start |
| CodexSetup.BeforeIsBaseline | customer/backend/asterctl/src/codex.rs:376-399 | whatever a crash left, the values a new setup records are those of the first baseline |
| CodexSetup.SetupIsRecoverable | customer/backend/asterctl/src/codex.rs:141-160 | each of the states between the writes of a setup still has, or remembers, the whole baseline |
| CodexSetup.RecordIsRecoverable | customer/backend/asterctl/src/codex.rs:401-450 | before the configuration is written, the record made from a recoverable state recalls the baseline |
| CodexSetup.RecordOfBaseline | customer/backend/asterctl/src/codex.rs:376-450 | whatever a crash left, the record a new setup makes has the values of the first baseline to return to |
| CodexSetup.PendingIsRecoverable | customer/backend/asterctl/src/codex.rs:401-450 | once the configuration is written, the record made from a recoverable state recalls the baseline and the setup counts as complete |
| CodexHome.Home.Install | customer/backend/asterctl/src/codex.rs:149-161 | the record says Committed only with catalog, configuration and key in place, and an error leaves it Pending; it reports success if and only if every operation it performs succeeds |
| CodexHome.Home.Setup | customer/backend/asterctl/src/codex.rs:59-186 | in every outcome the baseline stays recoverable; it completes if and only if every operation succeeds and the configuration has strings where they are needed and nothing in the way, and is refused otherwise; refused or rolled back, configuration, record, key and catalog are as they were, and a single failure never leaves more; over a record that goes with its configuration every recorded earlier value is kept, and otherwise the current values become the baseline; completed, all settings, the key and the catalog are in force and on record |
| CodexHome.Home.Transact | customer/backend/asterctl/src/codex.rs:146-173 | wherever it ends, the new configuration is never on disk without its record, and the record never says Committed without the configuration; it completes if and only if every operation succeeds, and a single failure is refused or rolled back |
| CodexHome.KeptExactly | customer/backend/asterctl/src/codex.rs:376-399 | a record is used again if and only if there is a configuration and it names the provider or the catalog the record names |
| CodexHome.Compute | customer/backend/asterctl/src/codex.rs:59-135 | the new record keeps what an earlier one remembers, and it is refused exactly where a string is missing or something is in the way |
| CodexHome.Home.Rollback | customer/backend/asterctl/src/codex.rs:840-854 | success restores configuration, catalog, key and state exactly; the state goes last, so no early end loses the baseline; it reports success if and only if every operation it performs succeeds |
| CodexHome.Home.Remove | customer/backend/asterctl/src/codex.rs:294-358 | in every outcome the configuration is untouched or cleared; the record disappears exactly when nothing is left, and otherwise lists exactly what stays; the catalog file goes exactly when neither it nor its field was edited; it ends so if and only if there is a readable record and every operation succeeds |
| CodexHome.CatalogStays | customer/backend/asterctl/src/codex.rs:333-339 | the catalog's field is not among those that stay if and only if nobody edited it or the file |
| CodexRuns.ClearedAgain | customer/backend/asterctl/src/codex.rs:331-358 | a remove killed between its two files and run again ends as one remove |
| CodexRuns.LeftoversStay | customer/backend/asterctl/src/codex.rs:344-350 | the fields kept after a conflict are kept by every later remove |
| CodexRuns.RemoveRepeatedly | customer/backend/asterctl/src/codex.rs:294-358 | any number of removes cut off anywhere, then one that ends, have the effect of one; if no operation fails the first one ends |
| CodexRuns.RemoveRestores | customer/backend/asterctl/src/codex.rs:316-358 | from any state a crash can leave, remove gives back the baseline if and only if each recorded field holds its installed or its earlier value |
| CodexRuns.InterruptedUpdateKeeps | customer/backend/asterctl/src/codex.rs:141-146 | after a crash between the two writes of any second setup over any completed one, the fields a remove takes for edits are exactly those whose setting it was about to change, unless the setting in force was there before |
| CodexRuns.InterruptedUpdateRestores | customer/backend/asterctl/src/codex.rs:294-358 | and the remove gives the baseline back if and only if there are none |
| CodexRuns.OnlyTheAddress | customer/backend/crates/codex-config/src/lib.rs:60-76 | with the settings the tool writes and the same catalog, another address makes exactly the address such a field, over any baseline that did not hold the first address |
| CodexRuns.SetUpFromNothing | customer/backend/asterctl/src/codex.rs:125-146 | a setup of any well-formed settings where nothing was goes through, and its record returns to nothing |
| CodexRuns.RecordAgain | customer/backend/asterctl/src/codex.rs:401-450 | over a record that has all its paths, a new record has the same values to return to |
| CodexRuns.InterruptedUpdateConflicts | customer/backend/asterctl/src/codex.rs:141-146 | for any two addresses: a setup to the first where nothing was, and one to the second that crashes between its first two writes, leave a remove that keeps the first address and nothing else |
| CodexRuns.SetUpAndRemove | customer/backend/asterctl/src/codex.rs:59-358 | after any setups, each completing, failing or crashing anywhere, the last completing, a remove never conflicts, restores every value of the baseline and leaves no catalog; if no operation fails it completes |
| CodexRuns.SetUpOverEdits | customer/backend/asterctl/src/codex.rs:59-358 | over a configuration that was edited in any way but still goes with its record, a setup and a remove give every recorded field that is set again the value it had before the first setup, and complete if no operation fails and nothing is in the way |
| CodexRuns.GivesBack | customer/backend/asterctl/src/codex.rs:401-450 | a field on record that is set again and removed has the earlier value of the first record |
| Git.ChainIsFirstParents | scripts/local_pr_integration.py:317-332 | a checked chain is a first-parent path from origin/main that merges exactly its entries' heads in order |
| Git.ChainContents | scripts/local_pr_integration.py:317-332 | the branch contains the history of origin/main and of every selected head, its own merges, and nothing else |
| Git.GenuineIsRebuild | scripts/local_pr_integration.py:388-411 | a chain built by the tool, however much of it was reused, is the full rebuild of its heads |
| PrIntegration.SortKeeps | scripts/local_pr_integration.py:351-351 | the pull requests are put in ascending order and none is added or lost |
| PrIntegration.SortIsStable | scripts/local_pr_integration.py:351-351 | pull requests with one number keep their order |
| PrIntegration.LongestCommonPrefix | scripts/local_pr_integration.py:181-187 | the agreed prefix, and no longer one agrees |
| PrIntegration.MatchedHeads | scripts/local_pr_integration.py:181-187 | entries that agree with the pull requests record exactly their numbers and heads |
| PrIntegration.ValidCheckpoints | scripts/local_pr_integration.py:317-332 | accepts exactly the states that describe the branch as a chain on origin/main |
| PrIntegration.FindReusable | scripts/local_pr_integration.py:361-371 | nothing is reused of a state file that does not describe the branch, and of one that does exactly the longest agreeing prefix; everything is done exactly if it agrees with every pull request |
| PrIntegration.ChainIsIntegration | scripts/local_pr_integration.py:317-332 | a chain that agrees with the pull requests is origin/main with exactly their heads merged, and if the tool built it the full rebuild |
| PrIntegration.Workspace.BackUp | scripts/local_pr_integration.py:334-341 | exactly if the name is free and the command takes effect there is one new ref, at the branch head; no ref is ever moved or lost |
| PrIntegration.Workspace.MergeIn | scripts/local_pr_integration.py:395-407 | success is the merge of exactly these two commits, or no commit for a head already contained; a conflict leaves the branch |
| PrIntegration.Workspace.SaveState | scripts/local_pr_integration.py:278-296 | the state file is replaced whole or not at all |
| PrIntegration.Workspace.Restore | scripts/local_pr_integration.py:343-348 | after an error it reports restored if and only if the reset succeeds, and then the branch is at its original head |
| PrIntegration.Workspace.Replay | scripts/local_pr_integration.py:388-411 | extends the reused chain by exactly the remaining pull requests in order, genuinely if it was genuine; if no operation fails only a conflict of the next one with the branch stops it |
| PrIntegration.Workspace.Rebase | scripts/local_pr_integration.py:386-423 | success saves the reused entries followed by the remaining ones; a restored failure leaves branch and state file as before; if no operation fails it succeeds, or meets a conflict and restores |
| PrIntegration.Workspace.Renew | scripts/local_pr_integration.py:373-423 | the branch is backed up before it changes; success keeps the reused entries and agrees with every pull request; if no operation fails only a conflict keeps it from succeeding |
| PrIntegration.Workspace.Apply | scripts/local_pr_integration.py:350-423 | from any branch and any state file, success leaves exactly origin/main plus the pull requests in order; from its own state file that is the full rebuild over the heads asked for; nothing is touched exactly if the state file describes the branch and agrees with every pull request; otherwise the saved entries begin with the longest agreeing prefix of a state file that describes the branch; a failure that restores changes nothing; a replaced head is backed up; if no operation fails it succeeds unless two of the histories conflict |
| PrIntegration.Operate | scripts/local_pr_integration.py:334-423 | over any run every head that a request replaced is still held by a recovery ref, and the state file stays genuine unless tampered with |
| Intake.Site.Look | website/server/inquiry-handler.ts:39-40 | accepted exactly if the stored digest is the request's, conflict exactly if it is another |
| Intake.Site.Consume | website/server/rate-limit.ts:10-28 | one place is counted in the request's window and no other, and it is granted exactly while fewer than the maximum were counted |
| Intake.Site.StampRow | website/server/inquiry-handler.ts:51-51 | the time on the row is the clock's after the place was granted, not the time the place was asked for |
| Intake.Site.Store | website/server/inquiry-handler.ts:52-63 | a row is added exactly if the id is free, with the request's digest and this handler, and no row is ever overwritten; the loser reads again |
| Intake.Site.Conclude | website/server/inquiry-handler.ts:64-69 | the handler that stored the row answers that it is accepted, starts the cleanup at its time and, with mail configured, the notification; nothing else changes |
| Intake.Site.ReadClock | website/server/inquiry-handler.ts:43-43 | the time a handler uses is the clock's when it asks |
| Intake.Site.Fail | website/server/inquiry-handler.ts:70-74 | a failed statement ends the handler with an error and undoes nothing |
| Intake.Site.CleanUp | website/server/inquiry-handler.ts:66-67 | exactly the counters that expired more than a day before the handler's time disappear |
| Intake.Site.Report | website/server/inquiry-handler.ts:13-25 | a notification's end changes the status of its row and nothing else, and only for a row whose notification was started |
| Intake.StoreKeeps | website/server/inquiry-handler.ts:52-59 | storing uses a granted place and keeps the whole invariant |
| Intake.ConcludeKeeps | website/server/inquiry-handler.ts:64-69 | answering keeps the invariant, so no handler notifies twice |
| Intake.MoveKeeps | website/server/inquiry-handler.ts:38-69 | a handler's own step keeps the whole invariant |
| Intake.CountKeeps | website/server/rate-limit.ts:10-28 | counting never over-books a window, because a counter that is gone belongs to a window no live handler asks for |
| Intake.CleanUpKeeps | website/server/trial-handler.ts:102-107 | deleting old counters over-books no window |
| Intake.Operate | website/server/inquiry-handler.ts:27-75 | any interleaving of any requests, choice by choice, keeps the invariant, changes no stored content and revokes no answer |
| Intake.Step | website/server/inquiry-handler.ts:38-69 | a handler that is not finished gets on with its own request and no other moves |
| Intake.SixTurnsAnswer | website/server/inquiry-handler.ts:27-75 | in any interleaving a request that gets six turns, none more than a day after it read the clock, is answered |
| Intake.StoredIsAccepted | website/server/inquiry-handler.ts:52-69 | a handler that stored its row and answered, other than by failing, answered that it is accepted |
| Intake.AcceptedIsStored | website/server/inquiry-handler.ts:38-69 | an accepted inquiry has a row with its digest, and an accepted trial was stored |
| Intake.ConflictIsReal | website/server/inquiry-handler.ts:38-63 | a conflict is answered only for an inquiry whose row has another digest |
| Intake.Handle | website/server/inquiry-handler.ts:27-75 | a request that nothing interferes with is accepted exactly if its row is there with its digest or a place is free and it is then stored, a conflict exactly if the row has another digest, and rate limited otherwise; cleanup and notification follow the one that stored it |
| Intake.AcceptedShareOneDigest | website/server/inquiry-handler.ts:38-63 | all accepted inquiries with one id have the digest of the one stored row |
| Intake.OneNotification | website/server/inquiry-handler.ts:64-65 | at most one notification is started for an id |
| Intake.StoredInquiryIsNotified | website/server/inquiry-handler.ts:64-65 | with mail configured, a stored inquiry whose handler answered has its notification |
| Intake.LiveWindowsAreNotReset | website/server/trial-handler.ts:102-107 | while a handler may still ask for a place in a window that gave one, its counter exists |
| Intake.AtMostMaximumPerWindow | website/server/rate-limit.ts:17-28 | trials and inquiries stored for one client whose handlers read the clock in a window are at most the maximum |
| Intake.AtMostTwiceInAnyStretch | website/server/rate-limit.ts:17-28 | by the time the handlers read before asking, at most twice the maximum in any stretch of a window's length |
| Intake.AtMostInStretch | website/server/rate-limit.ts:17-28 | by that time, in a stretch of any length, at most the maximum for every window it meets |
| Intake.AtMostByCreation | website/server/inquiry-handler.ts:43-59 | by the time on the rows, at most the maximum for every window met by the stretch widened by the longest delay between the two readings of the clock |
| Intake.AtMostTwiceIfPrompt | website/server/inquiry-handler.ts:43-59 | by the time on the rows, at most twice the maximum in a window's length if no delay is longer than a second |
| Intake.LateRows | website/server/inquiry-handler.ts:43-59 | for every window and every maximum a run of the handlers with a delay of two seconds stores more than twice the maximum within one window's length |
| Smtp.SplitJoin | website/server/smtp.ts:32-34 | splitting undoes joining for lines without line breaks |
| Smtp.NormalizeIsStable | website/server/smtp.ts:32-34 | normalised text has no LF on its own and is left alone by another pass |
| Smtp.NormalizeKeepsLines | website/server/smtp.ts:32-34 | the lines of the normalised text are the text cut at every CRLF and every LF on its own |
| Smtp.ReceiveRecovers | website/server/smtp.ts:32-66 | a receiver following section 4.5.2 of RFC 5321 gets exactly the CRLF-normalised message and leaves exactly what follows it |
| Smtp.FirstEndIsTheAppendedOne | website/server/smtp.ts:63-66 | the first end-of-data sequence on the wire is the appended one |
| SmtpSession.FindBreak | website/server/smtp.ts:87-88 | the first line break, or none |
| SmtpSession.DigitsSpell | website/server/smtp.ts:68-78 | a reply code is spelled by the three digits that mean it |
| SmtpSession.Session.ReadLine | website/server/smtp.ts:85-98 | for any chunking, the next line of the whole stream, read with at most the limit buffered; otherwise the stream has no further line, or more than the limit was buffered |
| SmtpSession.Session.Expect | website/server/smtp.ts:68-78 | consumes exactly the extent of one reply as the code understands it, and allows exactly the listed codes |
| SmtpSession.ExpectReadsOneReply | website/server/smtp.ts:68-78 | that extent is one reply of section 4.2 of RFC 5321, whatever follows, if and only if the reply is one line or its last line has the space |
| SmtpSession.BareLastLineIsOverrun | website/server/smtp.ts:72-76 | a multi-line reply ending in its bare code swallows the next reply |
| SmtpSession.Converse | website/server/smtp.ts:68-98 | for any chunking and any length of the session, the k-th expect sees the k-th reply, and it stops early only with more than the limit in the buffer |
| Decimals.TextOfValue | customer/sdk/src/index.ts:82-85 | printing a number and reading it back is the identity, without leading zeros |
| Money.NanosAreExact | customer/sdk/src/index.ts:76-80 | each amount contributes exactly the decimal number it spells |
| Money.PrintIsCanonical | customer/sdk/src/index.ts:81-85 | the printed sum is canonical and means the number printed |
| Money.CanonicalIsUnique | customer/sdk/src/index.ts:81-85 | each number has one canonical spelling, so printing undoes reading |
| Money.SumIsExact | customer/sdk/src/index.ts:75-86 | the sum is the canonical spelling of the exact sum |
| Money.SumOfSums | customer/sdk/src/index.ts:75-86 | the sum of two lists is the sum of their sums |
| Money.SumOfPermutation | customer/sdk/src/index.ts:75-86 | the order of the amounts does not matter |
| MoneyFormat.FormatShows | customer/sdk/src/index.ts:61-73 | exactly the matching amounts are shown, with their currency's sign, as their rounded value without leading zeros, and anything else as a dash; a minus is shown exactly below zero |
| MoneyFormat.MatchesExactly | customer/sdk/src/index.ts:61-65 | an optional minus, digits, and a point with further digits match exactly if there are at most nine decimals |
| MoneyFormat.MatchesHasParts | customer/sdk/src/index.ts:63-64 | every amount that matches is an optional minus, at least one digit, and at most nine decimals after a point |
| MoneyFormat.NothingIsShown | customer/sdk/src/index.ts:61-65 | without an amount or a currency a dash is shown |
| MoneyFormat.SumsCanBeShown | customer/sdk/src/index.ts:61-86 | every sum is accepted for display |
| MoneyFormat.ErrsByHalfAUnit | customer/sdk/src/index.ts:66-70 | the display is off by at most half a unit, halves away from zero, and exact when no decimals are lost |
| MoneyFormat.ShowingIsMonotone | customer/sdk/src/index.ts:61-73 | a larger amount is never shown as a smaller one |

## Left out

- MaintenanceService.ExecuteOnline: does not model how the slots are prepared; what the online owner does after that is any progress its contract allows, and `OnlineOwnership` derives the contract.
- OnlineOwnership.KeepsOwnerContract: takes it that processes, slot links and service definitions are those of the side the transition ended on, because retiring processes and preparing slots are not modelled.
- MaintenanceExecutor.EnsureMaintenanceAllowed: the journals, preparations and switchbacks it looks for are one flag of the installation, because maintenance only asks whether any exists.
- Intake.Site.Consume: a handler delayed by more than a day after reading the clock is taken never to resume.
- CodexHome.Home.Setup: how the bytes of the model catalog are made, and the digests that tell an edited catalog file, are not modelled; the bytes are a parameter, an edited file is the `held` flag of remove, and every record is taken to have a catalog.
- The command-line flow `upgrade_selected_release`, which selects the release before it upgrades.
- Upgrade snapshots, audit contents, credential finalisation and archive extraction, which appear as steps that may fail.
- The Windows and macOS service definitions; units are modelled as on Linux.
- Windows variants of atomic replacement and directory links, which can fail after the rename.
- The preparation of the slots of an online upgrade; whether it has been archived is one flag.
- Process identities, readiness permits, request budgets and drain counters of an online transition: whether a phase may advance, has to wait or has run out is looked up anew at every step, in an arbitrary function of the steps left.
- `reconcile_selection` and the listing of pull requests: the selection a user makes is the input of `Apply`.
- Encodings: UTF-8, TOML syntax and JSON are left to their libraries; SMTP text is modelled as decoded characters.
- How JavaScript reads a reply code that is not three digits; it is a parameter of the session.
- Amounts that are not decimal digits with an optional sign and at most nine decimals.
- Timeouts, sockets, HTTP, git and the service manager themselves.
- `asterctl` for Claude, whose second setup replaces its baseline on purpose.
