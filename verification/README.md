# Verified models of the durable core

Dafny models of the parts of this music studio that have to survive crashes, retries and
concurrent processes, with proofs about every run of them:

- **The job protocol** (`Job*.dfy`). Jobs are rows in SQLite, takes are directories. A worker claims
  a job under a fresh attempt token, renders into a private staging directory, and commits with one
  rename and one SQL update. Workers crash, leases are reclaimed while the old attempt still runs,
  clients cancel and retry, projects are deleted under running jobs.
- **The creation contract** (`Creation*.dfy`). A draft with an origin for each field is frozen into
  the intent of a job, validated, planned by a language model, rendered, and the planned values are
  merged back into the draft if it has not moved on.
- **The Remote GPU host** (`RemoteHost.dfy`): a bounded queue with idempotent submits.
- **The GPU occupant** (`GpuOccupant.dfy`): one loaded DiT, and the record of the style pack on it.
- **Idempotency keys** (`Idempotency.dfy`), **the worker lease** (`WorkerLease.dfy`) and **the
  watchdog thread** (`Watchdog.dfy`).

Check the whole project with `dafny verify dfyconfig.toml`.

## How it is built

**Rows.** `JobRows` has one function for each one-row `UPDATE`, WHERE clause included.

**Protocol.** `JobProtocol` makes a state machine of them. One step is one transaction, one rename, or
one read that a later branch depends on; each attempt has its own program counter, so a crash and a
stale attempt are ordinary interleavings. `JobInvariant` says what every reachable state satisfies;
`JobKeeps*`, `JobKeepsAttempt` and `JobSteps` show that every step keeps it. `JobMoves` and
`JobHistory` say what a step, and then any number of steps, can do to what is already there. The main
results are in `JobTheorems`, `JobTakes`, `JobRenames`, `JobRaises`, `JobLate`, `JobRecords`,
`JobDeletionTheorems`, `JobActivation`, `JobCancels`, `JobHeld`, `JobBounds` and `JobHeartbeats`. `JobRace`
and `JobWitnesses` have runs that reach what is not promised.

**Operations in place.** `JobQueue.Queue` has the operations as methods over mutable fields, each
proved against the same row functions and, in columns, without them; `JobRunner` has the runner's procedure over it. `JobRefinement`
shows of `Enqueue`, `CancelJob`, `RetryJob`, `RemoveProject`, `ReclaimStaleJobs`, `ClaimNextQueuedJob`,
`CommitTake` and `CleanupStaging` that what they do to a reachable state is what steps of the protocol do,
so the results about runs hold of them. The one-row writes of an attempt (`FinishDone`, `FreezeResolved`,
`MarkCancelled`, `SetError`) use the row functions the protocol's moves use; `RunGenerateShapedJob`, which
calls them, is not itself tied to the protocol.

**Drafts.** `CreationBrief`, `CreationPlanner` and `CreationDrafts` have each dictionary-filling
procedure as a method beside the per-field function it computes; `CreationMeaning` says what the records
that pass between them hold. `CreationRuns` and `CreationLocks` are about whole runs of one draft.

In all of it, tokens, job ids and take ids are never reissued, and planners, renderers, clients and
clocks are arbitrary: they are parameters of the steps.

## What turned out not to hold

Each exception is a named event in the model, and each theorem says exactly when it applies.

- *A frozen record can change.* A retry copies its original's record in a second transaction
  (`server/jobs/queue.py:870-888`). If a claim lands between the two, the job can render one record,
  be reclaimed, have its record replaced by the late copy, and render another
  (`JobRace.RacedRetryRendersTwice`). A record changes if and only if such a copy finds the row queued
  with a different record (`JobRecords.RecordChangesOnlyByLateCopy`).
- *A retry can miss its inheritance*, if and only if its second transaction does not find the row
  queued (`JobRace.CopyLandsOnlyIfQueued`): a deletion can cancel the row before the copy and be aborted
  after it, and the retry then renders another record (`JobWitnesses.MissedRetryRendersAnother`).
- *A committed take can be overwritten by an error take*: when something raises after the rename, the
  generic handler runs with the take id still set (`server/jobs/runner.py:559-570`). The take is lost if
  and only if the handler found no cancel flag and could write the error take
  (`JobRenames.TakeLostIffErrorWritten`, `JobRaises.RaiseAfterRename`). What becomes of the job depends on
  where it raised. After the whole commit, the job stays `done` and no later cancel is recorded on it, so
  only a failure to write saves the take (`JobRaises.CommittedRowStands`,
  `JobWitnesses.DoneJobLosesTake`). Between the rename and the SQL half, the job ends failed; or cancelled,
  with a good take in its project, when a cancel came first (`JobWitnesses.CancelledJobWithTake`).
- *An aborted deletion does not restore every training job*: the writes of a training attempt are not
  fenced (`server/jobs/runner.py:227-245`). A queued job comes back if and only if no training error hit
  it meanwhile, or the last one that did reads like the deletion's own
  (`JobDeletionTheorems.AbortRestores`, `JobWitnesses.AbortLosesTraining`).
- *The planned brief does not always round-trip*: it does if and only if it has a caption or lyrics
  and the planner's values are ones that validation would not correct
  (`CreationRoundTrip.PlannedBriefRoundTrips`, `CreationRoundTrip.NotEveryBriefRoundTrips`).
- *A preset applied without `expected_revision` can undo a user's lock*
  (`CreationLocks.UnconditionalPresetLosesLock`); when it does not is
  `CreationLocks.StalePresetKeepsLockIff`.
- *A remote job can be `done` without a result*, if and only if the exception that ended it has no text
  (`RemoteHost.DoneWithoutResultIff`).
- *The adapter record can disagree with the handler* after an exception that is not
  `WorkerUnavailable`: it agrees if and only if a raising unload left the handler as it was, or a later
  raising call left it without any adapter (`GpuOccupant.TransitionAgrees`,
  `GpuOccupant.UncaughtFailureLeaksAdapter`).
- *A remembered response can be another run's*, when a handler outlives the 24-hour life of its own row
  (`Idempotency.LateResponseFillsAnotherRow`). The row a response fills is its own run's if and only if no
  request for the key was answered with a start since (`Idempotency.ResponseFillsOwnRowIff`).

## Where the code and its documentation differ

- The design document's paragraph on planners says that a user caption alone makes the planner call
  `format_sample`. The code asks only for user lyrics (`server/generation/brief.py:387-401`); the model
  follows the code.
- The docstring at `server/jobs/queue.py:466-471` expects a tombstone never to meet a queued job.
  `reclaim_stale_jobs` can requeue one (`server/jobs/queue.py:609-616`); the claim's join keeps it from
  running (`JobDeletionTheorems.NothingHappensWhileDeleting`).

## Model

| member | source | states |
|---|---|---|
| `JobQueue.Queue.Enqueue` | server/jobs/queue.py:229-281 | a submission id names one request of a project: its replay returns the first job, another body conflicts, a tombstone refuses, and otherwise exactly the new row is added; ids stay unique |
| `JobQueue.Queue.ClaimNextQueuedJob` | server/jobs/queue.py:452-509 | in columns: the claimed row was queued in a live project, not held and with a snapshot, whatever its stage, and now runs under the token with one more attempt; no such row that is left is older; only unsnapshotted rows are held on the way, none younger than the claimed one; nothing claimed means every queued row of a live project is held |
| `JobQueue.Queue.OldestClaimable` | server/jobs/queue.py:478-485 | the row returned is queued in a live project and not held, and no such row is older |
| `JobQueue.Queue.ReclaimStaleJobs` | server/jobs/queue.py:549-619 | in columns: exactly the running rows without a recent sign of life are reported; a flagged one ends cancelled without error or take, one with a remote handle or a third attempt fails without its token, any other is queued without token and heartbeat; all else stands |
| `JobHeld.RequeuedCanBeClaimed` | server/jobs/queue.py:478-500 | in any run a queued job of a live project that was claimed before can take the claim step, whatever stage it had reported |
| `JobHeld.ReclaimedCanBeClaimed` | server/jobs/queue.py:609-616 | so can a job a reclaim has just queued again |
| `JobQueue.Queue.CancelJob` | server/jobs/queue.py:711-737 | an unknown job is an error; a queued row ends cancelled and nothing claims or finishes it any more, a running one keeps running with the flag and no `finish_done` wins it any more, an ended one stands; nothing else changes |
| `JobQueue.Queue.MarkCancelled` | server/jobs/queue.py:663-680 | exactly a queued row, or a running one under the token, ends cancelled with flag and without error or take, and no attempt runs it any more; any other row stands |
| `JobQueue.Queue.FinishDone` | server/jobs/queue.py:683-708 | it wins if and only if the row runs under the token without a cancel flag; then the row is done with that take and without error, and losing changes nothing |
| `JobQueue.Queue.FreezeResolved` | server/jobs/queue.py:512-537 | the record is stored if and only if the row runs under the token |
| `JobQueue.Queue.SetError` | server/jobs/queue.py:284-304 | with a token only the row running under it fails, without one any row does, with the given text and take; then no attempt runs it, and its other columns stand |
| `JobQueue.Queue.RetryJob` | server/jobs/queue.py:848-889 | only an ended or held job is retried: an ended one stands, and the new job has its snapshot and record and the new request otherwise; a held one ends cancelled and the new job is a plain submission; no other row changes |
| `JobQueue.Queue.BeginProjectDeletion` | server/jobs/deletion.py:18-67 | a second deletion conflicts; otherwise the tombstone appears, the answer lists exactly the project's queued jobs, those are failed with the deletion's text and nothing else about them or any other row changes, and none of the project is left queued |
| `JobQueue.Queue.AbortProjectDeletion` | server/jobs/deletion.py:70-95 | the tombstone goes; of the listed jobs exactly those still failed with the deletion's text are queued again, without an error and otherwise as they are; every other row stands |
| `JobQueue.Queue.RemoveProject` | server/jobs/deletion.py:98-121 | a removal that fails leaves the queue as it was but for `error` and `updated_at`; one that succeeds leaves no queued job of the project |
| `JobQueue.Queue.CommitTake` | server/jobs/runner.py:581-659 | in columns: each answer if and only if its check fails in order, an unknown job being fenced; only a commit changes rows or projects, to the earlier take if there is one and else to this one, which becomes active exactly when no active take played; the staged files go in every case |
| `JobQueue.Queue.CommittedTakeForJob` | server/jobs/runner.py:266-277 | it finds a good take of the job exactly when the project has one |
| `JobQueue.Queue.AllocateStagedTake` | server/storage/takes.py:223-233 | an owned staging directory, only for a project that exists |
| `JobQueue.Queue.WriteErrorTake` | server/storage/takes.py:283-288 | an error take is written only into a project that exists |
| `JobQueue.Queue.SetActiveTakeIfUnset` | server/storage/takes.py:291-311 | the take becomes active if and only if the active one was unset, missing or an error take; nothing else changes |
| `JobQueue.Queue.CleanupStaging` | server/jobs/runner.py:672-693 | exactly the directories without a live owner go, and every one left belongs to the current token of a running row |
| `JobRunner.RunGenerateShapedJob` | server/jobs/runner.py:374-570 | an undisturbed attempt always ends its job: cancelled, done with an earlier take, failed with an error take, or done with its own; the record is frozen once, no staging is left, nothing else changes |
| `JobRunner.PublishRendered` | server/jobs/runner.py:521-549 | a rendered take is published under its own id, unless the project is being deleted, which fails the job without a take |
| `JobRefinement.EnqueueIsInProtocol` | server/jobs/queue.py:229-281 | an inserted job is a protocol submission |
| `JobRefinement.RetryIsInProtocol` | server/jobs/queue.py:848-889 | an accepted retry is a protocol read, submission and copy, or the drop of a held job and a submission |
| `JobRefinement.RemovalIsInProtocol` | server/jobs/deletion.py:98-121 | a removal is a protocol deletion, completed or failed and aborted |
| `JobRefinement.ReclaimIsInProtocol` | server/jobs/queue.py:549-619 | the reclaim loop is one protocol reclaim for each stale row |
| `JobRefinement.HoldsAreInProtocol` | server/jobs/queue.py:487-495 | the rows held on the way to a claim are protocol holds |
| `JobRefinement.ClaimIsInProtocol` | server/jobs/queue.py:452-509 | the claim loop is protocol holds and then one protocol claim |
| `JobRefinement.CommitIsInProtocol` | server/jobs/runner.py:608-659 | the commit method is the protocol's commit, and its activation when it publishes |
| `JobRefinement.CleanupIsInProtocol` | server/jobs/runner.py:672-693 | the cleanup loop is protocol discards of ownerless staging |
| `JobRows.DescribeFailure` | server/jobs/runner.py:54-80 | the text of a failure is never the text that marks a deleted project's job |
| `JobSteps.RunKeepsInv` | server/jobs/runner.py:374-659 | every reachable state satisfies the protocol invariant |
| `JobHistory.RunIsLater` | server/jobs/queue.py:284-304 | between any two states of a run: requests stand, attempts and flags only grow, tokens only leave, ended jobs stand, removed projects stay removed |
| `JobTakes.OnlyCommitPublishes` | server/jobs/runner.py:608-649 | a good take that appears in a step was committed in it, by an attempt that owned its uncancelled job in a live project, as that job's first |
| `JobTheorems.AtMostOneGoodTake` | server/jobs/runner.py:641-645 | in every run a job has at most one take without error, in one project |
| `JobTheorems.DoneNamesItsTake` | server/jobs/runner.py:646-651 | a done job in an intact project names a take with its own job id, a good one unless something raised after the rename |
| `JobTheorems.DoneIffTake` | server/jobs/runner.py:266-277 | without a crash or exception in the commit's window, a job has a good take exactly when it is done, and names it |
| `JobRenames.TakeLostIffErrorWritten` | server/jobs/runner.py:559-570 | in every run, a take once renamed into its project stays a good take, while the project is whole, if and only if the attempt that renamed it has not written its error take |
| `JobRaises.RaiseAfterRename` | server/jobs/runner.py:552-578 | whatever raised after the rename: the take survives if and only if the handler found the cancel flag or could not write the error take; a row still owned ends cancelled when flagged and failed when not, naming the error take if written, and a row not owned stands |
| `JobRaises.CommittedRowStands` | server/jobs/queue.py:711-737 | after a full commit the row is done with that take and without a cancel flag for good, whatever raises or cancels later |
| `JobRaises.DoneIsUnflagged` | server/jobs/queue.py:683-708 | in every run no done job has the cancel flag |
| `JobWitnesses.CancelledJobWithTake` | server/jobs/runner.py:640-652 | a run exists in which a cancelled job has a good take |
| `JobWitnesses.DoneJobLosesTake` | server/jobs/runner.py:653-659 | a run exists in which a done job's take is an error take |
| `JobTheorems.CancelStopsCommit` | server/jobs/runner.py:621-624 | once a job that is not done has the cancel flag, it is never done or queued again and no take is ever published for it |
| `JobTheorems.SettledForGood` | server/jobs/queue.py:663-680 | a done, cancelled or failed job is never written again by anything |
| `JobTheorems.CommitOutlastsCancel` | server/jobs/queue.py:711-737 | after the commit no cancel, reclaim or expiry changes the row, and its take is still the one it names |
| `JobTheorems.RunningUnderLatestClaim` | server/jobs/queue.py:496-500 | a running row's token is the one its latest claim was issued |
| `JobTheorems.StaleForGood` | server/jobs/queue.py:609-616 | an attempt that lost its row never owns it again |
| `JobTheorems.StaleWritesNothing` | server/jobs/queue.py:512-546 | no move of a stale attempt changes any row or publishes any take |
| `JobMoves.CancelWrites` | server/jobs/queue.py:663-680 | the queued arm of a fenced `mark_cancelled` never hits a requeued job |
| `JobTheorems.RendersAreIdentical` | server/jobs/runner.py:445-455 | any two local renders of a job, by any attempts, have the same brief and seed, unless its retry was overtaken by a claim |
| `JobRecords.RecordChangesOnlyByLateCopy` | server/jobs/queue.py:870-888 | a frozen record changes if and only if a retry's second transaction copies a different one onto a queued row |
| `JobTheorems.LateCopyWasRaced` | server/jobs/queue.py:870-888 | a copy that finds a record belongs to a job claimed between the retry's transactions |
| `JobRace.RacedRetryRendersTwice` | server/jobs/queue.py:870-888 | a run exists in which one job renders two different records |
| `JobRace.CopyLandsOnlyIfQueued` | server/jobs/queue.py:878-888 | a retry ends with its original's snapshot and with exactly its record, or none when the original had none, if and only if its second transaction finds the row queued or the row was so already |
| `JobWitnesses.MissedRetryRendersAnother` | server/jobs/queue.py:870-888 | a run exists in which a retry of a job with a frozen record renders another one |
| `JobTheorems.RetryInherits` | server/jobs/queue.py:848-889 | a retry whose copy landed has its original's snapshot and frozen record for good |
| `JobTheorems.ChainSharesSnapshot` | server/jobs/queue.py:848-889 | along a chain of retries every job has the first one's snapshot |
| `JobTheorems.ChainSharesRecord` | server/jobs/queue.py:848-889 | along a chain of retries every job has the record the first retry found |
| `JobLate.NoLateRender` | server/jobs/runner.py:426-432 | once a job has a good take, and while it has it, no attempt claimed since ever renders the job, in any run; so a crash between rename and SQL commit costs no second render |
| `JobLate.LateAttemptFinishesWithIt` | server/jobs/runner.py:429-432 | such an attempt's early finish makes the job done with exactly that take, unless a cancel or a reclaim came first, and then changes nothing |
| `JobTheorems.CleanupSparesCommits` | server/jobs/runner.py:672-693 | the cleanup takes the staging of an attempt only when that attempt can never commit again |
| `JobTheorems.WorkerKeepsActive` | server/storage/takes.py:291-311 | no move of the worker replaces an active take that plays |
| `JobActivation.ActivateMakesPlayable` | server/jobs/runner.py:656-658 | in any run, after an activation that does not raise the project has an active take that plays: the one it had, or else the one just committed, unless a failed removal took files |
| `JobCancels.EarlyCancelStopsWork` | server/jobs/runner.py:420-425 | in any run, an attempt whose job is flagged before its second check never renders |
| `JobRows.ProgressIsReported` | server/jobs/queue.py:652-660 | heartbeats, stages and handles change their own column of a running row only, a handle only under the token |
| `JobDeletionTheorems.NothingHappensWhileDeleting` | server/jobs/queue.py:236-242 | from tombstone to abort no job of the project is inserted or claimed and no take of it is published |
| `JobDeletionTheorems.AbortRestores` | server/jobs/deletion.py:70-95 | whatever happened in between, an abort gives back each queued job as it was and touches no other row, except a training job that failed meanwhile: that one comes back if and only if its last error reads like the deletion's |
| `JobWitnesses.AbortLosesTraining` | server/jobs/runner.py:227-245 | a run exists in which a queued training job is not given back by the abort |
| `JobDeletionTheorems.RemovedForGood` | server/storage/takes.py:283-288 | a removed project directory never reappears |
| `JobBounds.AttemptsAreBounded` | server/jobs/queue.py:594-616 | attempts count the tokens issued for the job and never exceed three; a queued job has an attempt left, no flag and no handle |
| `JobBounds.NeverClaimedAgain` | server/jobs/queue.py:578-600 | once a remote handle is recorded or a cancel requested, no token is ever issued for the job again |
| `JobBounds.StepSpends` | server/jobs/queue.py:549-619 | every change of a job's state strictly decreases the measure of attempts, status and flag, but for the abort of the deletion that had cancelled that very job |
| `JobBounds.WorkIsBounded` | server/jobs/queue.py:549-619 | in any run in which no aborted deletion gives the job back, its state changes at most as often as its measure allows |
| `CreationText.NormalizationKeepsLines` | server/generation/brief.py:273-278 | line-ending normalization leaves no CR, is idempotent, keeps every line, and changes only texts with a CR |
| `CreationText.NormalizationCommutesWithStrip` | server/generation/brief.py:273-278 | normalizing and stripping commute |
| `CreationText.ParseKeyscaleIsProjection` | server/generation/brief.py:231-244 | the values of `parse_keyscale` are exactly the canonical keys, and those are its fixed points |
| `CreationBrief.ValidateCreation` | server/generation/brief.py:261-352 | field by field: the first complaint in order, or the intent with only line endings, key, meter and language respelled, and the mode of one without an idea changed |
| `CreationBrief.ValidationIsProjection` | server/generation/brief.py:261-352 | what is accepted is canonical, the canonical is accepted as it is, and validating twice is validating once |
| `CreationPlanner.ApplyPlanner` | server/generation/brief.py:445-492 | by origin and value: metas a user or preset set, and words no planner or default wrote, stand with their origin; an instrumental's other lyrics become the placeholder; the rest takes what the planner says under its origin, or stands |
| `CreationPlanner.PlannerIsToldTheTruth` | server/generation/brief.py:374-409 | the lyrics and metas a `format_sample` planner is given are the ones rendered, under their own origins |
| `CreationMeaning.InputIsTheDrafts` | server/generation/brief.py:180-223 | what a job is frozen from is the draft's, under the mode asked for, or the other one when only that has something to work from |
| `CreationMeaning.RequestSaysWhatIsSet` | server/generation/brief.py:374-409 | which planner runs; it is told the own lyrics, the own caption or the idea, and exactly the metas a user or preset set, or the idea and the set language |
| `CreationMeaning.UnplannedIsTheIntent` | server/generation/brief.py:412-442 | without planning the brief is the intent, but for the placeholder of an instrumental without lyrics |
| `CreationMeaning.CreativeIsTheBriefs` | server/generation/brief.py:530-553 | set metas and words are rendered as they are, unset metas as what leaves the choice open |
| `CreationMeaning.FlagsSayWhatIsLeft` | server/generation/brief.py:495-527 | each LM switch is on exactly for its reason, and fills in only what is unset |
| `CreationMeaning.HandWrittenNeedsNoLm` | server/generation/brief.py:505-512 | a complete hand-written brief turns no LM switch on, even if a planner once filled a meta |
| `CreationMeaning.MergeGivesWhatWasPlanned` | server/generation/brief.py:590-617 | a merge gives the draft exactly the planner's fields and the placeholder, and nothing else of it changes but mode, brief and revision |
| `CreationMeaning.KeyIsReadAsSpelled` | server/generation/brief.py:231-244 | every spelling of a key is read as that key, `Am` as A minor, and an unknown mode as none |
| `CreationRoundTrip.PlannedBriefRoundTrips` | server/generation/brief.py:590-617 | merged into its draft and submitted again, a planned brief renders the same values, origins and creative parameters if and only if it has words and its fills are canonical |
| `CreationRoundTrip.NotEveryBriefRoundTrips` | server/generation/brief.py:445-492 | a planner's tempo out of range, and a planner that answers nothing, each give a brief that does not round-trip |
| `CreationRoundTrip.OnlyThinkingMayChange` | server/generation/brief.py:495-527 | of the LM switches only `thinking` may differ on the round trip, and exactly when |
| `CreationDrafts.ApplyWriteSemantics` | server/generation/brief.py:132-177 | field by field: the value sent or a new plan's, the origin claimed or derived from the change; the mode claimed, or `from_idea` for another idea; one revision on |
| `CreationDrafts.EchoChangesOnlyRevision` | server/generation/brief.py:132-177 | writing back the plan one read changes only the revision |
| `CreationDrafts.ApplyPreset` | server/generation/presets.py:125-175 | field by field: what the user set and what is equal stands, the rest becomes the preset's; words and language stand; Instrumental as the preset says unless that silenced lyrics |
| `CreationDrafts.PresetIsIdempotent` | server/generation/presets.py:125-175 | applying a preset twice is applying it once |
| `CreationLocks.PresetTakesEffect` | server/generation/presets.py:140-157 | a field the preset covers ends with its value unless the user has set it, and every other field stands |
| `CreationLocks.PresetNeverConflicts` | server/generation/presets.py:159-169 | a preset never makes lyrics under Instrumental fail that did not fail before |
| `CreationStore.PlanFile.SavePlan` | server/storage/projects.py:215-239 | refused writes change nothing, in the order project, revision, types; an accepted one raises the revision by one |
| `CreationStore.PlanFile.MergePlanPatch` | server/storage/projects.py:242-269 | the patch lands if and only if the draft is at the expected revision |
| `CreationStore.PlanFile.ReplacePlan` | server/storage/projects.py:197-212 | the snapshot is stored under the next revision |
| `CreationStore.PlanFile.PresetOnProject` | server/creation.py:15-39 | a preview of the plan read writes nothing; an application writes the proposal made from that plan over the draft as it is by then, under the revision condition and the type check of any write |
| `CreationRuns.StepRevision` | server/storage/projects.py:51-72 | every change of the plan raises the revision by exactly one |
| `CreationRuns.EqualRevisionsEqualPlans` | server/storage/projects.py:51-72 | anywhere in a run equal revisions mean equal plans |
| `CreationRuns.MergeLandsOnItsSource` | server/storage/projects.py:257-269 | a planned brief merges only into the exact plan its job was submitted from |
| `CreationRuns.OneMergePerRevision` | server/storage/projects.py:257-269 | of the jobs submitted from one revision at most one merges |
| `CreationLocks.WriteKeepsUntouched` | server/generation/brief.py:153-163 | a client write keeps a field's value and origin if and only if it does not touch it |
| `CreationLocks.StalePresetKeepsLockIff` | server/generation/presets.py:148-157 | exactly when saving a stale proposal keeps a user's lock; a conditional save always does |
| `CreationLocks.UnconditionalPresetLosesLock` | server/creation.py:15-39 | without the revision check a caption written after the preview is lost |
| `CreationLocks.MergeKeepsLock` | server/generation/brief.py:467-492 | a merge leaves every user-set field of its source alone |
| `CreationLocks.LocksSurviveRuns` | server/generation/brief.py:355-371 | over whole runs a user-set field keeps value and origin until a client write sets it |
| `RemoteHost.Host.Submit` | worker/remote_host/app.py:298-331 | in fields: what is due goes; then the client's live token, or a full queue of eight, or a new queued token at the end of the queue |
| `RemoteHost.Host.Ack` | worker/remote_host/app.py:333-344 | a finished record is freed, an unfinished one is cancelled and marked delivered long ago |
| `RemoteHost.Host.Cancel` | worker/remote_host/app.py:346-354 | only the flag of a live record is set |
| `RemoteHost.Host.ReadStatus` | worker/remote_host/app.py:252-263 | the record as it is, with a result only when done, and the delivered clock started once |
| `RemoteHost.Host.Begin` | worker/remote_host/app.py:356-363 | a cancelled job finishes unrendered, and a token that renders has never rendered |
| `RemoteHost.Host.End` | worker/remote_host/app.py:374-404 | in fields: a render that returned uncancelled is done with its result, a cancelled one failed without, and one that raised failed with the exception's text, which reads as done when empty |
| `RemoteHost.Host.Prune` | worker/remote_host/app.py:423-432 | exactly the finished records read 300 seconds ago, or unread for 3600, go, with their client ids |
| `RemoteHost.Host.Forget` | worker/remote_host/app.py:416-421 | one record goes, with every client id that names it |
| `RemoteHost.RunKeepsOk` | worker/remote_host/app.py:275-421 | over all interleavings live clients map one to one onto live tokens, the queue holds at most eight live jobs, and no token is rendered twice |
| `RemoteHost.PruneKeepsOk` | worker/remote_host/app.py:423-432 | pruning never frees an unfinished job |
| `RemoteHost.ResubmitReturnsTheSame` | worker/remote_host/app.py:298-303 | in any run a submit repeated at any later time returns the first token and adds nothing, for as long as that token's record is live |
| `RemoteHost.GoesOnlyWhenDue` | worker/remote_host/app.py:333-344 | a record goes away only finished: acknowledged, or expired |
| `RemoteHost.ResultsLast` | worker/remote_host/app.py:423-432 | an unread result lasts 3600 seconds, a read one 300 seconds from its first read |
| `RemoteHost.ReturnedReadsDone` | worker/remote_host/app.py:391-404 | in any run a render that returned uncancelled reads done with its own result while its record is live |
| `RemoteHost.FirstInFirstOut` | worker/remote_host/app.py:324-326 | in any run a job submitted later waits behind every earlier one that still waits |
| `RemoteHost.AckedEarlyIsFreed` | worker/remote_host/app.py:333-344 | in any run a job acknowledged unfinished stays cancelled and marked delivered while it is live, and a submit that finds it finished frees it if and only if the clock is above zero |
| `RemoteHost.CancelledRenderFails` | worker/remote_host/app.py:391-393 | a render cancelled before it returned ends failed, but for an exception without text |
| `RemoteHost.DoneWithoutResultIff` | worker/remote_host/app.py:407-410 | a job is done without a result if and only if an exception without text ended it |
| `GpuOccupant.Occupant.EnsureLoaded` | worker/acestep_worker/loading.py:332-415 | a held profile is not reloaded; otherwise the previous DiT goes before the next is built, so two are never held; it succeeds exactly when every call does, and only then is the new DiT recorded, without adapters |
| `GpuOccupant.Occupant.EnsureLoraAdapter` | worker/acestep_worker/loading.py:418-485 | it succeeds exactly when each needed call returns, and then record and adapters are the wanted ones; `WorkerUnavailable` forgets the handler, another exception only what was unloaded |
| `GpuOccupant.Occupant.RunJob` | worker/acestep_worker/run.py:178-310 | it renders if and only if the load and the adapter succeed, an adapter is asked for on its base only, and nothing stops it |
| `GpuOccupant.Occupant.TrainLora` | worker/acestep_worker/lora.py:111-228 | every exit from training forgets the handler |
| `GpuOccupant.TransitionAgrees` | worker/acestep_worker/loading.py:418-485 | record and handler agree after every transition that ends or fails as `WorkerUnavailable`; after any other exception if and only if the raising unload left the handler as it was, or the later raising call left it clean |
| `GpuOccupant.JobRendersWhatWasAsked` | worker/acestep_worker/run.py:178-310 | whenever the render is reached the handler has the requested profile and exactly the requested adapter, and at most one DiT is held |
| `GpuOccupant.TrainingKeepsAgreement` | worker/acestep_worker/lora.py:208-228 | after training record and handler agree |
| `GpuOccupant.EveryRenderHasItsAdapter` | worker/acestep_worker/loading.py:332-485 | over any sequence of jobs, swaps, trainings and caught failures every render has exactly its adapter |
| `GpuOccupant.UncaughtFailureLeaksAdapter` | worker/acestep_worker/loading.py:480-485 | an uncaught failure can leave an adapter on for the next plain job |
| `Idempotency.Store.Reserve` | server/v1/idempotency.py:106-143 | an unexpired row replays, conflicts or is in progress, and nothing changes; otherwise a pending row for a day is inserted and what expired goes |
| `Idempotency.Store.Release` | server/v1/idempotency.py:146-154 | only a pending row is dropped |
| `Idempotency.Store.Remember` | server/v1/idempotency.py:157-175 | only a pending row is filled, a queued job's 202 as 200 |
| `Idempotency.Store.Capture` | server/v1/idempotency.py:304-340 | in columns: only a pending row is settled; a failure drops it, an unfinished response leaves it, and any other is remembered with status, body and location, a queued job's 202 as 200 |
| `Idempotency.NoSecondStart` | server/v1/idempotency.py:106-143 | while a key's row is unexpired no second run starts: same digest replays, another conflicts |
| `Idempotency.RememberedReplays` | server/v1/idempotency.py:146-175 | a remembered response is replayed until it expires, whatever late runs do |
| `Idempotency.CapturedIs` | server/v1/idempotency.py:304-332 | the captured response has the last head's status and location, and all chunks |
| `Idempotency.FailedRunStartsAgain` | server/v1/idempotency.py:319-340 | in any run, after a server error, a response without status or an exception, the next request for the key starts the handler again, unless it was remembered already |
| `Idempotency.AnsweredRunReplays` | server/v1/idempotency.py:157-175 | in any run, any other answer to a pending row is replayed until it expires, a queued job's 202 as 200 |
| `Idempotency.AtMostOneRunPerKey` | server/v1/idempotency.py:283-340 | of a key whose own runs end within the TTL at most one run is ever under way, however late runs of other keys are |
| `Idempotency.ResponseIsItsRuns` | server/v1/idempotency.py:304-332 | for such a key what is remembered is the response of the run that reserved the row, for its digest |
| `Idempotency.ResponseFillsOwnRowIff` | server/v1/idempotency.py:157-175 | for any run, however late: its response fills a row only while one is pending, and that row is its own, with its digest and lifetime, if and only if no request for the key was answered with a start since |
| `Idempotency.LateResponseFillsAnotherRow` | server/v1/idempotency.py:157-175 | a run that outlives its row can fill the next run's |
| `WorkerLease.Lease.Acquire` | server/jobs/worker_registry.py:68-96 | it succeeds exactly when the lease is free, its own, or more than 30 seconds old, and then the lease is its own as of now; failing changes nothing |
| `WorkerLease.Lease.Renew` | server/jobs/worker_registry.py:99-109 | it succeeds exactly for the owner |
| `WorkerLease.Lease.Release` | server/jobs/worker_registry.py:112-118 | it is a no-op for anyone but the owner |
| `WorkerLease.NobodyElseAcquires` | server/jobs/worker_registry.py:68-96 | for 30 seconds after a win that is not released no other owner acquires |
| `WorkerLease.WindowsNeverOverlap` | server/jobs/worker_registry.py:68-118 | windows of different owners never overlap in any run |
| `WorkerLease.RenewFailsAfterTakeover` | server/jobs/worker_registry.py:99-109 | after a takeover every renew fails until the owner acquires again |
| `WorkerLease.SilentOwnerIsReplaced` | server/jobs/worker_registry.py:68-96 | once the last win is more than 30 seconds old, the next acquire by anybody wins |
| `Watchdog.HeartbeatLoop` | server/jobs/queue.py:405-445 | each heartbeat exactly 5 seconds after the last, or at the deadline if that is sooner; expiry exactly at the deadline and never once the render was seen to return |
| `Watchdog.ExpiryIsFinal` | server/jobs/queue.py:371-402 | expiry fires only on a running row, at most once: cancelled when flagged, failed with the message when not; and no reclaim requeues what it ended |
| `JobHeartbeats.BeatingKeepsLease` | server/jobs/queue.py:549-619 | in any run a job whose heartbeats keep the loop's pace stays with its attempt from the claim until it ends, and is never reclaimed or queued again; its row carries the last heartbeat |

## Left out

- Lock files (`server/storage/locks.py`): the project lock is taken to be an atomic critical section.
- HTTP routes, request models, authentication, path jails, pagination, capability and status reports.
- The web client, ACE-Step, torch, ffmpeg and audio: planners and renderers are arbitrary and may fail.
- The wording of error texts that say why a job failed.
- Hashes: a content hash stands for its content and a request digest for its request.
- File writes are atomic, and making a staging directory and its owner marker is one step.
- `JobTheorems.CleanupSparesCommits`: dropping the marker and the rename are one step unless a crash comes
  between. A cleanup by another process that looks between the two sees a directory without an owner, and
  it takes no lock (`server/storage/takes.py:250-253`, `server/jobs/runner.py:677-691`): that interleaving
  is assumed away.
- The merge of a planned brief inside the commit: draft and job protocol are separate models, and a
  merge that fails does not fail a commit in either.
- `train_lora`: only its unfenced row writes are modelled, not its directories or the `lora_id` column.
- `JobQueue.Queue.ReclaimStaleJobs`: one reading of the clock serves all rows, where the code reads it
  for each.
- `JobQueue.Queue.RetryJob`: its transactions run back to back; what comes between them is in the protocol.
- `JobQueue.Queue.CommitTake`: exceptions and crashes inside the commit are in the protocol only.
- `JobRunner.RunGenerateShapedJob`: without interference; the remote handle and the stage reports are in
  the protocol only.
- `JobHeartbeats.BeatingKeepsLease`: a heartbeat loop that runs on time is assumed, and a staleness limit
  of at least one of its intervals.
- `JobTheorems.DoneIffTake`: excepts projects from which a failed removal has already taken files.
- Plans: negative prompts, sections, warnings, the field typing of untracked keys, and the reading of
  plan files older than the creation contract.
- Presets: any preset is a parameter; the six of the registry are not listed.
- `CreationBrief.ValidateCreation`: warnings are left out, and a float carries the text Python prints for
  it instead of being printed.
- `actual_values` and the provenance of a take.
- The remote host's request validation, downloads, health report and audio files.
- Moving models between GPU and CPU: a DiT is held while something refers to its handler.
- Stored headers other than `Location`, and how the owner of an idempotency key is found.
