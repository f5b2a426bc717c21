/** The durable job protocol as a state machine over two stores: the SQLite rows and the
    project directories. One step is one SQL transaction, one rename, or one read that a later
    branch depends on. Every attempt carries its own program counter, so a crash and a stale
    attempt that is still running are ordinary interleavings. */
module JobProtocol {
  import opened Common
  import opened CreationTypes
  import opened JobRows

  /** A take's `meta.json`: which job made it, and the failure it records, if any. */
  datatype TakeMeta = TakeMeta(job: Option<JobId>, error: Option<string>)

  /** A project directory that still holds its `project.json`. */
  datatype Project = Project(takes: map<TakeId, TakeMeta>, active: Option<TakeId>)

  datatype Owner = Owner(job: JobId, token: Token)

  /** `projects/.staging/<project>/<take>`, with its owner marker. */
  datatype Staged = Staged(project: ProjectId, owner: Option<Owner>, meta: Option<TakeMeta>)

  /** Where `_run_generate_shaped_job` stands. */
  datatype Pc =
    | AtFirstCheck     // before the first cancel check
    | AtLookup         // before `committed_take_for_job`
    | AtEarlyFinish    // an earlier take was found; before `finish_done`
    | AtSecondCheck    // before the second cancel check
    | AtAllocate       // before `allocate_staged_take`
    | InWorker         // in the backend, before the brief is final
    | AtRender         // local backend: the brief is final, before `generate_music`
    | AtRemoteWait     // remote backend: submitted and recorded, waiting
    | Rendered         // the backend returned; before the third cancel check
    | AtMeta           // before the staged meta is written
    | AtCommit         // before `_commit_take`
    | AtActivate       // committed; before `set_active_take_if_unset`
    | AtCancel         // before `mark_cancelled`
    | AtFailure        // the generic handler: discard, then check for a cancel
    | AtErrorTake      // before `write_error_take`
    | AtErrorRow       // before the fenced error status

  /** One claim's process. `resolved` is the frozen record its claim read, `record` what it
      renders, `take` its local `take_id`. */
  datatype Attempt = Attempt(
    job: JobId, project: ProjectId, resolved: Option<Record>, pc: Pc,
    earlier: Option<TakeId>, take: Option<TakeId>, record: Option<Record>)

  /** What `retry_job` read from the job it repeats; `settled` unless that job is itself a retry
      whose own copy is still to come. */
  datatype Original = Original(job: JobId, snapshot: Option<Intent>, resolved: Option<Record>, settled: bool)

  /** A `remove_project` call between its tombstone and its return. */
  datatype Removal = Removal(cancelled: set<JobId>, failed: bool)

  datatype Render = Render(job: JobId, token: Token, record: Record)

  datatype Sys = Sys(
    // the database
    jobs: Jobs,
    tombstones: set<ProjectId>,
    // the disk
    projects: map<ProjectId, Project>,
    staging: map<TakeId, Staged>,
    // processes
    attempts: map<Token, Attempt>,
    removals: map<ProjectId, Removal>,
    originals: set<Original>,           // reads made by `retry_job` calls
    copying: set<JobId>,                // retries between their two transactions
    doomed: set<TakeId>,                // staged takes `cleanup_staging` has decided to discard
    // history
    issued: map<Token, JobId>,          // every token ever issued, and for which job
    latest: map<JobId, Token>,          // the token of a job's latest claim
    takeIds: set<TakeId>,               // every take id ever allocated
    created: set<ProjectId>,
    renders: set<Render>,               // every local render
    inherited: map<JobId, Original>,    // what each explicit retry repeats
    raced: set<JobId>,                  // claimed between a retry's two transactions
    missed: set<JobId>,                 // no longer queued at the second transaction
    torn: set<JobId>,                   // crashed between the rename and the SQL commit
    overwritten: set<JobId>,            // raised after the rename, so the handler may overwrite
    damaged: set<ProjectId>)            // a removal failed half way

  const INITIAL := Sys(map[], {}, map[], map[], map[], map[], {}, {}, {},
                       map[], map[], {}, {}, {}, map[], {}, {}, {}, {}, {})

  // ---- helpers ----

  function SetRow(s: Sys, j: JobId, r: Row): Sys {
    s.(jobs := s.jobs[j := r])
  }

  function SetAttempt(s: Sys, t: Token, a: Attempt): Sys {
    s.(attempts := s.attempts[t := a])
  }

  function AtPc(s: Sys, t: Token, pc: Pc): Sys
    requires t in s.attempts
  {
    SetAttempt(s, t, s.attempts[t].(pc := pc))
  }

  function EndAttempt(s: Sys, t: Token): Sys {
    s.(attempts := s.attempts - {t})
  }

  function Discard(s: Sys, take: Option<TakeId>): Sys {
    if take.Some? then s.(staging := s.staging - {take.value}) else s
  }

  /** A take of `j` that is not an error take. */
  predicate GoodTake(p: Project, k: TakeId, j: JobId) {
    k in p.takes && p.takes[k] == TakeMeta(Some(j), None)
  }

  /** `committed_take_for_job` found `k`. */
  predicate Found(s: Sys, p: ProjectId, j: JobId, k: TakeId) {
    p in s.projects && GoodTake(s.projects[p], k, j)
  }

  ghost predicate NoneFound(s: Sys, p: ProjectId, j: JobId) {
    forall k :: !Found(s, p, j, k)
  }

  function PutTake(s: Sys, p: ProjectId, k: TakeId, meta: TakeMeta): Sys
    requires p in s.projects
  {
    s.(projects := s.projects[p := s.projects[p].(takes := s.projects[p].takes[k := meta])])
  }

  /** `set_active_take_if_unset`: an active take that still plays is kept. */
  function Activated(p: Project, k: TakeId): Project {
    if p.active.Some? && p.active.value in p.takes && p.takes[p.active.value].error.None?
    then p
    else p.(active := Some(k))
  }

  /** The cleanup's reading of a staged take's owner: running under the marker's token. */
  predicate OwnerAlive(jobs: Jobs, owner: Option<Owner>) {
    owner.Some? && owner.value.job in jobs && Owns(jobs[owner.value.job], owner.value.token)
  }

  // ---- steps ----

  datatype CommitOutcome = Published | CrashedBefore | CrashedAfter | RaisedBefore | RaisedAfter

  /** One `UPDATE` of one row, outside the fenced writes of an attempt. */
  datatype RowUpdate =
    | RequestCancel
    | DropHeld                       // `retry_job` gives up a held job
    | Hold                           // the claim holds a job without a snapshot
    | Reclaim(staleAfter: int)
    | Heartbeat
    | NoteStage(stage: Stage)
    | ExpireError(message: string)   // the watchdog, past the deadline
    | ExpireCancel
    | TrainDone                      // a `train_lora` attempt, whose writes are not fenced
    | TrainCancelled
    | TrainError(message: string)

  /** One step of a generate-shaped attempt. */
  datatype Move =
    | FirstCheck
    | Lookup(earlier: Option<TakeId>)
    | EarlyFinish(now: Time)
    | SecondCheck
    | Allocate(k: TakeId)
    | Resolve(record: Record, now: Time)
    | RecordHandle(handle: Handle, now: Time)
    | RenderLocal
    | RemoteReturns
    | ThirdCheck
    | WriteMeta
    | Commit(outcome: CommitOutcome, now: Time)
    | Activate(raises: bool)
    | WorkerCancelled
    | Raise
    | MarkCancelled(now: Time)
    | HandleFailure
    | WriteErrorTake(text: string, written: bool)
    | WriteErrorRow(text: string, where: string, now: Time)
    | Crash

  datatype Step =
    | OnRow(j: JobId, update: RowUpdate, now: Time)
    | OnAttempt(t: Token, move: Move)
    // clients
    | CreateProject(p: ProjectId)
    | Enqueue(j: JobId, row: Row)
    | LegacyRow(j: JobId, row: Row)
    | ReadOriginal(o: Original)
    | RetryEnqueue(j: JobId, row: Row, o: Original)
    | RetryCopy(j: JobId)
    | SetActive(p: ProjectId, k: TakeId)
    // deletion
    | BeginDeletion(p: ProjectId, now: Time)
    | RemoveDirectory(p: ProjectId)
    | RemovalFails(p: ProjectId, kept: Option<set<TakeId>>)
    | AbortDeletion(p: ProjectId, now: Time)
    | RemovalCrashes(p: ProjectId)
    | DropProject(p: ProjectId)
    // the worker loop
    | Claim(j: JobId, t: Token, now: Time)
    | Doom(k: TakeId)
    | DiscardDoomed(k: TakeId)

  // kinds of moves and steps

  predicate IsEntry(move: Move) {
    move.FirstCheck? || move.Lookup? || move.EarlyFinish? || move.SecondCheck? || move.Allocate?
  }

  predicate IsBackend(move: Move) {
    move.Resolve? || move.RecordHandle? || move.RenderLocal? || move.RemoteReturns? || move.WorkerCancelled?
  }

  predicate IsPublication(move: Move) {
    move.ThirdCheck? || move.WriteMeta? || move.Commit? || move.Activate?
  }

  predicate IsDeletion(step: Step) {
    step.BeginDeletion? || step.RemoveDirectory? || step.RemovalFails? || step.AbortDeletion?
    || step.RemovalCrashes? || step.DropProject?
  }

  predicate IsClient(step: Step) {
    step.CreateProject? || step.Enqueue? || step.LegacyRow? || step.ReadOriginal? || step.RetryEnqueue?
    || step.RetryCopy? || step.SetActive?
  }

  predicate HasAttempt(s: Sys, t: Token, pc: Pc) {
    t in s.attempts && s.attempts[t].pc == pc && s.attempts[t].job in s.jobs
  }

  function RowOf(s: Sys, t: Token): Row
    requires t in s.attempts && s.attempts[t].job in s.jobs
  {
    s.jobs[s.attempts[t].job]
  }

  /** The exception handler of an attempt that lost its fence. */
  function Fenced(s: Sys, t: Token): Sys
    requires t in s.attempts
  {
    EndAttempt(Discard(s, s.attempts[t].take), t)
  }

  predicate CheckStep(s: Sys, t: Token, at: Pc, onward: Pc, s': Sys) {
    && HasAttempt(s, t, at)
    && s' == AtPc(s, t, if RowOf(s, t).cancelRequested then AtCancel else onward)
  }

  /** When row `r` may see update `u`. */
  predicate Allowed(r: Row, u: RowUpdate, tombstones: set<ProjectId>, now: Time) {
    match u
    case RequestCancel => true
    case DropHeld => Unsnapshotted(r)
    case Hold => Claimable(r, tombstones) && Unsnapshotted(r)
    case Reclaim(staleAfter) => Reclaimable(r, staleAfter, now)
    case Heartbeat => true
    case NoteStage(stage) => stage != NeedsConfirmation
    case ExpireError(message) => message != PROJECT_DELETED
    case ExpireCancel => r.cancelRequested
    case TrainDone => r.kind == TrainLora
    case TrainCancelled => r.kind == TrainLora
    case TrainError(_) => r.kind == TrainLora
  }

  function Updated(r: Row, u: RowUpdate, now: Time): Row {
    match u
    case RequestCancel => CancelRequested(r, now)
    case DropHeld => MarkedCancelled(r, None, now)
    case Hold => HeldForConfirmation(r, now)
    case Reclaim(_) => Reclaimed(r, now)
    case Heartbeat => Touched(r, now)
    case NoteStage(stage) => AtStage(r, stage, now)
    case ExpireError(message) => Expired(r, message, now)
    case ExpireCancel => MarkedCancelled(r, None, now)
    case TrainDone => FinishedDone(r, None, None, now)
    case TrainCancelled => MarkedCancelled(r, None, now)
    case TrainError(message) => SetFailed(r, None, None, message, now)
  }

  predicate EnqueueStep(s: Sys, j: JobId, row: Row, s': Sys) {
    && j !in s.jobs && NewRow(row)
    && row.project in s.created
    && row.project !in s.tombstones
    && s' == SetRow(s, j, row)
  }

  /** The state once job `j` is claimed under the fresh token `t`. */
  function AfterClaim(s: Sys, j: JobId, t: Token, now: Time): Sys
    requires j in s.jobs
  {
    var r := s.jobs[j];
    SetRow(s, j, Claimed(r, t, now)).(
      issued := s.issued[t := j],
      latest := s.latest[j := t],
      raced := if j in s.copying then s.raced + {j} else s.raced,
      attempts := if r.kind == Shaped
        then s.attempts[t := Attempt(j, r.project, r.resolved, AtFirstCheck, None, None, None)]
        else s.attempts)
  }

  predicate ClaimStep(s: Sys, j: JobId, t: Token, now: Time, s': Sys) {
    && j in s.jobs && t !in s.issued
    && Claimable(s.jobs[j], s.tombstones) && !Unsnapshotted(s.jobs[j])
    && s' == AfterClaim(s, j, t, now)
  }

  predicate RetryEnqueueStep(s: Sys, j: JobId, row: Row, o: Original, s': Sys) {
    && o in s.originals && row.retryOf == Some(o.job)
    && EnqueueStep(s, j, row, SetRow(s, j, row))
    && s' == SetRow(s, j, row).(copying := s.copying + {j}, inherited := s.inherited[j := o])
  }

  predicate RetryCopyStep(s: Sys, j: JobId, s': Sys) {
    && j in s.copying && j in s.jobs && j in s.inherited
    && s' == SetRow(s, j, WithCopiedRequest(s.jobs[j], s.inherited[j].snapshot, s.inherited[j].resolved)).(
         copying := s.copying - {j},
         missed := if s.jobs[j].status == Queued then s.missed else s.missed + {j})
  }

  function QueuedIn(jobs: Jobs, p: ProjectId): set<JobId> {
    set j | j in jobs && jobs[j].project == p && jobs[j].status == Queued
  }

  function DeletionCancelledAll(jobs: Jobs, p: ProjectId, now: Time): Jobs {
    map j | j in jobs :: DeletionCancelled(jobs[j], p, now)
  }

  function DeletionRestoredAll(jobs: Jobs, cancelled: set<JobId>, now: Time): Jobs {
    map j | j in jobs :: if j in cancelled then DeletionRestored(jobs[j], now) else jobs[j]
  }

  predicate BeginDeletionStep(s: Sys, p: ProjectId, now: Time, s': Sys) {
    && p in s.projects && p !in s.tombstones
    && s' == s.(
         tombstones := s.tombstones + {p},
         jobs := DeletionCancelledAll(s.jobs, p, now),
         removals := s.removals[p := Removal(QueuedIn(s.jobs, p), false)])
  }

  predicate AbortDeletionStep(s: Sys, p: ProjectId, now: Time, s': Sys) {
    && p in s.removals && s.removals[p].failed
    && s' == s.(
         tombstones := s.tombstones - {p},
         jobs := DeletionRestoredAll(s.jobs, s.removals[p].cancelled, now),
         removals := s.removals - {p})
  }

  /** `rmtree` raised: `kept` says which takes are left, or that `project.json` is gone. */
  predicate RemovalFailsStep(s: Sys, p: ProjectId, kept: Option<set<TakeId>>, s': Sys) {
    && p in s.removals && !s.removals[p].failed
    && s' == s.(
         removals := s.removals[p := s.removals[p].(failed := true)],
         damaged := s.damaged + {p},
         projects :=
           if kept.None? then s.projects - {p}
           else if p in s.projects then
             s.projects[p := s.projects[p].(takes := map k | k in s.projects[p].takes && k in kept.value
                                                     :: s.projects[p].takes[k])]
           else s.projects)
  }

  predicate AllocateStep(s: Sys, t: Token, k: TakeId, s': Sys) {
    && HasAttempt(s, t, AtAllocate) && k !in s.takeIds
    && var a := s.attempts[t];
    && a.project in s.projects
    && s' == SetAttempt(s, t, a.(pc := InWorker, take := Some(k))).(
         takeIds := s.takeIds + {k},
         staging := s.staging[k := Staged(a.project, Some(Owner(a.job, t)), None)])
  }

  /** `on_resolved`: an attempt that read no frozen record freezes its own, fenced; one that
      read a record renders that. */
  predicate ResolveStep(s: Sys, t: Token, record: Record, now: Time, s': Sys) {
    && HasAttempt(s, t, InWorker)
    && var a := s.attempts[t];
    && var r := RowOf(s, t);
    && (a.resolved.None? && r.seed.Some? ==> record.seed == r.seed.value)
    && s' ==
       if a.resolved.Some? then
         SetAttempt(s, t, a.(pc := AtRender, record := a.resolved))
       else if Owns(r, t) then
         SetAttempt(SetRow(s, a.job, Frozen(r, Some(t), record, now)), t,
                    a.(pc := AtRender, record := Some(record)))
       else
         Fenced(s, t)
  }

  predicate RecordHandleStep(s: Sys, t: Token, handle: Handle, now: Time, s': Sys) {
    && HasAttempt(s, t, InWorker)
    && var a := s.attempts[t];
    && var r := RowOf(s, t);
    && s' ==
       if Owns(r, t)
       then AtPc(SetRow(s, a.job, WithHandle(r, Some(t), handle, now)), t, AtRemoteWait)
       else Fenced(s, t)
  }

  predicate RenderLocalStep(s: Sys, t: Token, s': Sys) {
    && HasAttempt(s, t, AtRender)
    && var a := s.attempts[t];
    && a.record.Some?
    && s' == AtPc(s, t, Rendered).(renders := s.renders + {Render(a.job, t, a.record.value)})
  }

  /** The third check discards the staged files before it marks the job cancelled. */
  predicate ThirdCheckStep(s: Sys, t: Token, s': Sys) {
    && HasAttempt(s, t, Rendered)
    && var a := s.attempts[t];
    && s' == if RowOf(s, t).cancelRequested
             then AtPc(Discard(s, a.take), t, AtCancel)
             else AtPc(s, t, AtMeta)
  }

  /** Writing into a directory that cleanup removed recreates it, without an owner marker. */
  predicate WriteMetaStep(s: Sys, t: Token, s': Sys) {
    && HasAttempt(s, t, AtMeta)
    && var a := s.attempts[t];
    && a.take.Some?
    && var k := a.take.value;
    && var before := if k in s.staging then s.staging[k] else Staged(a.project, None, None);
    && s' == AtPc(s, t, AtCommit).(
         staging := s.staging[k := before.(meta := Some(TakeMeta(Some(a.job), None)))])
  }

  /** The commit's four checks: the fence, the cancel flag, the tombstone and the project. */
  predicate MayCommit(s: Sys, t: Token)
    requires t in s.attempts && s.attempts[t].job in s.jobs
  {
    && Owns(RowOf(s, t), t) && !RowOf(s, t).cancelRequested
    && s.attempts[t].project !in s.tombstones && s.attempts[t].project in s.projects
  }

  /** A commit that a check refused: `JobFenced`, "cancelled" or "project_deleted". */
  predicate RefuseStep(s: Sys, t: Token, s': Sys) {
    && t in s.attempts && s.attempts[t].job in s.jobs
    && var a := s.attempts[t];
    && s' == if !Owns(RowOf(s, t), t) then Fenced(s, t)
             else SetAttempt(Discard(s, a.take), t,
                             a.(pc := if RowOf(s, t).cancelRequested then AtCancel else AtErrorRow, take := None))
  }

  /** `_commit_take` under the project lock and one immediate transaction. */
  ghost predicate CommitStep(s: Sys, t: Token, outcome: CommitOutcome, now: Time, s': Sys) {
    && HasAttempt(s, t, AtCommit)
    && var a := s.attempts[t];
    && a.take.Some?
    && if !MayCommit(s, t) then RefuseStep(s, t, s')
       else if !NoneFound(s, a.project, a.job) then FinishEarlierStep(s, t, now, s')
       else if a.take.value !in s.staging || s.staging[a.take.value].meta.None? then
         s' == AtPc(Discard(s, a.take), t, AtFailure)
       else PublishStep(s, t, outcome, now, s')
  }

  /** An earlier attempt's take is already committed: the job finishes with that one. */
  ghost predicate FinishEarlierStep(s: Sys, t: Token, now: Time, s': Sys) {
    && t in s.attempts && s.attempts[t].job in s.jobs
    && var a := s.attempts[t];
    && exists k :: Found(s, a.project, a.job, k)
         && s' == EndAttempt(Discard(SetRow(s, a.job, CommittedDone(RowOf(s, t), k, now)), a.take), t)
  }

  predicate PublishStep(s: Sys, t: Token, outcome: CommitOutcome, now: Time, s': Sys) {
    && t in s.attempts && s.attempts[t].job in s.jobs && s.attempts[t].take.Some?
    && var a := s.attempts[t];
    && var k := a.take.value;
    && a.project in s.projects && k in s.staging && s.staging[k].meta.Some?
    && var renamed := PutTake(Discard(s, a.take), a.project, k, s.staging[k].meta.value);
    && s' == match outcome
             case Published => AtPc(SetRow(renamed, a.job, CommittedDone(RowOf(s, t), k, now)), t, AtActivate)
             case CrashedBefore => EndAttempt(s.(staging := s.staging[k := s.staging[k].(owner := None)]), t)
             case CrashedAfter => EndAttempt(renamed.(torn := s.torn + {a.job}), t)
             case RaisedBefore => AtPc(Discard(s, a.take), t, AtFailure)
             case RaisedAfter => AtPc(renamed.(overwritten := s.overwritten + {a.job}), t, AtFailure)
  }

  predicate ActivateStep(s: Sys, t: Token, raises: bool, s': Sys) {
    && HasAttempt(s, t, AtActivate)
    && var a := s.attempts[t];
    && a.take.Some?
    && if raises then s' == AtPc(s, t, AtFailure).(overwritten := s.overwritten + {a.job})
       else
         && a.project in s.projects
         && s' == EndAttempt(s, t).(
              projects := s.projects[a.project := Activated(s.projects[a.project], a.take.value)])
  }

  /** The backend raises `JobCancelled`: it saw the flag, or the remote host says so. */
  predicate WorkerCancelledStep(s: Sys, t: Token, s': Sys) {
    && t in s.attempts && s.attempts[t].job in s.jobs
    && var a := s.attempts[t];
    && (a.pc == InWorker || a.pc == AtRender || a.pc == AtRemoteWait || a.pc == Rendered)
    && (RowOf(s, t).cancelRequested || a.pc == AtRemoteWait)
    && s' == AtPc(Discard(s, a.take), t, AtCancel)
  }

  /** Any other exception raised inside the `try`. */
  predicate RaiseStep(s: Sys, t: Token, s': Sys) {
    && t in s.attempts
    && s.attempts[t].pc !in {AtActivate, AtFailure, AtErrorTake, AtErrorRow}
    && s' == AtPc(s, t, AtFailure)
  }

  predicate HandleFailureStep(s: Sys, t: Token, s': Sys) {
    && HasAttempt(s, t, AtFailure)
    && var a := s.attempts[t];
    && s' == AtPc(Discard(s, a.take), t,
                  if RowOf(s, t).cancelRequested then AtCancel
                  else if a.take.Some? then AtErrorTake
                  else AtErrorRow)
  }

  /** `write_error_take`; a failure of its own is swallowed and clears the take id. */
  predicate WriteErrorTakeStep(s: Sys, t: Token, text: string, written: bool, s': Sys) {
    && HasAttempt(s, t, AtErrorTake)
    && var a := s.attempts[t];
    && a.take.Some?
    && (written ==> a.project in s.projects)
    && s' == if written
             then PutTake(AtPc(s, t, AtErrorRow), a.project, a.take.value, TakeMeta(Some(a.job), Some(text)))
             else SetAttempt(s, t, a.(pc := AtErrorRow, take := None))
  }

  predicate WriteErrorRowStep(s: Sys, t: Token, text: string, where: string, now: Time, s': Sys) {
    && HasAttempt(s, t, AtErrorRow)
    && var a := s.attempts[t];
    && s' == EndAttempt(SetRow(s, a.job, SetFailed(RowOf(s, t), Some(t), a.take,
                                                   DescribeFailure(text, where), now)), t)
  }

  predicate MarkCancelledStep(s: Sys, t: Token, now: Time, s': Sys) {
    && HasAttempt(s, t, AtCancel)
    && s' == EndAttempt(SetRow(s, s.attempts[t].job, MarkedCancelled(RowOf(s, t), Some(t), now)), t)
  }

  predicate EarlyFinishStep(s: Sys, t: Token, now: Time, s': Sys) {
    && HasAttempt(s, t, AtEarlyFinish)
    && var a := s.attempts[t];
    && a.earlier.Some?
    && s' == EndAttempt(SetRow(s, a.job, FinishedDone(RowOf(s, t), Some(t), a.earlier, now)), t)
  }

  ghost predicate LookupStep(s: Sys, t: Token, earlier: Option<TakeId>, s': Sys) {
    && HasAttempt(s, t, AtLookup)
    && var a := s.attempts[t];
    && (earlier.Some? ==> Found(s, a.project, a.job, earlier.value))
    && (earlier.None? ==> NoneFound(s, a.project, a.job))
    && s' == SetAttempt(s, t, a.(earlier := earlier, pc := if earlier.Some? then AtEarlyFinish else AtSecondCheck))
  }

  ghost predicate AttemptNext(s: Sys, t: Token, move: Move, s': Sys) {
    match move
    case FirstCheck => CheckStep(s, t, AtFirstCheck, AtLookup, s')
    case Lookup(earlier) => LookupStep(s, t, earlier, s')
    case EarlyFinish(now) => EarlyFinishStep(s, t, now, s')
    case SecondCheck => CheckStep(s, t, AtSecondCheck, AtAllocate, s')
    case Allocate(k) => AllocateStep(s, t, k, s')
    case Resolve(record, now) => ResolveStep(s, t, record, now, s')
    case RecordHandle(handle, now) => RecordHandleStep(s, t, handle, now, s')
    case RenderLocal => RenderLocalStep(s, t, s')
    case RemoteReturns => HasAttempt(s, t, AtRemoteWait) && s' == AtPc(s, t, Rendered)
    case ThirdCheck => ThirdCheckStep(s, t, s')
    case WriteMeta => WriteMetaStep(s, t, s')
    case Commit(outcome, now) => CommitStep(s, t, outcome, now, s')
    case Activate(raises) => ActivateStep(s, t, raises, s')
    case WorkerCancelled => WorkerCancelledStep(s, t, s')
    case Raise => RaiseStep(s, t, s')
    case MarkCancelled(now) => MarkCancelledStep(s, t, now, s')
    case HandleFailure => HandleFailureStep(s, t, s')
    case WriteErrorTake(text, written) => WriteErrorTakeStep(s, t, text, written, s')
    case WriteErrorRow(text, where, now) => WriteErrorRowStep(s, t, text, where, now, s')
    case Crash => t in s.attempts && s' == EndAttempt(s, t)
  }

  ghost predicate Next(s: Sys, step: Step, s': Sys) {
    match step
    case OnRow(j, u, now) =>
      && j in s.jobs && Allowed(s.jobs[j], u, s.tombstones, now)
      && s' == SetRow(s, j, Updated(s.jobs[j], u, now))
    case OnAttempt(t, move) => AttemptNext(s, t, move, s')
    case CreateProject(p) =>
      p !in s.created && s' == s.(created := s.created + {p}, projects := s.projects[p := Project(map[], None)])
    case Enqueue(j, row) =>
      && (row.retryOf.Some? ==> row.retryOf.value in s.jobs && Unsnapshotted(s.jobs[row.retryOf.value]))
      && EnqueueStep(s, j, row, s')
    case LegacyRow(j, row) =>
      && j !in s.jobs && row.project in s.created && row.project !in s.tombstones
      && NewRow(row.(kind := TrainLora)) && Unsnapshotted(row) && s' == SetRow(s, j, row)
    case ReadOriginal(o) =>
      && o.job in s.jobs && (s.jobs[o.job].status == Failed || s.jobs[o.job].status == Cancelled)
      && o == Original(o.job, s.jobs[o.job].snapshot, s.jobs[o.job].resolved, o.job !in s.copying)
      && s' == s.(originals := s.originals + {o})
    case RetryEnqueue(j, row, o) => RetryEnqueueStep(s, j, row, o, s')
    case RetryCopy(j) => RetryCopyStep(s, j, s')
    case SetActive(p, k) =>
      p in s.projects && s' == s.(projects := s.projects[p := s.projects[p].(active := Some(k))])
    case BeginDeletion(p, now) => BeginDeletionStep(s, p, now, s')
    case RemoveDirectory(p) =>
      && p in s.removals && !s.removals[p].failed
      && s' == s.(projects := s.projects - {p}, removals := s.removals - {p})
    case RemovalFails(p, kept) => RemovalFailsStep(s, p, kept, s')
    case AbortDeletion(p, now) => AbortDeletionStep(s, p, now, s')
    case RemovalCrashes(p) =>
      p in s.removals && s' == s.(removals := s.removals - {p})
    case DropProject(p) => p in s.projects && s' == s.(projects := s.projects - {p})
    case Claim(j, t, now) => ClaimStep(s, j, t, now, s')
    case Doom(k) =>
      && k in s.staging && !OwnerAlive(s.jobs, s.staging[k].owner)
      && s' == s.(doomed := s.doomed + {k})
    case DiscardDoomed(k) =>
      k in s.doomed && s' == s.(doomed := s.doomed - {k}, staging := s.staging - {k})
  }

  /** A run: states joined by steps, from the empty system. */
  ghost predicate IsRun(run: seq<Sys>, steps: seq<Step>) {
    && |run| == |steps| + 1
    && run[0] == INITIAL
    && forall i :: 0 <= i < |steps| ==> Next(run[i], steps[i], run[i + 1])
  }
}
