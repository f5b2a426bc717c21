/** What one step, and then any number of steps, can do to what is already there. */
module JobHistory {
  import opened Common
  import opened CreationTypes
  import opened JobRows
  import opened JobProtocol
  import opened JobInvariant
  import opened JobMoves
  import opened JobSteps

  // ---- the row an attempt writes ----

  lemma CommitWrites(s: Sys, t: Token, outcome: CommitOutcome, now: Time, s': Sys)
    requires CommitStep(s, t, outcome, now, s')
    ensures WritesOwnRow(s, t, s')
  {
    hide WritesOwnRow, PublishStep, RefuseStep, FinishEarlierStep, NoneFound;
    var a := s.attempts[t];
    if !MayCommit(s, t) {
      RefuseWrites(s, t, s');
    } else if !NoneFound(s, a.project, a.job) {
      FinishEarlierWrites(s, t, now, s');
    } else if a.take.value !in s.staging || s.staging[a.take.value].meta.None? {
      NothingWritten(s, t, s');
    } else {
      JobMoves.PublishWrites(s, t, outcome, now, s');
    }
  }

  lemma AttemptWrites(s: Sys, t: Token, move: Move, s': Sys)
    requires Rows(s) && Attempts(s) && Records(s) && AttemptNext(s, t, move, s')
    ensures WritesOwnRow(s, t, s')
  {
    hide WritesOwnRow, Rows, Records, Attempts, CommitStep, ResolveStep, MarkCancelledStep;
    match move
    case Resolve(record, now) => ResolveWrites(s, t, record, now, s');
    case Commit(outcome, now) => CommitWrites(s, t, outcome, now, s');
    case MarkCancelled(now) => CancelWrites(s, t, now, s');
    case _ => OtherMovesWrite(s, t, move, s');
  }

  lemma OtherMovesWrite(s: Sys, t: Token, move: Move, s': Sys)
    requires Attempts(s) && AttemptNext(s, t, move, s')
    requires !move.Resolve? && !move.Commit? && !move.MarkCancelled?
    ensures WritesOwnRow(s, t, s')
  {
    hide WritesOwnRow, Attempts, AttemptNext;
    if IsEntry(move) {
      EntryWrites(s, t, move, s');
    } else if IsBackend(move) {
      BackendWrites(s, t, move, s');
    } else if IsPublication(move) {
      PublicationWrites(s, t, move, s');
    } else {
      EndingWrites(s, t, move, s');
    }
  }

  // ---- from one state to a later one ----

  /** A generate-shaped row that nothing will ever write again. */
  predicate Settled(r: Row) {
    && r.kind == Shaped
    && (r.status == Done || r.status == Cancelled || (r.status == Failed && r.error != Some(PROJECT_DELETED)))
  }

  /** `r'` is `r` after any number of steps; `issued` are the tokens that were out at `r`. */
  ghost predicate RowLater(r: Row, r': Row, issued: map<Token, JobId>) {
    && SameRequest(r, r')
    && r.attempts <= r'.attempts
    && (r.cancelRequested ==> r'.cancelRequested)
    && (r.remoteHandle.Some? ==> r'.remoteHandle.Some?)
    && (r.cancelRequested || r.remoteHandle.Some? ==> r'.attempts == r.attempts)
    && (r.cancelRequested && r.status != Done ==> r'.status != Done)
    && (forall t :: t in issued && Owns(r', t) ==> Owns(r, t))
    && (Settled(r) ==> r' == r)
  }

  ghost predicate RowsLater(jobs: Jobs, jobs': Jobs, issued: map<Token, JobId>) {
    forall j :: j in jobs ==> j in jobs' && RowLater(jobs[j], jobs'[j], issued)
  }

  /** What is recorded for good: tokens, projects, and the events the theorems except. */
  ghost predicate HistoryLater(s: Sys, s': Sys) {
    && (forall t :: t in s.issued ==> t in s'.issued && s'.issued[t] == s.issued[t])
    && s.created <= s'.created
    && (forall p :: p in s.created && p !in s.projects ==> p !in s'.projects)
    && s.raced <= s'.raced && s.missed <= s'.missed && s.torn <= s'.torn
    && s.overwritten <= s'.overwritten && s.damaged <= s'.damaged
    && s.renders <= s'.renders && s.takeIds <= s'.takeIds
  }

  ghost predicate Later(s: Sys, s': Sys) {
    RowsLater(s.jobs, s'.jobs, s.issued) && HistoryLater(s, s')
  }

  lemma UpdateIsLater(r: Row, u: RowUpdate, tombstones: set<ProjectId>, now: Time, issued: map<Token, JobId>)
    requires Allowed(r, u, tombstones, now) && (r.status == Queued ==> Fresh(r))
    ensures RowLater(r, Updated(r, u, now), issued)
  {
  }

  lemma FencedIsLater(r: Row, r': Row, t: Token, issued: map<Token, JobId>)
    requires FencedWrite(r, r', t)
    ensures RowLater(r, r', issued)
  {
  }

  lemma OneRowLater(jobs: Jobs, j: JobId, r': Row, issued: map<Token, JobId>)
    requires j in jobs && RowLater(jobs[j], r', issued)
    ensures RowsLater(jobs, jobs[j := r'], issued)
  {
  }

  lemma ClaimIsLater(s: Sys, j: JobId, t: Token, now: Time, s': Sys)
    requires Rows(s) && ClaimStep(s, j, t, now, s')
    ensures RowsLater(s.jobs, s'.jobs, s.issued)
  {
    assert RowOk(j, s.jobs[j], s.issued, s.latest);
    OneRowLater(s.jobs, j, Claimed(s.jobs[j], t, now), s.issued);
  }

  lemma CopyIsLater(s: Sys, j: JobId, s': Sys)
    requires RetryCopyStep(s, j, s')
    ensures RowsLater(s.jobs, s'.jobs, s.issued)
  {
    OneRowLater(s.jobs, j, s'.jobs[j], s.issued);
  }

  lemma DeletionIsLater(jobs: Jobs, p: ProjectId, cancelled: set<JobId>, now: Time, issued: map<Token, JobId>)
    ensures RowsLater(jobs, DeletionCancelledAll(jobs, p, now), issued)
    ensures RowsLater(jobs, DeletionRestoredAll(jobs, cancelled, now), issued)
  {
  }

  /** A step that adds at most one row. */
  lemma ClientIsLater(s: Sys, step: Step, s': Sys)
    requires Next(s, step, s') && IsClient(step)
    ensures RowsLater(s.jobs, s'.jobs, s.issued)
  {
    if step.RetryCopy? {
      CopyIsLater(s, step.j, s');
    }
  }

  lemma RemovalIsLater(s: Sys, step: Step, s': Sys)
    requires Next(s, step, s') && IsDeletion(step)
    ensures RowsLater(s.jobs, s'.jobs, s.issued)
  {
    if step.BeginDeletion? {
      DeletionIsLater(s.jobs, step.p, {}, step.now, s.issued);
    } else if step.AbortDeletion? {
      DeletionIsLater(s.jobs, step.p, s.removals[step.p].cancelled, step.now, s.issued);
    }
  }

  lemma AttemptIsLater(s: Sys, t: Token, move: Move, s': Sys)
    requires Rows(s) && Attempts(s) && Records(s) && AttemptNext(s, t, move, s')
    ensures RowsLater(s.jobs, s'.jobs, s.issued)
  {
    hide AttemptNext, Rows, Attempts, Records;
    AttemptWrites(s, t, move, s');
    var j := s.attempts[t].job;
    FencedIsLater(s.jobs[j], s'.jobs[j], t, s.issued);
    OneRowLater(s.jobs, j, s'.jobs[j], s.issued);
  }

  lemma OnRowIsLater(s: Sys, j: JobId, u: RowUpdate, now: Time)
    requires Rows(s) && j in s.jobs && Allowed(s.jobs[j], u, s.tombstones, now)
    ensures RowsLater(s.jobs, s.jobs[j := Updated(s.jobs[j], u, now)], s.issued)
  {
    assert RowOk(j, s.jobs[j], s.issued, s.latest);
    UpdateIsLater(s.jobs[j], u, s.tombstones, now, s.issued);
    OneRowLater(s.jobs, j, Updated(s.jobs[j], u, now), s.issued);
  }

  lemma AllocateHistory(s: Sys, t: Token, k: TakeId, s': Sys)
    requires AllocateStep(s, t, k, s')
    ensures HistoryLater(s, s')
  {
  }

  lemma RenderHistory(s: Sys, t: Token, s': Sys)
    requires RenderLocalStep(s, t, s')
    ensures HistoryLater(s, s')
  {
  }

  lemma ActivateHistory(s: Sys, t: Token, raises: bool, s': Sys)
    requires ActivateStep(s, t, raises, s')
    ensures HistoryLater(s, s')
  {
  }

  lemma ErrorTakeHistory(s: Sys, t: Token, text: string, written: bool, s': Sys)
    requires WriteErrorTakeStep(s, t, text, written, s')
    ensures HistoryLater(s, s')
  {
  }

  lemma PublishHistory(s: Sys, t: Token, outcome: CommitOutcome, now: Time, s': Sys)
    requires PublishStep(s, t, outcome, now, s')
    ensures HistoryLater(s, s')
  {
  }

  lemma RefuseIsLocal(s: Sys, t: Token, s': Sys)
    requires RefuseStep(s, t, s')
    ensures Local(s, s')
  {
    hide Local, SetAttempt, EndAttempt, Discard, Owns;
    LocalUpdates();
  }

  lemma FinishEarlierIsLocal(s: Sys, t: Token, now: Time, s': Sys)
    requires FinishEarlierStep(s, t, now, s')
    ensures Local(s, s')
  {
  }

  /** A commit that does not come to the rename is local too. */
  lemma CommitIsLocalOrPublishes(s: Sys, t: Token, outcome: CommitOutcome, now: Time, s': Sys)
    requires CommitStep(s, t, outcome, now, s')
    ensures Local(s, s') || (PublishStep(s, t, outcome, now, s') && MayCommit(s, t)
                             && NoneFound(s, s.attempts[t].project, s.attempts[t].job))
  {
    hide PublishStep, RefuseStep, FinishEarlierStep, NoneFound;
    if !MayCommit(s, t) {
      RefuseIsLocal(s, t, s');
    } else if FinishEarlierStep(s, t, now, s') {
      FinishEarlierIsLocal(s, t, now, s');
    }
  }

  lemma CommitHistory(s: Sys, t: Token, outcome: CommitOutcome, now: Time, s': Sys)
    requires CommitStep(s, t, outcome, now, s')
    ensures HistoryLater(s, s')
  {
    hide CommitStep, PublishStep;
    CommitIsLocalOrPublishes(s, t, outcome, now, s');
    if PublishStep(s, t, outcome, now, s') {
      PublishHistory(s, t, outcome, now, s');
    }
  }

  lemma LocalHistory(s: Sys, s': Sys)
    requires Local(s, s')
    ensures HistoryLater(s, s')
  {
  }

  lemma AttemptHistory(s: Sys, t: Token, move: Move, s': Sys)
    requires AttemptNext(s, t, move, s')
    ensures HistoryLater(s, s')
  {
    hide HistoryLater, Local;
    if IsLocal(move) {
      hide AttemptNext;
      LocalMoves(s, t, move, s');
      LocalHistory(s, s');
    } else {
      hide CommitStep, AllocateStep, RenderLocalStep, ActivateStep, WriteErrorTakeStep;
      match move
      case Commit(outcome, now) => CommitHistory(s, t, outcome, now, s');
      case Allocate(k) => AllocateHistory(s, t, k, s');
      case RenderLocal => RenderHistory(s, t, s');
      case Activate(raises) => ActivateHistory(s, t, raises, s');
      case WriteErrorTake(text, written) => ErrorTakeHistory(s, t, text, written, s');
    }
  }

  lemma ClientHistory(s: Sys, step: Step, s': Sys)
    requires Next(s, step, s') && IsClient(step)
    ensures HistoryLater(s, s')
  {
  }

  lemma OtherHistory(s: Sys, step: Step, s': Sys)
    requires Next(s, step, s') && !step.OnAttempt? && !IsClient(step)
    ensures HistoryLater(s, s')
  {
  }

  // ---- any step, any number of steps ----

  lemma OtherRowsLater(s: Sys, step: Step, s': Sys)
    requires Rows(s) && Next(s, step, s') && !step.OnAttempt? && !IsDeletion(step) && !IsClient(step)
    ensures RowsLater(s.jobs, s'.jobs, s.issued)
  {
    hide Rows, RowsLater;
    match step
    case OnRow(j, u, now) => OnRowIsLater(s, j, u, now);
    case Claim(j, t, now) => ClaimIsLater(s, j, t, now, s');
    case _ => StandingRowsLater(s.jobs, s.issued);
  }

  lemma StandingRowsLater(jobs: Jobs, issued: map<Token, JobId>)
    ensures RowsLater(jobs, jobs, issued)
  {
  }

  lemma StepIsLater(s: Sys, step: Step, s': Sys)
    requires Inv(s) && Next(s, step, s')
    ensures Later(s, s')
  {
    hide RowsLater, HistoryLater, Rows, Attempts, Records;
    if step.OnAttempt? {
      hide AttemptNext;
      AttemptIsLater(s, step.t, step.move, s');
      AttemptHistory(s, step.t, step.move, s');
    } else {
      hide Next;
      if IsClient(step) {
        ClientHistory(s, step, s');
        ClientIsLater(s, step, s');
      } else {
        OtherHistory(s, step, s');
        if IsDeletion(step) {
          RemovalIsLater(s, step, s');
        } else {
          OtherRowsLater(s, step, s');
        }
      }
    }
  }

  lemma RowLaterComposes(r: Row, r': Row, r'': Row, issued: map<Token, JobId>, issued': map<Token, JobId>)
    requires RowLater(r, r', issued) && RowLater(r', r'', issued')
    requires issued.Keys <= issued'.Keys
    ensures RowLater(r, r'', issued)
  {
  }

  lemma LaterComposes(s: Sys, s': Sys, s'': Sys)
    requires Later(s, s') && Later(s', s'')
    ensures Later(s, s'')
  {
    forall j | j in s.jobs
      ensures j in s''.jobs && RowLater(s.jobs[j], s''.jobs[j], s.issued)
    {
      RowLaterComposes(s.jobs[j], s'.jobs[j], s''.jobs[j], s.issued, s'.issued);
    }
  }

  /** In a run, every later state is `Later` than an earlier one. */
  lemma {:induction false} RunIsLater(run: seq<Sys>, steps: seq<Step>, i: nat, m: nat)
    requires IsRun(run, steps) && i <= m < |run|
    ensures Later(run[i], run[m])
    decreases m - i
  {
    hide Inv, Later, Next;
    if i < m {
      RunIsLater(run, steps, i, m - 1);
      RunKeepsInv(run, steps, m - 1);
      StepIsLater(run[m - 1], steps[m - 1], run[m]);
      LaterComposes(run[i], run[m - 1], run[m]);
    } else {
      LaterThanItself(run[i]);
    }
  }

  lemma LaterThanItself(s: Sys)
    ensures Later(s, s)
  {
  }
}
