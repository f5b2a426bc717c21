/** Deleting a project, over every run: nothing starts behind the tombstone, an abort gives back
    exactly what the deletion took, and a removed directory stays removed. */
module JobDeletionTheorems {
  import opened Common
  import opened CreationTypes
  import opened JobRows
  import opened JobProtocol
  import opened JobInvariant
  import opened JobMoves
  import opened JobSteps
  import opened JobHistory
  import opened JobTakes
  import opened JobTheorems

  // ---- behind the tombstone ----

  /** No job of `p` is inserted or claimed. */
  ghost predicate NothingStarts(s: Sys, s': Sys, p: ProjectId) {
    && (forall j :: j in s'.jobs && s'.jobs[j].project == p ==> j in s.jobs)
    && (forall t | t in s'.issued && t !in s.issued ::
          s'.issued[t] in s'.jobs && s'.jobs[s'.issued[t]].project != p)
  }

  lemma AttemptStartsNothing(s: Sys, t: Token, move: Move, s': Sys, p: ProjectId)
    requires Rows(s) && Attempts(s) && Records(s) && AttemptNext(s, t, move, s')
    ensures NothingStarts(s, s', p)
  {
    hide AttemptNext;
    AttemptWrites(s, t, move, s');
    AttemptIssuesNone(s, t, move, s');
  }

  lemma PublishIssuesNone(s: Sys, t: Token, outcome: CommitOutcome, now: Time, s': Sys)
    requires PublishStep(s, t, outcome, now, s')
    ensures s'.issued == s.issued
  {
  }

  lemma AttemptIssuesNone(s: Sys, t: Token, move: Move, s': Sys)
    requires AttemptNext(s, t, move, s')
    ensures s'.issued == s.issued
  {
    if IsLocal(move) {
      hide AttemptNext;
      LocalMoves(s, t, move, s');
    } else if move.Commit? {
      hide CommitStep, PublishStep;
      CommitIsLocalOrPublishes(s, t, move.outcome, move.now, s');
      if PublishStep(s, t, move.outcome, move.now, s') {
        PublishIssuesNone(s, t, move.outcome, move.now, s');
      }
    }
  }

  lemma ClientStartsNothing(s: Sys, step: Step, s': Sys, p: ProjectId)
    requires Next(s, step, s') && IsClient(step) && p in s.tombstones
    ensures NothingStarts(s, s', p)
  {
  }

  lemma OtherStartsNothing(s: Sys, step: Step, s': Sys, p: ProjectId)
    requires Next(s, step, s') && !step.OnAttempt? && !IsClient(step) && p in s.tombstones
    ensures NothingStarts(s, s', p)
  {
  }

  lemma StepStartsNothing(s: Sys, step: Step, s': Sys, p: ProjectId)
    requires Inv(s) && Next(s, step, s') && p in s.tombstones
    ensures NothingStarts(s, s', p)
  {
    hide NothingStarts, Rows, Attempts, Records;
    if step.OnAttempt? {
      hide AttemptNext;
      AttemptStartsNothing(s, step.t, step.move, s', p);
    } else {
      hide Next;
      if IsClient(step) {
        ClientStartsNothing(s, step, s', p);
      } else {
        OtherStartsNothing(s, step, s', p);
      }
    }
  }

  /** `p` is tombstoned in every state from `i` to `m`. */
  ghost predicate Deleting(run: seq<Sys>, p: ProjectId, i: nat, m: nat) {
    i <= m < |run| && forall n | i <= n <= m :: p in run[n].tombstones
  }

  /** While `p` is being deleted, none of its jobs is inserted or claimed and none of its jobs
      gets a take, even when a reclaim puts one back in the queue. */
  lemma {:induction false} NothingHappensWhileDeleting(run: seq<Sys>, steps: seq<Step>, i: nat, m: nat, p: ProjectId)
    requires IsRun(run, steps) && Deleting(run, p, i, m)
    ensures NothingStarts(run[i], run[m], p)
    ensures forall j, k :: Found(run[m], p, j, k) ==> Found(run[i], p, j, k)
    decreases m - i
  {
    hide Inv, Next, Later, HistoryLater;
    if i < m {
      NothingHappensWhileDeleting(run, steps, i, m - 1, p);
      RunKeepsInv(run, steps, m - 1);
      StepStartsNothing(run[m - 1], steps[m - 1], run[m], p);
      StartsCompose(run, steps, i, m, p);
      forall j, k | Found(run[m], p, j, k)
        ensures Found(run[i], p, j, k)
      {
        if !Found(run[m - 1], p, j, k) {
          ReachableStaging(run, steps, m - 1);
          OnlyCommitPublishes(run[m - 1], steps[m - 1], run[m], p, j, k);
        }
      }
    }
  }

  lemma StartsCompose(run: seq<Sys>, steps: seq<Step>, i: nat, m: nat, p: ProjectId)
    requires IsRun(run, steps) && i < m < |run|
    requires NothingStarts(run[i], run[m - 1], p) && NothingStarts(run[m - 1], run[m], p)
    ensures NothingStarts(run[i], run[m], p)
  {
    hide Next, Inv;
    RunIsLater(run, steps, m - 1, m);
    forall j | j in run[m].jobs && run[m].jobs[j].project == p
      ensures j in run[i].jobs
    {
      assert RowLater(run[m - 1].jobs[j], run[m].jobs[j], run[m - 1].issued);
    }
    forall t | t in run[m].issued && t !in run[i].issued
      ensures run[m].issued[t] in run[m].jobs && run[m].jobs[run[m].issued[t]].project != p
    {
      if t in run[m - 1].issued {
        var j := run[m - 1].issued[t];
        assert RowLater(run[m - 1].jobs[j], run[m].jobs[j], run[m - 1].issued);
      }
    }
  }

  // ---- the abort ----

  /** The writes of a `train_lora` attempt carry no fence, so one of them can fail a row that the
      deletion has cancelled. */
  predicate TrainsError(step: Step, j: JobId) {
    step.OnRow? && step.j == j && step.update.TrainError?
  }

  /** What a step leaves of a failed row `j` of a removal under way. */
  function AfterStep(r: Row, step: Step, j: JobId): Row {
    if TrainsError(step, j) && r.kind == TrainLora then SetFailed(r, None, None, step.update.message, step.now) else r
  }

  /** The removal of `p` is still under way in `s'`, with the list it had, and of the rows on it that
      are failed only the ones a training error hit have changed. */
  ghost predicate RemovalStands(s: Sys, step: Step, s': Sys, p: ProjectId) {
    && p in s.removals && p in s'.removals && s'.removals[p].cancelled == s.removals[p].cancelled
    && forall j | j in s.removals[p].cancelled && j in s.jobs && s.jobs[j].status == Failed ::
         j in s'.jobs && s'.jobs[j] == AfterStep(s.jobs[j], step, j)
  }

  lemma FencedFailedStands(s: Sys, t: Token, move: Move, s': Sys, p: ProjectId)
    requires p in s.removals && WritesOwnRow(s, t, s') && s'.removals == s.removals
    ensures RemovalStands(s, OnAttempt(t, move), s', p)
  {
  }

  lemma UpdateStandsFailed(r: Row, u: RowUpdate, tombstones: set<ProjectId>, now: Time, j: JobId)
    requires r.status == Failed && Allowed(r, u, tombstones, now)
    ensures Updated(r, u, now) == AfterStep(r, OnRow(j, u, now), j)
  {
  }

  lemma PublishRemovesNone(s: Sys, t: Token, outcome: CommitOutcome, now: Time, s': Sys)
    requires PublishStep(s, t, outcome, now, s')
    ensures s'.removals == s.removals
  {
  }

  lemma AttemptRemovesNone(s: Sys, t: Token, move: Move, s': Sys)
    requires AttemptNext(s, t, move, s')
    ensures s'.removals == s.removals
  {
    if IsLocal(move) {
      hide AttemptNext;
      LocalMoves(s, t, move, s');
    } else if move.Commit? {
      hide CommitStep, PublishStep;
      CommitIsLocalOrPublishes(s, t, move.outcome, move.now, s');
      if PublishStep(s, t, move.outcome, move.now, s') {
        PublishRemovesNone(s, t, move.outcome, move.now, s');
      }
    }
  }

  lemma DeletionStands(s: Sys, step: Step, s': Sys, p: ProjectId)
    requires Removals(s) && Next(s, step, s') && IsDeletion(step) && p in s.removals && p in s'.removals
    ensures RemovalStands(s, step, s', p)
  {
  }

  lemma RowStepStands(s: Sys, j: JobId, u: RowUpdate, now: Time, p: ProjectId)
    requires j in s.jobs && Allowed(s.jobs[j], u, s.tombstones, now) && p in s.removals
    ensures RemovalStands(s, OnRow(j, u, now), SetRow(s, j, Updated(s.jobs[j], u, now)), p)
  {
    if s.jobs[j].status == Failed {
      hide Allowed, Updated, AfterStep;
      UpdateStandsFailed(s.jobs[j], u, s.tombstones, now, j);
      OthersStand(s, j, u, now, p);
    } else {
      hide Allowed, Updated;
    }
  }

  lemma OthersStand(s: Sys, j: JobId, u: RowUpdate, now: Time, p: ProjectId)
    ensures forall i, r: Row | i != j :: AfterStep(r, OnRow(j, u, now), i) == r
  {
  }

  lemma OtherStepStands(s: Sys, step: Step, s': Sys, p: ProjectId)
    requires Next(s, step, s') && !step.OnAttempt? && !step.OnRow? && !IsDeletion(step) && p in s.removals
    ensures RemovalStands(s, step, s', p)
  {
  }

  lemma StepRemovalStands(s: Sys, step: Step, s': Sys, p: ProjectId)
    requires Inv(s) && Next(s, step, s') && p in s.removals && p in s'.removals
    ensures RemovalStands(s, step, s', p)
  {
    hide RemovalStands, Rows, Attempts, Records, Removals, WritesOwnRow, Allowed, Updated;
    if step.OnAttempt? {
      hide AttemptNext;
      AttemptWrites(s, step.t, step.move, s');
      AttemptRemovesNone(s, step.t, step.move, s');
      FencedFailedStands(s, step.t, step.move, s', p);
    } else if step.OnRow? {
      RowStepStands(s, step.j, step.update, step.now, p);
    } else {
      hide Next;
      if IsDeletion(step) {
        DeletionStands(s, step, s', p);
      } else {
        OtherStepStands(s, step, s', p);
      }
    }
  }

  /** The removal of `p` is under way in every state from `i` to `m`. */
  ghost predicate Removing(run: seq<Sys>, p: ProjectId, i: nat, m: nat) {
    i <= m < |run| && forall n | i <= n <= m :: p in run[n].removals
  }

  /** The last training error that hit `j` in the steps from `i` on, before `m`. */
  function LastError(steps: seq<Step>, j: JobId, i: nat, m: nat): Option<string>
    requires i <= m <= |steps|
    decreases m - i
  {
    if i == m then None
    else if TrainsError(steps[m - 1], j) then Some(steps[m - 1].update.message)
    else LastError(steps, j, i, m - 1)
  }

  /** A failed row, but for the error of the training that hit it and the time. */
  predicate FailedAs(r: Row, r': Row, last: Option<string>) {
    r' == r.(error := if last.Some? then last else r.error, takeId := if last.Some? then None else r.takeId,
             updatedAt := r'.updatedAt)
  }

  lemma FailedStep(r: Row, r': Row, last: Option<string>, step: Step, j: JobId)
    requires r.status == Failed && FailedAs(r, r', last) && (TrainsError(step, j) ==> r.kind == TrainLora)
    ensures FailedAs(r, AfterStep(r', step, j), if TrainsError(step, j) then Some(step.update.message) else last)
    ensures !TrainsError(step, j) ==> AfterStep(r', step, j) == r'
  {
  }

  lemma OnlyTrainingFails(s: Sys, step: Step, s': Sys, j: JobId)
    requires Next(s, step, s') && TrainsError(step, j)
    ensures j in s.jobs && s.jobs[j].kind == TrainLora
  {
  }

  /** The rows a deletion cancelled, while its removal is under way. */
  lemma {:induction false} RunRemovalStands(run: seq<Sys>, steps: seq<Step>, i: nat, m: nat, p: ProjectId, j: JobId)
    requires IsRun(run, steps) && Removing(run, p, i, m)
    requires j in run[i].removals[p].cancelled && j in run[i].jobs && run[i].jobs[j].status == Failed
    ensures run[m].removals[p].cancelled == run[i].removals[p].cancelled && j in run[m].jobs
    ensures FailedAs(run[i].jobs[j], run[m].jobs[j], LastError(steps, j, i, m))
    ensures LastError(steps, j, i, m).Some? ==> run[i].jobs[j].kind == TrainLora
    ensures LastError(steps, j, i, m).None? ==> run[m].jobs[j] == run[i].jobs[j]
    decreases m - i
  {
    hide Inv, Next, AfterStep, TrainsError;
    if i < m {
      RunRemovalStands(run, steps, i, m - 1, p, j);
      RunKeepsInv(run, steps, m - 1);
      StepRemovalStands(run[m - 1], steps[m - 1], run[m], p);
      if TrainsError(steps[m - 1], j) {
        OnlyTrainingFails(run[m - 1], steps[m - 1], run[m], j);
      }
      FailedStep(run[i].jobs[j], run[m - 1].jobs[j], LastError(steps, j, i, m - 1), steps[m - 1], j);
    }
  }

  /** A deletion that begins in step `i` and is aborted in step `m` gives back every queued job of the
      project as it was, whatever happened in between: attempts, request, snapshot and frozen record
      included. The one exception is a training job that a stale attempt failed meanwhile: it comes
      back if and only if the last such error reads like the deletion's own, and then without a take.
      Every row that was not queued stands. */
  lemma AbortRestores(run: seq<Sys>, steps: seq<Step>, i: nat, m: nat, p: ProjectId, begun: Time, aborted: Time, j: JobId)
    requires IsRun(run, steps) && i < m < |steps|
    requires steps[i] == BeginDeletion(p, begun) && steps[m] == AbortDeletion(p, aborted)
    requires Removing(run, p, i + 1, m)
    requires j in run[m].jobs
    ensures p !in run[m + 1].tombstones && j in run[m + 1].jobs
    ensures j in QueuedIn(run[i].jobs, p) ==>
      && var r, last := run[i].jobs[j], LastError(steps, j, i + 1, m);
      && (last.Some? ==> r.kind == TrainLora)
      && (run[m + 1].jobs[j].status == Queued <==> last.GetOr(PROJECT_DELETED) == PROJECT_DELETED)
      && (run[m + 1].jobs[j].status == Queued ==>
            run[m + 1].jobs[j] == r.(error := None, takeId := if last.Some? then None else r.takeId, updatedAt := aborted))
      && (run[m + 1].jobs[j].status != Queued ==>
            (run[m + 1].jobs[j] == run[m].jobs[j] && run[m].jobs[j].status == Failed && run[m].jobs[j].error == last))
    ensures j !in QueuedIn(run[i].jobs, p) ==> run[m + 1].jobs[j] == run[m].jobs[j]
  {
    hide Next, LastError, QueuedIn, FailedAs, DeletionCancelled, DeletionRestored;
    BeginCancels(run[i], p, begun, run[i + 1], j);
    AbortGivesBack(run[m], p, aborted, run[m + 1], j);
    RunRemovalKeepsList(run, steps, i + 1, m, p);
    if j in QueuedIn(run[i].jobs, p) {
      RunRemovalStands(run, steps, i + 1, m, p, j);
      RestoredAs(run[i].jobs[j], p, begun, run[m].jobs[j], LastError(steps, j, i + 1, m), aborted);
    }
  }

  lemma BeginCancels(s: Sys, p: ProjectId, now: Time, s': Sys, j: JobId)
    requires Next(s, BeginDeletion(p, now), s')
    ensures p in s'.removals && s'.removals[p].cancelled == QueuedIn(s.jobs, p)
    ensures j in QueuedIn(s.jobs, p) ==>
      && j in s.jobs && s.jobs[j].project == p && s.jobs[j].status == Queued
      && j in s'.jobs && s'.jobs[j] == DeletionCancelled(s.jobs[j], p, now) && s'.jobs[j].status == Failed
  {
  }

  lemma AbortGivesBack(s: Sys, p: ProjectId, now: Time, s': Sys, j: JobId)
    requires Next(s, AbortDeletion(p, now), s') && j in s.jobs
    ensures p in s.removals && p !in s'.tombstones && j in s'.jobs
    ensures s'.jobs[j] == if j in s.removals[p].cancelled then DeletionRestored(s.jobs[j], now) else s.jobs[j]
  {
  }

  lemma RestoredAs(r: Row, p: ProjectId, begun: Time, late: Row, last: Option<string>, aborted: Time)
    requires r.project == p && r.status == Queued
    requires FailedAs(DeletionCancelled(r, p, begun), late, last)
    requires last.Some? ==> DeletionCancelled(r, p, begun).kind == TrainLora
    ensures last.Some? ==> r.kind == TrainLora
    ensures DeletionRestored(late, aborted).status == Queued <==> last.GetOr(PROJECT_DELETED) == PROJECT_DELETED
    ensures DeletionRestored(late, aborted).status == Queued ==>
      DeletionRestored(late, aborted)
      == r.(error := None, takeId := if last.Some? then None else r.takeId, updatedAt := aborted)
    ensures DeletionRestored(late, aborted).status != Queued ==>
      DeletionRestored(late, aborted) == late && late.status == Failed && late.error == last
  {
  }

  lemma {:induction false} RunRemovalKeepsList(run: seq<Sys>, steps: seq<Step>, i: nat, m: nat, p: ProjectId)
    requires IsRun(run, steps) && Removing(run, p, i, m)
    ensures run[m].removals[p].cancelled == run[i].removals[p].cancelled
    decreases m - i
  {
    hide Inv, Next, AfterStep;
    if i < m {
      RunRemovalKeepsList(run, steps, i, m - 1, p);
      RunKeepsInv(run, steps, m - 1);
      StepRemovalStands(run[m - 1], steps[m - 1], run[m], p);
    }
  }

  // ---- the directory ----

  /** A removed project directory never reappears. */
  lemma RemovedForGood(run: seq<Sys>, steps: seq<Step>, i: nat, m: nat, p: ProjectId)
    requires IsRun(run, steps) && i < m < |run| && steps[i] == RemoveDirectory(p)
    ensures p !in run[m].projects
  {
    {
      assert Next(run[i], steps[i], run[i + 1]);
      hide Inv;
      RemovalKnowsProject(run, steps, i, p);
    }
    hide Next;
    RunIsLater(run, steps, i, i + 1);
    RunIsLater(run, steps, i + 1, m);
  }

  lemma BeginNeedsProject(s: Sys, step: Step, s': Sys, p: ProjectId)
    requires Next(s, step, s') && !step.OnAttempt? && p in s'.removals
    ensures p in s.removals || p in s.projects
  {
    if IsDeletion(step) {
      hide Next;
      DeletionNeedsProject(s, step, s', p);
    } else {
      hide Next;
      OtherSameRemovals(s, step, s');
    }
  }

  lemma DeletionNeedsProject(s: Sys, step: Step, s': Sys, p: ProjectId)
    requires Next(s, step, s') && IsDeletion(step) && p in s'.removals
    ensures p in s.removals || p in s.projects
  {
  }

  lemma OtherSameRemovals(s: Sys, step: Step, s': Sys)
    requires Next(s, step, s') && !step.OnAttempt? && !IsDeletion(step)
    ensures s'.removals == s.removals
  {
  }

  lemma RemovalNeedsProject(s: Sys, step: Step, s': Sys, p: ProjectId)
    requires Next(s, step, s') && p in s'.removals
    ensures p in s.removals || p in s.projects
  {
    if step.OnAttempt? {
      hide AttemptNext;
      AttemptRemovesNone(s, step.t, step.move, s');
    } else {
      hide Next;
      BeginNeedsProject(s, step, s', p);
    }
  }

  lemma {:induction false} RemovalKnowsProject(run: seq<Sys>, steps: seq<Step>, i: nat, p: ProjectId)
    requires IsRun(run, steps) && i < |run| && p in run[i].removals
    ensures p in run[i].created
  {
    hide Next;
    if i > 0 {
      RemovalNeedsProject(run[i - 1], steps[i - 1], run[i], p);
      if p in run[i - 1].removals {
        RemovalKnowsProject(run, steps, i - 1, p);
      } else {
        ProjectIsCreated(run, steps, i - 1, p);
      }
      RunIsLater(run, steps, i - 1, i);
    }
  }

  lemma ProjectIsCreated(run: seq<Sys>, steps: seq<Step>, i: nat, p: ProjectId)
    requires IsRun(run, steps) && i < |run| && p in run[i].projects
    ensures p in run[i].created
  {
    hide Next, Core, Dones, Frozens;
    RunKeepsInv(run, steps, i);
    CoreCreated(run[i]);
  }

  lemma CoreCreated(s: Sys)
    requires Core(s)
    ensures Created(s)
  {
  }
}
