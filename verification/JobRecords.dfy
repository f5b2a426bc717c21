/** The frozen record of a job, and what an explicit retry inherits. */
module JobRecords {
  import opened Common
  import opened CreationTypes
  import opened JobRows
  import opened JobProtocol
  import opened JobInvariant
  import opened JobMoves
  import opened JobSteps
  import opened JobHistory

  // ---- what a step does to a record ----

  /** The snapshot stands, and so does a frozen record. */
  predicate RecordStands(r: Row, r': Row) {
    r'.snapshot == r.snapshot && (r.resolved.Some? ==> r'.resolved == r.resolved)
  }

  /** A row whose job no attempt has ever run is not written by attempts. */
  ghost predicate RecordsStand(s: Sys, s': Sys) {
    forall j | j in s.jobs ::
      && j in s'.jobs && RecordStands(s.jobs[j], s'.jobs[j])
      && (j !in s.latest ==> s'.jobs[j].resolved == s.jobs[j].resolved)
  }

  lemma UpdateStands(r: Row, u: RowUpdate, now: Time)
    ensures var r' := Updated(r, u, now); r'.snapshot == r.snapshot && r'.resolved == r.resolved
  {
  }

  lemma FencedStands(s: Sys, t: Token, s': Sys)
    requires Rows(s) && WritesOwnRow(s, t, s')
    ensures RecordsStand(s, s')
  {
    assert RowOk(s.attempts[t].job, RowOf(s, t), s.issued, s.latest);
  }

  lemma ClientStands(s: Sys, step: Step, s': Sys)
    requires Next(s, step, s') && IsClient(step) && !step.RetryCopy?
    ensures RecordsStand(s, s')
  {
  }

  lemma OtherStands(s: Sys, step: Step, s': Sys)
    requires Next(s, step, s') && !step.OnAttempt? && !step.OnRow? && !IsClient(step)
    ensures RecordsStand(s, s')
  {
  }

  lemma StepStands(s: Sys, step: Step, s': Sys)
    requires Inv(s) && Next(s, step, s') && !step.RetryCopy?
    ensures RecordsStand(s, s')
  {
    hide Rows, Attempts, Records, RecordsStand, WritesOwnRow;
    if step.OnAttempt? {
      hide AttemptNext;
      AttemptWrites(s, step.t, step.move, s');
      FencedStands(s, step.t, s');
    } else if step.OnRow? {
      OnRowStands(s, step.j, step.update, step.now);
    } else {
      hide Next;
      if IsClient(step) {
        ClientStands(s, step, s');
      } else {
        OtherStands(s, step, s');
      }
    }
  }

  lemma OnRowStands(s: Sys, j: JobId, u: RowUpdate, now: Time)
    requires j in s.jobs
    ensures RecordsStand(s, SetRow(s, j, Updated(s.jobs[j], u, now)))
  {
    UpdateStands(s.jobs[j], u, now);
  }

  /** A frozen record changes in a step if and only if the step is the second transaction of a
      retry, its row is still queued, and what it copies differs. */
  lemma RecordChangesOnlyByLateCopy(s: Sys, step: Step, s': Sys, j: JobId)
    requires Inv(s) && Next(s, step, s') && j in s.jobs && s.jobs[j].resolved.Some?
    ensures j in s'.jobs
    ensures s'.jobs[j].resolved != s.jobs[j].resolved <==>
      (step == RetryCopy(j) && s.jobs[j].status == Queued && s.inherited[j].resolved != s.jobs[j].resolved)
  {
    hide Inv;
    if !step.RetryCopy? {
      StepStands(s, step, s');
    }
  }

  // ---- what a retry inherits ----

  /** Once its copy has landed, a retry has its original's snapshot and frozen record. */
  predicate Inherits(r: Row, o: Original) {
    && r.retryOf == Some(o.job)
    && (o.snapshot.Some? ==> r.snapshot == o.snapshot)
    && (o.resolved.Some? ==> r.resolved == o.resolved)
  }

  ghost predicate InheritOk(s: Sys) {
    forall j | j in s.inherited ::
      && j in s.jobs && s.inherited[j] in s.originals
      && s.jobs[j].retryOf == Some(s.inherited[j].job)
      && (j !in s.copying && j !in s.missed ==> Inherits(s.jobs[j], s.inherited[j]))
  }

  /** A retry still to be copied, and not claimed meanwhile, has no record of its own. */
  ghost predicate PendingOk(s: Sys) {
    forall j | j in s.copying ::
      j in s.jobs && (j !in s.raced ==> s.jobs[j].resolved.None?)
  }

  /** What was read from a settled original still holds of it; and an original that is itself a
      settled retry passed on the record it inherited. */
  ghost predicate OriginalsOk(s: Sys) {
    forall o | o in s.originals ::
      && o.job in s.jobs
      && (o.settled ==>
           && o.job !in s.copying && s.jobs[o.job].snapshot == o.snapshot
           && (o.resolved.Some? ==> s.jobs[o.job].resolved == o.resolved)
           && (o.job in s.inherited && o.job !in s.missed && s.inherited[o.job].resolved.Some? ==>
                 o.resolved == s.inherited[o.job].resolved))
  }

  ghost predicate Retried(s: Sys) {
    InheritOk(s) && PendingOk(s) && OriginalsOk(s)
  }

  /** The steps that leave the bookkeeping of retries alone. */
  ghost predicate SameRetries(s: Sys, s': Sys) {
    && s'.copying == s.copying && s'.inherited == s.inherited && s'.originals == s.originals
    && s'.missed == s.missed && s.raced <= s'.raced
  }

  predicate IsRetry(step: Step) {
    step.ReadOriginal? || step.RetryEnqueue? || step.RetryCopy?
  }

  lemma LocalSameRetries(s: Sys, s': Sys)
    requires Local(s, s')
    ensures SameRetries(s, s')
  {
  }

  lemma PublishSameRetries(s: Sys, t: Token, outcome: CommitOutcome, now: Time, s': Sys)
    requires PublishStep(s, t, outcome, now, s')
    ensures SameRetries(s, s')
  {
  }

  lemma CommitSameRetries(s: Sys, t: Token, outcome: CommitOutcome, now: Time, s': Sys)
    requires CommitStep(s, t, outcome, now, s')
    ensures SameRetries(s, s')
  {
    hide CommitStep, PublishStep, Local;
    CommitIsLocalOrPublishes(s, t, outcome, now, s');
    if PublishStep(s, t, outcome, now, s') {
      PublishSameRetries(s, t, outcome, now, s');
    } else {
      LocalSameRetries(s, s');
    }
  }

  lemma ActivateSameRetries(s: Sys, t: Token, raises: bool, s': Sys)
    requires ActivateStep(s, t, raises, s')
    ensures SameRetries(s, s')
  {
  }

  lemma ErrorTakeSameRetries(s: Sys, t: Token, text: string, written: bool, s': Sys)
    requires WriteErrorTakeStep(s, t, text, written, s')
    ensures SameRetries(s, s')
  {
  }

  lemma AllocateSameRetries(s: Sys, t: Token, k: TakeId, s': Sys)
    requires AllocateStep(s, t, k, s')
    ensures SameRetries(s, s')
  {
  }

  lemma AttemptSameRetries(s: Sys, t: Token, move: Move, s': Sys)
    requires AttemptNext(s, t, move, s')
    ensures SameRetries(s, s')
  {
    hide SameRetries, Local;
    if IsLocal(move) {
      hide AttemptNext;
      LocalMoves(s, t, move, s');
      LocalSameRetries(s, s');
    } else if move.RenderLocal? {
      RenderSameRetries(s, t, s');
    } else {
      hide CommitStep, AllocateStep, ActivateStep, WriteErrorTakeStep;
      match move
      case Commit(outcome, now) => CommitSameRetries(s, t, outcome, now, s');
      case Allocate(k) => AllocateSameRetries(s, t, k, s');
      case Activate(raises) => ActivateSameRetries(s, t, raises, s');
      case WriteErrorTake(text, written) => ErrorTakeSameRetries(s, t, text, written, s');
    }
  }

  lemma RenderSameRetries(s: Sys, t: Token, s': Sys)
    requires RenderLocalStep(s, t, s')
    ensures SameRetries(s, s')
  {
  }

  lemma OtherSameRetries(s: Sys, step: Step, s': Sys)
    requires Next(s, step, s') && !step.OnAttempt? && !IsRetry(step)
    ensures SameRetries(s, s')
  {
  }

  lemma FrameKeepsRetried(s: Sys, s': Sys)
    requires Retried(s) && Retries(s) && SameRetries(s, s') && RecordsStand(s, s')
    requires RowsLater(s.jobs, s'.jobs, s.issued)
    ensures Retried(s')
  {
    forall j | j in s'.inherited
      ensures s'.jobs[j].retryOf == Some(s'.inherited[j].job)
    {
      assert RowLater(s.jobs[j], s'.jobs[j], s.issued);
    }
  }

  lemma ReadKeepsRetried(s: Sys, o: Original, s': Sys)
    requires Retried(s) && Next(s, ReadOriginal(o), s')
    ensures Retried(s')
  {
  }

  lemma EnqueueKeepsRetried(s: Sys, j: JobId, row: Row, o: Original, s': Sys)
    requires Retried(s) && RetryEnqueueStep(s, j, row, o, s')
    ensures Retried(s')
  {
  }

  lemma CopyKeepsRetried(s: Sys, j: JobId, s': Sys)
    requires Retried(s) && RetryCopyStep(s, j, s')
    ensures Retried(s')
  {
  }

  lemma StepKeepsRetried(s: Sys, step: Step, s': Sys)
    requires Inv(s) && Retried(s) && Next(s, step, s')
    ensures Retried(s')
  {
    assert Retries(s);
    hide Inv, Retried, Retries, Next;
    if IsRetry(step) {
      RetryKeepsRetried(s, step, s');
    } else {
      hide SameRetries, RecordsStand, RowsLater, HistoryLater;
      StepSameRetries(s, step, s');
      StepStands(s, step, s');
      StepIsLater(s, step, s');
      FrameKeepsRetried(s, s');
    }
  }

  lemma RetryKeepsRetried(s: Sys, step: Step, s': Sys)
    requires Retried(s) && Next(s, step, s') && IsRetry(step)
    ensures Retried(s')
  {
    hide Retried, RetryEnqueueStep, RetryCopyStep;
    match step
    case ReadOriginal(o) => ReadKeepsRetried(s, o, s');
    case RetryEnqueue(j, row, o) => EnqueueKeepsRetried(s, j, row, o, s');
    case RetryCopy(j) => CopyKeepsRetried(s, j, s');
  }

  lemma StepSameRetries(s: Sys, step: Step, s': Sys)
    requires Next(s, step, s') && !IsRetry(step)
    ensures SameRetries(s, s')
  {
    hide SameRetries;
    if step.OnAttempt? {
      hide AttemptNext;
      AttemptSameRetries(s, step.t, step.move, s');
    } else {
      hide Next;
      OtherSameRetries(s, step, s');
    }
  }

  lemma {:induction false} RunKeepsRetried(run: seq<Sys>, steps: seq<Step>, i: nat)
    requires IsRun(run, steps) && i < |run|
    ensures Retried(run[i])
  {
    hide Inv, Next;
    if i > 0 {
      RunKeepsRetried(run, steps, i - 1);
      RunKeepsInv(run, steps, i - 1);
      hide Retried;
      StepKeepsRetried(run[i - 1], steps[i - 1], run[i]);
    }
  }
}
