/** Every step of the protocol keeps the invariant, so every reachable state has it. */
module JobSteps {
  import opened Common
  import opened CreationTypes
  import opened JobRows
  import opened JobProtocol
  import opened JobInvariant
  import opened JobKeeps
  import opened JobKeepsClaim
  import opened JobKeepsCommit
  import opened JobKeepsDeletion
  import opened JobKeepsAttempt

  // ---- one attempt ----

  lemma KeepPublish(s: Sys, t: Token, outcome: CommitOutcome, now: Time, s': Sys)
    requires Inv(s) && Publishing(s, t) && PublishStep(s, t, outcome, now, s')
    ensures Inv(s')
  {
    hide Inv;
    match outcome
    case Published => KeepPublished(s, t, now, s');
    case CrashedBefore => KeepCrashedBefore(s, t, now, s');
    case CrashedAfter => KeepCrashedAfter(s, t, now, s');
    case RaisedBefore => KeepRaisedBefore(s, t);
    case RaisedAfter => KeepRaisedAfter(s, t, now, s');
  }

  lemma KeepCommit(s: Sys, t: Token, outcome: CommitOutcome, now: Time, s': Sys)
    requires Inv(s) && CommitStep(s, t, outcome, now, s')
    ensures Inv(s')
  {
    hide Inv, PublishStep, RefuseStep, FinishEarlierStep, NoneFound;
    var a := s.attempts[t];
    if !MayCommit(s, t) {
      KeepRefuse(s, t, s');
    } else if !NoneFound(s, a.project, a.job) {
      KeepFinishEarlier(s, t, now, s');
    } else if a.take.value !in s.staging || s.staging[a.take.value].meta.None? {
      KeepRaisedBefore(s, t);
    } else {
      KeepPublish(s, t, outcome, now, s');
    }
  }

  lemma KeepEntry(s: Sys, t: Token, move: Move, s': Sys)
    requires Inv(s) && AttemptNext(s, t, move, s') && IsEntry(move)
    ensures Inv(s')
  {
    hide Inv;
    match move
    case FirstCheck => KeepCheck(s, t, AtFirstCheck, AtLookup, s');
    case Lookup(earlier) => KeepLookup(s, t, earlier, s');
    case EarlyFinish(now) => KeepEarlyFinish(s, t, now, s');
    case SecondCheck => KeepCheck(s, t, AtSecondCheck, AtAllocate, s');
    case Allocate(k) => KeepAllocate(s, t, k, s');
  }

  lemma KeepBackend(s: Sys, t: Token, move: Move, s': Sys)
    requires Inv(s) && AttemptNext(s, t, move, s') && IsBackend(move)
    ensures Inv(s')
  {
    hide Inv;
    match move
    case Resolve(record, now) => KeepResolve(s, t, record, now, s');
    case RecordHandle(handle, now) => KeepRecordHandle(s, t, handle, now, s');
    case RenderLocal => KeepRender(s, t, s');
    case RemoteReturns => KeepRemoteReturns(s, t);
    case WorkerCancelled => KeepWorkerCancelled(s, t, s');
  }

  lemma KeepPublication(s: Sys, t: Token, move: Move, s': Sys)
    requires Inv(s) && AttemptNext(s, t, move, s') && IsPublication(move)
    ensures Inv(s')
  {
    hide Inv;
    match move
    case ThirdCheck => KeepThirdCheck(s, t, s');
    case WriteMeta => KeepWriteMeta(s, t, s');
    case Commit(outcome, now) => KeepCommit(s, t, outcome, now, s');
    case Activate(raises) => KeepActivate(s, t, raises, s');
  }

  lemma KeepEnding(s: Sys, t: Token, move: Move, s': Sys)
    requires Inv(s) && AttemptNext(s, t, move, s')
    requires !IsEntry(move) && !IsBackend(move) && !IsPublication(move)
    ensures Inv(s')
  {
    hide Inv;
    match move
    case Raise => KeepRaise(s, t, s');
    case MarkCancelled(now) => KeepCancelled(s, t, now, s');
    case HandleFailure => KeepHandleFailure(s, t, s');
    case WriteErrorTake(text, written) => KeepWriteErrorTake(s, t, text, written, s');
    case WriteErrorRow(text, where, now) => KeepErrorRow(s, t, text, where, now, s');
    case Crash => KeepEnd(s, t);
  }

  lemma KeepOnAttempt(s: Sys, t: Token, move: Move, s': Sys)
    requires Inv(s) && AttemptNext(s, t, move, s')
    ensures Inv(s')
  {
    hide Inv;
    if IsEntry(move) {
      KeepEntry(s, t, move, s');
    } else if IsBackend(move) {
      KeepBackend(s, t, move, s');
    } else if IsPublication(move) {
      KeepPublication(s, t, move, s');
    } else {
      KeepEnding(s, t, move, s');
    }
  }

  // ---- any step ----

  lemma KeepDeletion(s: Sys, step: Step, s': Sys)
    requires Inv(s) && Next(s, step, s') && IsDeletion(step)
    ensures Inv(s')
  {
    hide Inv, BeginDeletionStep, RemovalFailsStep, AbortDeletionStep;
    match step
    case BeginDeletion(p, now) => KeepBegin(s, p, now, s');
    case RemoveDirectory(p) => KeepRemoveDirectory(s, p);
    case RemovalFails(p, kept) => KeepRemovalFails(s, p, kept, s');
    case AbortDeletion(p, now) => KeepAbort(s, p, now, s');
    case RemovalCrashes(p) => KeepClosing(s, p);
    case DropProject(p) => KeepWithoutProject(s, p);
  }

  lemma KeepClient(s: Sys, step: Step, s': Sys)
    requires Inv(s) && Next(s, step, s') && IsClient(step)
    ensures Inv(s')
  {
    hide Inv, RetryEnqueueStep, RetryCopyStep;
    match step
    case CreateProject(p) => KeepCreate(s, p);
    case Enqueue(j, row) => KeepInsert(s, j, row);
    case LegacyRow(j, row) => KeepInsert(s, j, row);
    case ReadOriginal(o) => KeepReadOriginal(s, o);
    case RetryEnqueue(j, row, o) => KeepRetryEnqueue(s, j, row, o, s');
    case RetryCopy(j) => KeepRetryCopy(s, j, s');
    case SetActive(p, k) => KeepActive(s, p, Some(k));
  }

  lemma KeepNext(s: Sys, step: Step, s': Sys)
    requires Inv(s) && Next(s, step, s')
    ensures Inv(s')
  {
    hide Inv;
    if IsDeletion(step) {
      KeepDeletion(s, step, s');
    } else if IsClient(step) {
      KeepClient(s, step, s');
    } else {
      match step
      case OnRow(j, u, now) => KeepOnRow(s, j, u, now);
      case OnAttempt(t, move) => KeepOnAttempt(s, t, move, s');
      case Claim(j, t, now) => KeepClaim(s, j, t, now, s');
      case Doom(k) => KeepDoom(s, k);
      case DiscardDoomed(k) => KeepDiscardDoomed(s, k);
    }
  }

  /** The invariant holds in every state of every run. */
  lemma {:induction false} RunKeepsInv(run: seq<Sys>, steps: seq<Step>, i: nat)
    requires IsRun(run, steps) && i < |run|
    ensures Inv(run[i])
  {
    hide Inv;
    if i == 0 {
      InitialOk();
    } else {
      RunKeepsInv(run, steps, i - 1);
      KeepNext(run[i - 1], steps[i - 1], run[i]);
    }
  }
}
