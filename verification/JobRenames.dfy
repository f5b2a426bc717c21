/** What becomes of a take once it is renamed into its project: who can touch it, and the one way it
    is lost. */
module JobRenames {
  import opened Common
  import opened CreationTypes
  import opened JobRows
  import opened JobProtocol
  import opened JobInvariant
  import opened JobMoves
  import opened JobSteps
  import opened JobHistory
  import opened JobTakes
  import opened JobTheorems

  // ---- an attempt behind its rename ----

  /** Where attempt `t` of job `j` can stand once it has renamed take `k` into project `p`, and
      what it then holds; `written` says that its error take has replaced the take. */
  predicate Behind(a: Attempt, j: JobId, p: ProjectId, k: TakeId, written: bool) {
    && a.job == j && a.project == p
    && match a.pc
       case AtActivate | AtFailure | AtCancel | AtErrorTake => !written && a.take == Some(k)
       case AtErrorRow => a.take == if written then Some(k) else None
       case _ => false
  }

  /** Nobody else has the take's id, now or later. */
  ghost predicate SoleHolder(s: Sys, t: Token, k: TakeId) {
    && k in s.takeIds && t in s.issued
    && forall t' | t' in s.attempts && s.attempts[t'].take == Some(k) :: t' == t
  }

  /** The take is in its project, good until it is overwritten; unless the project, or files of it,
      are gone. */
  predicate TakeIs(s: Sys, j: JobId, p: ProjectId, k: TakeId, written: bool) {
    && p in s.created
    && (p in s.projects && p !in s.damaged ==>
          && k in s.projects[p].takes && s.projects[p].takes[k].job == Some(j)
          && (s.projects[p].takes[k].error.None? <==> !written))
  }

  ghost predicate Renamed(s: Sys, t: Token, j: JobId, p: ProjectId, k: TakeId, written: bool) {
    && SoleHolder(s, t, k) && TakeIs(s, j, p, k, written)
    && (t in s.attempts ==> Behind(s.attempts[t], j, p, k, written))
  }

  predicate WritesErrorTake(step: Step, t: Token) {
    step.OnAttempt? && step.t == t && step.move.WriteErrorTake? && step.move.written
  }

  // What other attempts do.

  /** Project `p`'s take `k` is as it was, if the project still is. */
  predicate TakeStands(s: Sys, s': Sys, p: ProjectId, k: TakeId) {
    && s.created <= s'.created
    && (p in s'.projects && p !in s'.damaged ==>
          && p in s.projects && p !in s.damaged
          && (k in s'.projects[p].takes <==> k in s.projects[p].takes)
          && (k in s.projects[p].takes ==> s'.projects[p].takes[k] == s.projects[p].takes[k]))
  }

  predicate TakeMoves(take: Option<TakeId>, take': Option<TakeId>, takeIds: set<TakeId>) {
    take' == take || take'.None? || take'.value !in takeIds
  }

  /** Only `t` moves, for the job it has and only to a fresh take id. */
  ghost predicate HoldersStand(s: Sys, s': Sys, t: Token) {
    && s.takeIds <= s'.takeIds && s'.issued == s.issued
    && (forall t' | t' in s'.attempts && t' != t :: t' in s.attempts && s'.attempts[t'] == s.attempts[t'])
    && (t in s'.attempts ==>
          && t in s.attempts && s'.attempts[t].job == s.attempts[t].job
          && TakeMoves(s.attempts[t].take, s'.attempts[t].take, s.takeIds))
  }

  lemma EntryHolds(s: Sys, t: Token, move: Move, s': Sys)
    requires AttemptNext(s, t, move, s') && IsEntry(move)
    ensures HoldersStand(s, s', t)
  {
  }

  lemma FrozenHolds(s: Sys, t: Token, record: Record, now: Time, s': Sys)
    requires ResolveStep(s, t, record, now, s') && s.attempts[t].resolved.Some?
    ensures HoldersStand(s, s', t)
  {
  }

  lemma ResolveHolds(s: Sys, t: Token, record: Record, now: Time, s': Sys)
    requires ResolveStep(s, t, record, now, s') && s.attempts[t].resolved.None? && Owns(RowOf(s, t), t)
    ensures HoldersStand(s, s', t)
  {
    hide Owns, Frozen;
  }

  lemma FencedHolds(s: Sys, t: Token)
    requires t in s.attempts
    ensures HoldersStand(s, Fenced(s, t), t)
  {
  }

  lemma HandleHolds(s: Sys, t: Token, handle: Handle, now: Time, s': Sys)
    requires RecordHandleStep(s, t, handle, now, s') && Owns(RowOf(s, t), t)
    ensures HoldersStand(s, s', t)
  {
    hide Owns, WithHandle;
  }

  lemma HandleAnyHolds(s: Sys, t: Token, handle: Handle, now: Time, s': Sys)
    requires RecordHandleStep(s, t, handle, now, s')
    ensures HoldersStand(s, s', t)
  {
    hide HoldersStand, Owns, WithHandle, Fenced;
    if Owns(RowOf(s, t), t) {
      HandleHolds(s, t, handle, now, s');
    } else {
      FencedHolds(s, t);
    }
  }

  lemma WorkHolds(s: Sys, t: Token, move: Move, s': Sys)
    requires AttemptNext(s, t, move, s') && (move.RenderLocal? || move.RemoteReturns? || move.WorkerCancelled?)
    ensures HoldersStand(s, s', t)
  {
  }

  lemma BackendHolds(s: Sys, t: Token, move: Move, s': Sys)
    requires AttemptNext(s, t, move, s') && IsBackend(move)
    ensures HoldersStand(s, s', t)
  {
    hide HoldersStand;
    if move.Resolve? {
      hide ResolveStep;
      ResolveAnyHolds(s, t, move.record, move.now, s');
    } else if move.RecordHandle? {
      hide RecordHandleStep;
      HandleAnyHolds(s, t, move.handle, move.now, s');
    } else {
      hide AttemptNext;
      WorkHolds(s, t, move, s');
    }
  }

  lemma ResolveAnyHolds(s: Sys, t: Token, record: Record, now: Time, s': Sys)
    requires ResolveStep(s, t, record, now, s')
    ensures HoldersStand(s, s', t)
  {
    hide HoldersStand, Owns, Frozen, Fenced;
    if s.attempts[t].resolved.Some? {
      FrozenHolds(s, t, record, now, s');
    } else if Owns(RowOf(s, t), t) {
      ResolveHolds(s, t, record, now, s');
    } else {
      FencedHolds(s, t);
    }
  }

  lemma MovingHolds(s: Sys, t: Token, pc: Pc)
    requires t in s.attempts
    ensures HoldersStand(s, AtPc(s, t, pc), t)
  {
  }

  lemma DiscardingHolds(s: Sys, t: Token, pc: Pc)
    requires t in s.attempts
    ensures HoldersStand(s, AtPc(Discard(s, s.attempts[t].take), t, pc), t)
    ensures HoldersStand(s, AtPc(s, t, pc), t)
  {
    MovingHolds(s, t, pc);
    MovingHolds(Discard(s, s.attempts[t].take), t, pc);
  }

  lemma ThirdCheckHolds(s: Sys, t: Token, s': Sys)
    requires ThirdCheckStep(s, t, s')
    ensures HoldersStand(s, s', t)
  {
    hide HoldersStand, AtPc, Discard;
    DiscardingHolds(s, t, AtCancel);
    DiscardingHolds(s, t, AtMeta);
  }

  lemma WriteMetaHolds(s: Sys, t: Token, s': Sys)
    requires WriteMetaStep(s, t, s')
    ensures HoldersStand(s, s', t)
  {
  }

  lemma ActivateHolds(s: Sys, t: Token, raises: bool, s': Sys)
    requires ActivateStep(s, t, raises, s')
    ensures HoldersStand(s, s', t)
  {
  }

  lemma CheckHolds(s: Sys, t: Token, move: Move, s': Sys)
    requires AttemptNext(s, t, move, s') && (move.ThirdCheck? || move.WriteMeta? || move.Activate?)
    ensures HoldersStand(s, s', t)
  {
    hide HoldersStand, ThirdCheckStep, WriteMetaStep, ActivateStep;
    match move
    case ThirdCheck => ThirdCheckHolds(s, t, s');
    case WriteMeta => WriteMetaHolds(s, t, s');
    case Activate(raises) => ActivateHolds(s, t, raises, s');
    case _ => assert false;
  }

  lemma PublishHolds(s: Sys, t: Token, outcome: CommitOutcome, now: Time, s': Sys)
    requires PublishStep(s, t, outcome, now, s')
    ensures HoldersStand(s, s', t)
  {
  }

  lemma DroppingHolds(s: Sys, t: Token, pc: Pc)
    requires t in s.attempts
    ensures var a := s.attempts[t];
      HoldersStand(s, SetAttempt(Discard(s, a.take), t, a.(pc := pc, take := None)), t)
  {
    hide Discard;
    DiscardKeepsAttempts(s, s.attempts[t].take);
  }

  lemma DiscardKeepsAttempts(s: Sys, take: Option<TakeId>)
    ensures SameAttempts(s, Discard(s, take))
  {
  }

  lemma RefuseHolds(s: Sys, t: Token, s': Sys)
    requires RefuseStep(s, t, s')
    ensures HoldersStand(s, s', t)
  {
    hide HoldersStand, SetAttempt, Discard, Fenced, Owns;
    FencedHolds(s, t);
    DroppingHolds(s, t, AtCancel);
    DroppingHolds(s, t, AtErrorRow);
  }

  lemma EarlierHolds(s: Sys, t: Token, now: Time, s': Sys)
    requires FinishEarlierStep(s, t, now, s')
    ensures HoldersStand(s, s', t)
  {
  }

  lemma CommitHolds(s: Sys, t: Token, outcome: CommitOutcome, now: Time, s': Sys)
    requires CommitStep(s, t, outcome, now, s')
    ensures HoldersStand(s, s', t)
  {
    hide PublishStep, RefuseStep, FinishEarlierStep, NoneFound, MayCommit;
    if !MayCommit(s, t) {
      RefuseHolds(s, t, s');
    } else if !NoneFound(s, s.attempts[t].project, s.attempts[t].job) {
      EarlierHolds(s, t, now, s');
    } else if s.attempts[t].take.value in s.staging && s.staging[s.attempts[t].take.value].meta.Some? {
      PublishHolds(s, t, outcome, now, s');
    }
  }

  lemma HandlerHolds(s: Sys, t: Token, move: Move, s': Sys)
    requires AttemptNext(s, t, move, s') && (move.Raise? || move.HandleFailure?)
    ensures HoldersStand(s, s', t)
  {
    hide HoldersStand, AtPc, Discard;
    DiscardingHolds(s, t, AtCancel);
    DiscardingHolds(s, t, AtFailure);
    DiscardingHolds(s, t, AtErrorTake);
    DiscardingHolds(s, t, AtErrorRow);
  }

  lemma ErrorTakeHolds(s: Sys, t: Token, text: string, written: bool, s': Sys)
    requires WriteErrorTakeStep(s, t, text, written, s')
    ensures HoldersStand(s, s', t)
  {
  }

  lemma ErrorTakeAnyHolds(s: Sys, t: Token, move: Move, s': Sys)
    requires AttemptNext(s, t, move, s') && move.WriteErrorTake?
    ensures HoldersStand(s, s', t)
  {
    hide HoldersStand;
    ErrorTakeHolds(s, t, move.text, move.written, s');
  }

  lemma EndHolds(s: Sys, t: Token, move: Move, s': Sys)
    requires AttemptNext(s, t, move, s') && (move.MarkCancelled? || move.WriteErrorRow? || move.Crash?)
    ensures HoldersStand(s, s', t)
  {
  }

  lemma AttemptHolds(s: Sys, t: Token, move: Move, s': Sys)
    requires AttemptNext(s, t, move, s')
    ensures HoldersStand(s, s', t)
  {
    hide HoldersStand;
    if move.Commit? {
      hide CommitStep;
      CommitHolds(s, t, move.outcome, move.now, s');
    } else {
      hide AttemptNext;
      if IsEntry(move) {
        EntryHolds(s, t, move, s');
      } else if IsBackend(move) {
        BackendHolds(s, t, move, s');
      } else if IsPublication(move) {
        CheckHolds(s, t, move, s');
      } else {
        hide HoldersStand;
        if move.MarkCancelled? || move.WriteErrorRow? || move.Crash? {
          EndHolds(s, t, move, s');
        } else if move.WriteErrorTake? {
          ErrorTakeAnyHolds(s, t, move, s');
        } else {
          HandlerHolds(s, t, move, s');
        }
      }
    }
  }

  /** Attempts come only from claims, under new tokens and without a take. */
  ghost predicate OnlyNewAttempts(s: Sys, s': Sys) {
    && s'.takeIds == s.takeIds && s.issued.Keys <= s'.issued.Keys
    && (forall t | t in s'.attempts && t in s.issued :: t in s.attempts && s'.attempts[t] == s.attempts[t])
    && (forall t | t in s'.attempts && t !in s.issued :: s'.attempts[t].take.None?)
  }

  predicate SameAttempts(s: Sys, s': Sys) {
    s'.takeIds == s.takeIds && s'.issued == s.issued && s'.attempts == s.attempts
  }

  lemma OtherSameAttempts(s: Sys, step: Step, s': Sys)
    requires Next(s, step, s') && !step.OnAttempt? && !step.Claim?
    ensures SameAttempts(s, s')
  {
  }

  lemma ClaimAttempts(s: Sys, j: JobId, t: Token, now: Time, s': Sys)
    requires Attempts(s) && ClaimStep(s, j, t, now, s')
    ensures OnlyNewAttempts(s, s')
  {
  }

  lemma SameAreOnlyNew(s: Sys, s': Sys)
    requires Attempts(s) && SameAttempts(s, s')
    ensures OnlyNewAttempts(s, s')
  {
  }

  lemma OtherHolds(s: Sys, step: Step, s': Sys)
    requires Attempts(s) && Next(s, step, s') && !step.OnAttempt?
    ensures OnlyNewAttempts(s, s')
  {
    hide OnlyNewAttempts, SameAttempts, Attempts;
    if step.Claim? {
      ClaimAttempts(s, step.j, step.t, step.now, s');
    } else {
      hide Next;
      OtherSameAttempts(s, step, s');
      SameAreOnlyNew(s, s');
    }
  }

  // What any step leaves of the take.

  lemma LocalTakeStands(s: Sys, s': Sys, p: ProjectId, k: TakeId)
    requires s'.projects == s.projects && s'.damaged == s.damaged && s'.created == s.created
    ensures TakeStands(s, s', p, k)
  {
  }

  lemma PublishTakeStands(s: Sys, t: Token, outcome: CommitOutcome, now: Time, s': Sys, p: ProjectId, k: TakeId)
    requires PublishStep(s, t, outcome, now, s') && s.attempts[t].take != Some(k)
    ensures TakeStands(s, s', p, k)
  {
  }

  lemma ActivateTakeStands(s: Sys, t: Token, raises: bool, s': Sys, p: ProjectId, k: TakeId)
    requires ActivateStep(s, t, raises, s')
    ensures TakeStands(s, s', p, k)
  {
  }

  lemma ErrorTakeStands(s: Sys, t: Token, text: string, written: bool, s': Sys, p: ProjectId, k: TakeId)
    requires WriteErrorTakeStep(s, t, text, written, s') && (s.attempts[t].take != Some(k) || !written)
    ensures TakeStands(s, s', p, k)
  {
  }

  /** An attempt that does not hold the take leaves it alone; so does its holder, but for the
      rename and the error take. */
  lemma AttemptTakeStands(s: Sys, t: Token, move: Move, s': Sys, p: ProjectId, k: TakeId)
    requires AttemptNext(s, t, move, s') && t in s.attempts
    requires s.attempts[t].take != Some(k) || (!move.Commit? && !(move.WriteErrorTake? && move.written))
    ensures TakeStands(s, s', p, k)
  {
    hide TakeStands, Local;
    if IsLocal(move) {
      hide AttemptNext;
      LocalMoves(s, t, move, s');
      LocalStands(s, s', p, k);
    } else {
      hide CommitStep, ActivateStep, WriteErrorTakeStep;
      match move
      case Commit(outcome, now) => CommitTakeStands(s, t, outcome, now, s', p, k);
      case Activate(raises) => ActivateTakeStands(s, t, raises, s', p, k);
      case WriteErrorTake(text, written) => ErrorTakeStands(s, t, text, written, s', p, k);
      case Allocate(_) => LocalTakeStands(s, s', p, k);
      case RenderLocal => LocalTakeStands(s, s', p, k);
    }
  }

  lemma LocalStands(s: Sys, s': Sys, p: ProjectId, k: TakeId)
    requires Local(s, s')
    ensures TakeStands(s, s', p, k)
  {
  }

  lemma CommitTakeStands(s: Sys, t: Token, outcome: CommitOutcome, now: Time, s': Sys, p: ProjectId, k: TakeId)
    requires CommitStep(s, t, outcome, now, s') && s.attempts[t].take != Some(k)
    ensures TakeStands(s, s', p, k)
  {
    hide CommitStep, PublishStep, Local, TakeStands, MayCommit, NoneFound;
    CommitIsLocalOrPublishes(s, t, outcome, now, s');
    if Local(s, s') {
      LocalStands(s, s', p, k);
    } else {
      PublishTakeStands(s, t, outcome, now, s', p, k);
    }
  }

  lemma ClientTakeStands(s: Sys, step: Step, s': Sys, p: ProjectId, k: TakeId)
    requires Next(s, step, s') && IsClient(step) && p in s.created
    ensures TakeStands(s, s', p, k)
  {
  }

  lemma DeletionTakeStands(s: Sys, step: Step, s': Sys, p: ProjectId, k: TakeId)
    requires Next(s, step, s') && IsDeletion(step)
    ensures TakeStands(s, s', p, k)
  {
  }

  lemma WorkerTakeStands(s: Sys, step: Step, s': Sys, p: ProjectId, k: TakeId)
    requires Next(s, step, s') && !step.OnAttempt? && !IsClient(step) && !IsDeletion(step)
    ensures TakeStands(s, s', p, k)
  {
  }

  lemma OtherTakeStands(s: Sys, step: Step, s': Sys, p: ProjectId, k: TakeId)
    requires Next(s, step, s') && !step.OnAttempt? && p in s.created
    ensures TakeStands(s, s', p, k)
  {
    hide Next, TakeStands;
    if IsClient(step) {
      ClientTakeStands(s, step, s', p, k);
    } else if IsDeletion(step) {
      DeletionTakeStands(s, step, s', p, k);
    } else {
      WorkerTakeStands(s, step, s', p, k);
    }
  }

  // ---- the attempt itself ----

  /** The moves left to an attempt behind its rename. */
  predicate LeftToDo(move: Move) {
    move.Activate? || move.HandleFailure? || move.Raise? || move.MarkCancelled? || move.WriteErrorTake?
    || move.WriteErrorRow? || move.Crash?
  }

  predicate IsBehind(pc: Pc) {
    pc == AtActivate || pc == AtFailure || pc == AtCancel || pc == AtErrorTake || pc == AtErrorRow
  }

  lemma OnlyLeftToDo(s: Sys, t: Token, move: Move, s': Sys)
    requires AttemptNext(s, t, move, s') && t in s.attempts && IsBehind(s.attempts[t].pc)
    ensures LeftToDo(move)
  {
    hide NoneFound, Found, AtPc, SetAttempt, SetRow, EndAttempt, Discard, PutTake, Owns, Fenced;
  }

  /** Where the handler goes: to the cancel when the row is flagged, to the error take when not. */
  predicate Course(a: Attempt, flagged: bool) {
    if flagged then a.pc == AtFailure || a.pc == AtCancel else a.pc == AtErrorTake || a.pc == AtErrorRow
  }

  /** From `a` to `a'` by move `move` under a row whose flag is `flag`. */
  predicate Moved(a: Attempt, move: Move, flag: bool, a': Attempt) {
    && a'.job == a.job && a'.project == a.project
    && match move
       case Activate(_) => a.pc == AtActivate && a'.pc == AtFailure && a'.take == a.take
       case HandleFailure =>
         && a.pc == AtFailure && a'.take == a.take
         && a'.pc == if flag then AtCancel else if a.take.Some? then AtErrorTake else AtErrorRow
       case Raise => a.pc !in {AtActivate, AtFailure, AtErrorTake, AtErrorRow} && a'.pc == AtFailure && a'.take == a.take
       case WriteErrorTake(_, written) =>
         a.pc == AtErrorTake && a'.pc == AtErrorRow && a'.take == if written then a.take else None
       case _ => false
  }

  /** `Moved`, for an attempt that is still there. */
  predicate MovedOn(s: Sys, t: Token, move: Move, s': Sys) {
    && t in s.attempts && s.attempts[t].job in s.jobs
    && (t in s'.attempts ==> Moved(s.attempts[t], move, RowOf(s, t).cancelRequested, s'.attempts[t]))
    && (move.MarkCancelled? ==> s.attempts[t].pc == AtCancel)
    && (move.WriteErrorRow? ==> s.attempts[t].pc == AtErrorRow)
  }

  lemma ActivateMovesOn(s: Sys, t: Token, raises: bool, s': Sys)
    requires ActivateStep(s, t, raises, s')
    ensures MovedOn(s, t, Activate(raises), s')
  {
  }

  lemma FailureMovesOn(s: Sys, t: Token, s': Sys)
    requires HandleFailureStep(s, t, s')
    ensures MovedOn(s, t, HandleFailure, s')
  {
  }

  lemma RaiseMovesOn(s: Sys, t: Token, s': Sys)
    requires RaiseStep(s, t, s') && s.attempts[t].job in s.jobs
    ensures MovedOn(s, t, Raise, s')
  {
  }

  lemma ErrorTakeMovesOn(s: Sys, t: Token, text: string, written: bool, s': Sys)
    requires WriteErrorTakeStep(s, t, text, written, s')
    ensures MovedOn(s, t, WriteErrorTake(text, written), s')
  {
  }

  lemma EndMovesOn(s: Sys, t: Token, move: Move, s': Sys)
    requires AttemptNext(s, t, move, s') && (move.MarkCancelled? || move.WriteErrorRow? || move.Crash?)
    requires t in s.attempts && s.attempts[t].job in s.jobs
    ensures t !in s'.attempts && MovedOn(s, t, move, s')
  {
  }

  lemma HandlerMovesOn(s: Sys, t: Token, move: Move, s': Sys)
    requires Attempts(s) && AttemptNext(s, t, move, s') && t in s.attempts && LeftToDo(move)
    ensures MovedOn(s, t, move, s')
  {
    HasRow(s, t);
    hide MovedOn, Attempts, AttemptNext;
    if move.MarkCancelled? || move.WriteErrorRow? || move.Crash? {
      EndMovesOn(s, t, move, s');
    } else {
      StayMovesOn(s, t, move, s');
    }
  }

  lemma StayMovesOn(s: Sys, t: Token, move: Move, s': Sys)
    requires AttemptNext(s, t, move, s') && t in s.attempts && s.attempts[t].job in s.jobs
    requires move.Activate? || move.HandleFailure? || move.Raise? || move.WriteErrorTake?
    ensures MovedOn(s, t, move, s')
  {
    hide MovedOn, ActivateStep, HandleFailureStep, RaiseStep, WriteErrorTakeStep;
    match move
    case Activate(raises) => ActivateMovesOn(s, t, raises, s');
    case HandleFailure => FailureMovesOn(s, t, s');
    case Raise => RaiseMovesOn(s, t, s');
    case WriteErrorTake(text, written) => ErrorTakeMovesOn(s, t, text, written, s');
  }

  lemma OwnMoveStaysBehind(s: Sys, t: Token, move: Move, s': Sys, j: JobId, p: ProjectId, k: TakeId, written: bool)
    requires Attempts(s) && AttemptNext(s, t, move, s') && t in s.attempts
    requires Behind(s.attempts[t], j, p, k, written)
    ensures LeftToDo(move) && MovedOn(s, t, move, s')
    ensures t in s'.attempts ==>
      Behind(s'.attempts[t], j, p, k, written || (move.WriteErrorTake? && move.written))
  {
    hide Attempts, AttemptNext;
    OnlyLeftToDo(s, t, move, s');
    HandlerMovesOn(s, t, move, s');
  }

  // ---- over a run ----

  lemma SoleHolderStands(s: Sys, u: Token, s': Sys, t: Token, k: TakeId)
    requires SoleHolder(s, t, k) && HoldersStand(s, s', u)
    ensures SoleHolder(s', t, k)
  {
  }

  lemma SoleHolderStaysSo(s: Sys, s': Sys, t: Token, k: TakeId)
    requires SoleHolder(s, t, k) && OnlyNewAttempts(s, s') && Attempts(s)
    ensures SoleHolder(s', t, k)
  {
  }

  lemma TakeIsStill(s: Sys, s': Sys, j: JobId, p: ProjectId, k: TakeId, written: bool)
    requires TakeIs(s, j, p, k, written) && TakeStands(s, s', p, k)
    ensures TakeIs(s', j, p, k, written)
  {
  }

  lemma ErrorTakeIsWritten(s: Sys, t: Token, text: string, s': Sys, j: JobId, p: ProjectId, k: TakeId)
    requires WriteErrorTakeStep(s, t, text, true, s') && TakeIs(s, j, p, k, false)
    requires Behind(s.attempts[t], j, p, k, false)
    ensures TakeIs(s', j, p, k, true)
  {
  }

  lemma OwnMoveKeepsRenamed(s: Sys, t: Token, move: Move, s': Sys, j: JobId, p: ProjectId, k: TakeId, written: bool)
    requires Attempts(s) && AttemptNext(s, t, move, s') && t in s.attempts && Renamed(s, t, j, p, k, written)
    ensures Renamed(s', t, j, p, k, written || WritesErrorTake(OnAttempt(t, move), t))
  {
    hide Attempts, AttemptNext, SoleHolder, TakeIs, MovedOn, HoldersStand, TakeStands;
    OwnMoveStaysBehind(s, t, move, s', j, p, k, written);
    AttemptHolds(s, t, move, s');
    SoleHolderStands(s, t, s', t, k);
    if move.WriteErrorTake? && move.written {
      OverwritesTake(s, t, move, s', j, p, k, written);
    } else {
      AttemptTakeStands(s, t, move, s', p, k);
      TakeIsStill(s, s', j, p, k, written);
    }
  }

  lemma OverwritesTake(s: Sys, t: Token, move: Move, s': Sys, j: JobId, p: ProjectId, k: TakeId, written: bool)
    requires AttemptNext(s, t, move, s') && move.WriteErrorTake? && move.written && t in s.attempts
    requires TakeIs(s, j, p, k, written) && Behind(s.attempts[t], j, p, k, written)
    ensures TakeIs(s', j, p, k, true)
  {
    hide TakeIs;
    assert !written;
    ErrorTakeIsWritten(s, t, move.text, s', j, p, k);
  }

  lemma StepKeepsRenamed(s: Sys, step: Step, s': Sys, t: Token, j: JobId, p: ProjectId, k: TakeId, written: bool)
    requires Attempts(s) && Next(s, step, s') && Renamed(s, t, j, p, k, written)
    ensures Renamed(s', t, j, p, k, written || WritesErrorTake(step, t))
  {
    hide Attempts, Renamed;
    if step.OnAttempt? {
      hide AttemptNext;
      MoverIsThere(s, step.t, step.move, s');
      if step.t == t {
        OwnMoveKeepsRenamed(s, t, step.move, s', j, p, k, written);
      } else {
        OthersMove(s, step.t, step.move, s', t, j, p, k, written);
      }
    } else {
      hide Next;
      OtherKeepsRenamed(s, step, s', t, j, p, k, written);
    }
  }

  lemma OtherKeepsRenamed(s: Sys, step: Step, s': Sys, t: Token, j: JobId, p: ProjectId, k: TakeId, written: bool)
    requires Attempts(s) && Next(s, step, s') && !step.OnAttempt? && Renamed(s, t, j, p, k, written)
    ensures Renamed(s', t, j, p, k, written)
  {
    assert p in s.created && t in s.issued;
    hide Attempts, SoleHolder, TakeIs, TakeStands, OnlyNewAttempts, Next;
    OtherHolds(s, step, s');
    OtherTakeStands(s, step, s', p, k);
    SoleHolderStaysSo(s, s', t, k);
    TakeIsStill(s, s', j, p, k, written);
    if t in s'.attempts {
      NewNotHolder(s, s', t);
    }
  }

  lemma MoverIsThere(s: Sys, t: Token, move: Move, s': Sys)
    requires AttemptNext(s, t, move, s')
    ensures t in s.attempts
  {
    hide NoneFound, Found, AtPc, SetAttempt, SetRow, EndAttempt, Discard, PutTake, Owns, Fenced;
  }

  lemma NewNotHolder(s: Sys, s': Sys, t: Token)
    requires OnlyNewAttempts(s, s') && t in s.issued && t in s'.attempts
    ensures t in s.attempts && s'.attempts[t] == s.attempts[t]
  {
  }

  lemma OthersLeaveAttempt(s: Sys, step: Step, s': Sys, t: Token)
    requires Attempts(s) && Next(s, step, s') && !(step.OnAttempt? && step.t == t) && t in s.issued && t in s'.attempts
    ensures t in s.attempts && s'.attempts[t] == s.attempts[t]
  {
    hide Attempts;
    if step.OnAttempt? {
      hide AttemptNext;
      AttemptHolds(s, step.t, step.move, s');
    } else {
      hide Next;
      OtherHolds(s, step, s');
    }
  }

  lemma OthersMove(s: Sys, u: Token, move: Move, s': Sys, t: Token, j: JobId, p: ProjectId, k: TakeId, written: bool)
    requires AttemptNext(s, u, move, s') && u in s.attempts && u != t && Renamed(s, t, j, p, k, written)
    ensures Renamed(s', t, j, p, k, written)
  {
    assert s.attempts[u].take != Some(k);
    assert SoleHolder(s, t, k) && TakeIs(s, j, p, k, written);
    hide AttemptNext, SoleHolder, TakeIs, TakeStands;
    AttemptHolds(s, u, move, s');
    AttemptTakeStands(s, u, move, s', p, k);
    SoleHolderStands(s, u, s', t, k);
    TakeIsStill(s, s', j, p, k, written);
  }

  /** The error take of attempt `t` is written in some step from `i` on, before `m`. */
  predicate ErrorWritten(steps: seq<Step>, t: Token, i: nat, m: nat) {
    i <= m <= |steps| && exists n | i <= n < m :: WritesErrorTake(steps[n], t)
  }

  /** Step `i` of the run renames take `k` of job `j` into project `p`, in a commit of attempt `t`. */
  ghost predicate Renames(run: seq<Sys>, steps: seq<Step>, i: nat, t: Token, j: JobId, p: ProjectId, k: TakeId) {
    && IsRun(run, steps) && i < |steps|
    && steps[i].OnAttempt? && steps[i].t == t
    && Found(run[i + 1], p, j, k) && !Found(run[i], p, j, k)
  }

  lemma RenamingPublishes(s: Sys, t: Token, move: Move, s': Sys, j: JobId, p: ProjectId, k: TakeId)
    requires OwnStaging(s) && AttemptNext(s, t, move, s') && Found(s', p, j, k) && !Found(s, p, j, k)
    ensures move.Commit? && PublishStep(s, t, move.outcome, move.now, s')
    ensures Commits(s, t, p, j, k)
  {
    assert Next(s, OnAttempt(t, move), s');
    {
      hide Commits, AttemptNext;
      OnlyCommitPublishes(s, OnAttempt(t, move), s', p, j, k);
    }
    hide AttemptNext, OwnStaging, Commits;
    AttemptPublishes(s, t, move, s');
    CommitMoves(s, t, move, s');
    hide CommitStep, PublishStep, MayCommit, NoneFound;
    CommitIsLocalOrPublishes(s, t, move.outcome, move.now, s');
  }

  lemma CommitMoves(s: Sys, t: Token, move: Move, s': Sys)
    requires AttemptNext(s, t, move, s') && move.Commit?
    ensures CommitStep(s, t, move.outcome, move.now, s')
  {
  }

  lemma PublishedIsRenamed(s: Sys, t: Token, outcome: CommitOutcome, now: Time, s': Sys, j: JobId, p: ProjectId, k: TakeId)
    requires OwnStaging(s) && Attempts(s) && Created(s)
    requires HasAttempt(s, t, AtCommit) && s.attempts[t].job == j && s.attempts[t].project == p && s.attempts[t].take == Some(k)
    requires PublishStep(s, t, outcome, now, s') && Found(s', p, j, k) && !Found(s, p, j, k)
    ensures Renamed(s', t, j, p, k, false)
  {
  }

  lemma WrittenExtends(steps: seq<Step>, t: Token, i: nat, m: nat)
    requires i <= m < |steps|
    ensures ErrorWritten(steps, t, i, m + 1) <==> ErrorWritten(steps, t, i, m) || WritesErrorTake(steps[m], t)
  {
    hide WritesErrorTake;
    if ErrorWritten(steps, t, i, m) {
      var n :| i <= n < m && WritesErrorTake(steps[n], t);
      assert i <= n < m + 1;
    }
  }

  lemma ReachableRenaming(run: seq<Sys>, steps: seq<Step>, i: nat)
    requires IsRun(run, steps) && i < |run|
    ensures OwnStaging(run[i]) && Attempts(run[i]) && Created(run[i])
  {
    hide Next, OwnStaging, Attempts, Created;
    RunKeepsInv(run, steps, i);
  }

  lemma RenamesFirst(run: seq<Sys>, steps: seq<Step>, i: nat, t: Token, j: JobId, p: ProjectId, k: TakeId)
    requires Renames(run, steps, i, t, j, p, k)
    ensures Renamed(run[i + 1], t, j, p, k, false)
    ensures steps[i].move.Commit? && MayCommit(run[i], t) && run[i].attempts[t].job == j
    ensures PublishStep(run[i], t, steps[i].move.outcome, steps[i].move.now, run[i + 1])
  {
    assert Next(run[i], steps[i], run[i + 1]);
    hide OwnStaging, Attempts, Created, AttemptNext, PublishStep, Renamed, MayCommit, NoneFound, Found;
    ReachableRenaming(run, steps, i);
    RenamingPublishes(run[i], t, steps[i].move, run[i + 1], j, p, k);
    PublishedIsRenamed(run[i], t, steps[i].move.outcome, steps[i].move.now, run[i + 1], j, p, k);
  }

  lemma {:induction false} RenamedOver(run: seq<Sys>, steps: seq<Step>, i: nat, m: nat, t: Token, j: JobId, p: ProjectId, k: TakeId)
    requires Renames(run, steps, i, t, j, p, k) && i < m < |run|
    ensures Renamed(run[m], t, j, p, k, ErrorWritten(steps, t, i + 1, m))
    decreases m - i
  {
    hide Renames, Renamed, Next, Attempts, OwnStaging, Created, PublishStep, MayCommit;
    if m == i + 1 {
      RenamesFirst(run, steps, i, t, j, p, k);
    } else {
      RenamedOver(run, steps, i, m - 1, t, j, p, k);
      RenamesIsRun(run, steps, i, t, j, p, k);
      ReachableRenaming(run, steps, m - 1);
      StepKeepsRenamed(run[m - 1], steps[m - 1], run[m], t, j, p, k, ErrorWritten(steps, t, i + 1, m - 1));
      WrittenExtends(steps, t, i + 1, m - 1);
    }
  }

  lemma RenamesIsRun(run: seq<Sys>, steps: seq<Step>, i: nat, t: Token, j: JobId, p: ProjectId, k: TakeId)
    requires Renames(run, steps, i, t, j, p, k)
    ensures IsRun(run, steps) && i < |steps|
  {
  }

  /** A take, once renamed into its project, is lost in exactly one way: the attempt that renamed it
      raises, and its failure handler writes an error take over it. No other attempt, reclaim,
      cancel, retry or deletion that left the project whole does it. */
  lemma TakeLostIffErrorWritten(run: seq<Sys>, steps: seq<Step>, i: nat, m: nat, t: Token, j: JobId, p: ProjectId, k: TakeId)
    requires Renames(run, steps, i, t, j, p, k) && i < m < |run|
    requires p in run[m].projects && p !in run[m].damaged
    ensures Found(run[m], p, j, k) <==> !ErrorWritten(steps, t, i + 1, m)
  {
    hide Renames, ErrorWritten;
    RenamedOver(run, steps, i, m, t, j, p, k);
  }
}
