/** What each move of an attempt writes: at most its own row, under its fence, and outside a
    commit nothing but the row, the attempt and its staging. */
module JobMoves {
  import opened Common
  import opened CreationTypes
  import opened JobRows
  import opened JobProtocol
  import opened JobInvariant

  // ---- one step ----

  /** The columns that identify a request are never rewritten. */
  predicate SameRequest(r: Row, r': Row) {
    && r'.project == r.project && r'.kind == r.kind && r'.createdAt == r.createdAt
    && r'.submission == r.submission && r'.requestHash == r.requestHash
    && r'.retryOf == r.retryOf && r'.seed == r.seed
  }

  /** A fenced write of attempt `t`: it changes only a row that `t` owns, and settles nothing
      that a cancel, a remote handle or a frozen record has settled. */
  predicate FencedWrite(r: Row, r': Row, t: Token) {
    r' == r
    || (&& Owns(r, t)
        && SameRequest(r, r') && r'.snapshot == r.snapshot
        && r'.attempts == r.attempts && r'.token == r.token
        && (r'.stage == r.stage || r'.stage == Some(WritingTake)) && r'.heartbeatAt == r.heartbeatAt
        && r'.status != Queued
        && (r.cancelRequested ==> r'.cancelRequested && r'.status != Done)
        && (r'.status == Done ==> !r'.cancelRequested)
        && (r'.status == Failed ==> r'.error != Some(PROJECT_DELETED))
        && (r.remoteHandle.Some? ==> r'.remoteHandle.Some?)
        && (r.resolved.Some? ==> r'.resolved == r.resolved))
  }

  /** The attempt's own row sees at most a fenced write; every other row stands. */
  ghost predicate WritesOwnRow(s: Sys, t: Token, s': Sys) {
    && t in s.attempts && s.attempts[t].job in s.jobs
    && var j := s.attempts[t].job;
    && j in s'.jobs && s'.jobs == s.jobs[j := s'.jobs[j]]
    && FencedWrite(s.jobs[j], s'.jobs[j], t)
  }

  lemma NothingWritten(s: Sys, t: Token, s': Sys)
    requires t in s.attempts && s.attempts[t].job in s.jobs && s'.jobs == s.jobs
    ensures WritesOwnRow(s, t, s')
  {
    assert s.jobs == s.jobs[s.attempts[t].job := RowOf(s, t)];
  }

  lemma HasRow(s: Sys, t: Token)
    requires Attempts(s) && t in s.attempts
    ensures s.attempts[t].job in s.jobs
  {
    assert AttemptOk(s.attempts[t], t, s.jobs, s.issued, s.takeIds);
  }

  lemma EntryWrites(s: Sys, t: Token, move: Move, s': Sys)
    requires AttemptNext(s, t, move, s') && IsEntry(move)
    ensures WritesOwnRow(s, t, s')
  {
    assert s.jobs == s.jobs[s.attempts[t].job := RowOf(s, t)];
  }

  lemma FrozenIsFenced(r: Row, t: Token, record: Record, now: Time)
    requires r.resolved.None?
    ensures FencedWrite(r, Frozen(r, Some(t), record, now), t)
  {
  }

  lemma RowWritten(s: Sys, t: Token, r': Row, s': Sys)
    requires t in s.attempts && s.attempts[t].job in s.jobs && FencedWrite(RowOf(s, t), r', t)
    requires s'.jobs == s.jobs[s.attempts[t].job := r']
    ensures WritesOwnRow(s, t, s')
  {
  }

  lemma ResolveWrites(s: Sys, t: Token, record: Record, now: Time, s': Sys)
    requires Records(s) && ResolveStep(s, t, record, now, s')
    ensures WritesOwnRow(s, t, s')
  {
    var r := RowOf(s, t);
    assert RecordOk(s.attempts[t], t, r, s.attempts[t].job in s.raced);
    hide WritesOwnRow, FencedWrite, Records, RecordOk;
    if s.attempts[t].resolved.None? && Owns(r, t) {
      FrozenIsFenced(r, t, record, now);
      RowWritten(s, t, Frozen(r, Some(t), record, now), s');
    } else {
      NothingWritten(s, t, s');
    }
  }

  lemma HandleWrites(s: Sys, t: Token, handle: Handle, now: Time, s': Sys)
    requires RecordHandleStep(s, t, handle, now, s')
    ensures WritesOwnRow(s, t, s')
  {
    assert s.jobs == s.jobs[s.attempts[t].job := RowOf(s, t)];
  }

  lemma BackendWrites(s: Sys, t: Token, move: Move, s': Sys)
    requires Attempts(s) && AttemptNext(s, t, move, s') && IsBackend(move) && !move.Resolve?
    ensures WritesOwnRow(s, t, s')
  {
    HasRow(s, t);
    hide WritesOwnRow, FencedWrite, Attempts;
    if move.RecordHandle? {
      HandleWrites(s, t, move.handle, move.now, s');
    } else {
      NothingWritten(s, t, s');
    }
  }

  lemma FinishEarlierWrites(s: Sys, t: Token, now: Time, s': Sys)
    requires FinishEarlierStep(s, t, now, s') && MayCommit(s, t)
    ensures WritesOwnRow(s, t, s')
  {
  }

  lemma PublishWrites(s: Sys, t: Token, outcome: CommitOutcome, now: Time, s': Sys)
    requires PublishStep(s, t, outcome, now, s') && MayCommit(s, t)
    ensures WritesOwnRow(s, t, s')
  {
    assert s.jobs == s.jobs[s.attempts[t].job := RowOf(s, t)];
  }

  lemma RefuseWrites(s: Sys, t: Token, s': Sys)
    requires RefuseStep(s, t, s')
    ensures WritesOwnRow(s, t, s')
  {
    NothingWritten(s, t, s');
  }

  lemma PublicationWrites(s: Sys, t: Token, move: Move, s': Sys)
    requires AttemptNext(s, t, move, s') && IsPublication(move) && !move.Commit?
    ensures WritesOwnRow(s, t, s')
  {
    NothingWritten(s, t, s');
  }

  /** An attempt about to mark its job cancelled has a row that cannot be queued, so the
      `status = 'queued'` arm of that update's WHERE clause never applies to it. */
  lemma CancelWrites(s: Sys, t: Token, now: Time, s': Sys)
    requires Rows(s) && Attempts(s) && MarkCancelledStep(s, t, now, s')
    ensures WritesOwnRow(s, t, s')
  {
    assert AttemptOk(s.attempts[t], t, s.jobs, s.issued, s.takeIds);
  }

  lemma ErrorRowWrites(s: Sys, t: Token, text: string, where: string, now: Time, s': Sys)
    requires WriteErrorRowStep(s, t, text, where, now, s')
    ensures WritesOwnRow(s, t, s')
  {
    assert s.jobs == s.jobs[s.attempts[t].job := RowOf(s, t)];
  }

  lemma HandlerWritesNothing(s: Sys, t: Token, move: Move, s': Sys)
    requires AttemptNext(s, t, move, s') && (move.Raise? || move.HandleFailure? || move.WriteErrorTake? || move.Crash?)
    ensures t in s.attempts && s'.jobs == s.jobs
  {
  }

  lemma EndingWrites(s: Sys, t: Token, move: Move, s': Sys)
    requires Attempts(s) && AttemptNext(s, t, move, s') && !move.MarkCancelled?
    requires !IsEntry(move) && !IsBackend(move) && !IsPublication(move)
    ensures WritesOwnRow(s, t, s')
  {
    hide WritesOwnRow, Attempts;
    if move.WriteErrorRow? {
      hide WriteErrorRowStep;
      ErrorRowWrites(s, t, move.text, move.where, move.now, s');
    } else {
      hide AttemptNext;
      HandlerWritesNothing(s, t, move, s');
      HasRow(s, t);
      NothingWritten(s, t, s');
    }
  }

  // ---- the rest of the state ----

  /** Most moves change only the attempt, its row and its staging. */
  predicate IsLocal(move: Move) {
    !move.Allocate? && !move.RenderLocal? && !move.Commit? && !move.Activate? && !move.WriteErrorTake?
  }

  predicate Local(s: Sys, s': Sys) {
    s' == s.(jobs := s'.jobs, attempts := s'.attempts, staging := s'.staging)
  }

  lemma LocalUpdates()
    ensures forall s: Sys, t, a :: Local(s, SetAttempt(s, t, a))
    ensures forall s: Sys, j, r :: Local(s, SetRow(s, j, r)) && SetRow(s, j, r).attempts == s.attempts
    ensures forall s: Sys, t :: Local(s, EndAttempt(s, t))
    ensures forall s: Sys, k :: Local(s, Discard(s, k)) && Discard(s, k).attempts == s.attempts
    ensures forall s: Sys, s1: Sys, s2: Sys :: Local(s, s1) && Local(s1, s2) ==> Local(s, s2)
  {
  }

  lemma WriteMetaIsLocal(s: Sys, t: Token, s': Sys)
    requires WriteMetaStep(s, t, s')
    ensures Local(s, s')
  {
  }

  lemma EntryIsLocal(s: Sys, t: Token, move: Move, s': Sys)
    requires AttemptNext(s, t, move, s') && IsEntry(move) && !move.Allocate?
    ensures Local(s, s')
  {
    hide Local, SetAttempt, SetRow, EndAttempt, Discard, Owns, NoneFound, Found;
    LocalUpdates();
  }

  lemma BackendIsLocal(s: Sys, t: Token, move: Move, s': Sys)
    requires AttemptNext(s, t, move, s') && IsBackend(move) && !move.RenderLocal?
    ensures Local(s, s')
  {
    hide Local, SetAttempt, SetRow, EndAttempt, Discard, Owns, NoneFound, Found;
    LocalUpdates();
  }

  lemma CheckIsLocal(s: Sys, t: Token, move: Move, s': Sys)
    requires AttemptNext(s, t, move, s') && (move.ThirdCheck? || move.Raise? || move.MarkCancelled?)
    ensures Local(s, s')
  {
    hide Local, SetAttempt, SetRow, EndAttempt, Discard, Owns, NoneFound, Found;
    LocalUpdates();
  }

  lemma FailureIsLocal(s: Sys, t: Token, move: Move, s': Sys)
    requires AttemptNext(s, t, move, s') && (move.HandleFailure? || move.WriteErrorRow? || move.Crash?)
    ensures Local(s, s')
  {
    hide Local, SetAttempt, SetRow, EndAttempt, Discard, Owns, NoneFound, Found;
    LocalUpdates();
  }

  lemma LocalMoves(s: Sys, t: Token, move: Move, s': Sys)
    requires AttemptNext(s, t, move, s') && IsLocal(move)
    ensures Local(s, s')
  {
    if move.WriteMeta? {
      WriteMetaIsLocal(s, t, s');
    } else {
      hide AttemptNext, Local;
      if IsEntry(move) {
        EntryIsLocal(s, t, move, s');
      } else if IsBackend(move) {
        BackendIsLocal(s, t, move, s');
      } else if move.ThirdCheck? || move.Raise? || move.MarkCancelled? {
        CheckIsLocal(s, t, move, s');
      } else {
        FailureIsLocal(s, t, move, s');
      }
    }
  }
}
