/** The remaining moves of an attempt, and the one-row updates. */
module JobKeepsAttempt {
  import opened Common
  import opened CreationTypes
  import opened JobRows
  import opened JobProtocol
  import opened JobInvariant
  import opened JobKeeps
  import opened JobKeepsClaim
  import opened JobKeepsCommit
  import opened JobKeepsDeletion

  // ---- one row ----

  lemma UpdateIsQuiet(r: Row, u: RowUpdate, tombstones: set<ProjectId>, now: Time)
    requires Allowed(r, u, tombstones, now) && (r.status == Queued ==> Fresh(r))
    ensures var r' := Updated(r, u, now);
      Quiet(r, r') && r'.resolved == r.resolved && SameOutcome(r, r') && StaysFailed(r, r')
  {
  }

  lemma KeepOnRow(s: Sys, j: JobId, u: RowUpdate, now: Time)
    requires Inv(s) && j in s.jobs && Allowed(s.jobs[j], u, s.tombstones, now)
    ensures Inv(SetRow(s, j, Updated(s.jobs[j], u, now)))
  {
    QueuedAreFresh(s);
    UpdateIsQuiet(s.jobs[j], u, s.tombstones, now);
    KeepRow(s, j, Updated(s.jobs[j], u, now));
  }

  // ---- one attempt ----

  lemma CheckMoves(s: Sys, t: Token, at: Pc, onward: Pc, s': Sys)
    requires Attempts(s) && CheckStep(s, t, at, onward, s')
    requires (at == AtFirstCheck && onward == AtLookup) || (at == AtSecondCheck && onward == AtAllocate)
    ensures s' == SetAttempt(s, t, s'.attempts[t])
    ensures Moves(s, t, s'.attempts[t]) && AttemptOk(s'.attempts[t], t, s.jobs, s.issued, s.takeIds)
    ensures s'.attempts[t] == s.attempts[t].(pc := s'.attempts[t].pc) && s'.attempts[t].pc != AtCommit
  {
    AttemptIsOk(s, t);
  }

  lemma KeepCheck(s: Sys, t: Token, at: Pc, onward: Pc, s': Sys)
    requires Inv(s) && CheckStep(s, t, at, onward, s')
    requires (at == AtFirstCheck && onward == AtLookup) || (at == AtSecondCheck && onward == AtAllocate)
    ensures Inv(s')
  {
    CheckMoves(s, t, at, onward, s');
    KeepMove(s, t, s'.attempts[t]);
  }

  lemma LookupMoves(s: Sys, t: Token, earlier: Option<TakeId>, s': Sys)
    requires Attempts(s) && LookupStep(s, t, earlier, s')
    ensures s' == SetAttempt(s, t, s'.attempts[t])
    ensures Moves(s, t, s'.attempts[t]) && AttemptOk(s'.attempts[t], t, s.jobs, s.issued, s.takeIds)
    ensures s'.attempts[t].resolved == s.attempts[t].resolved && s'.attempts[t].record == s.attempts[t].record
    ensures s'.attempts[t].pc != AtCommit
  {
    AttemptIsOk(s, t);
  }

  lemma KeepLookup(s: Sys, t: Token, earlier: Option<TakeId>, s': Sys)
    requires Inv(s) && LookupStep(s, t, earlier, s')
    ensures Inv(s')
  {
    LookupMoves(s, t, earlier, s');
    KeepMove(s, t, s'.attempts[t]);
  }

  lemma HandleIsQuiet(r: Row, t: Token, handle: Handle, now: Time)
    requires Owns(r, t)
    ensures var r' := WithHandle(r, Some(t), handle, now);
      Quiet(r, r') && r'.resolved == r.resolved && SameOutcome(r, r') && StaysFailed(r, r')
  {
  }

  lemma WaitMoves(s: Sys, t: Token, a': Attempt)
    requires Attempts(s) && HasAttempt(s, t, InWorker) && RowOf(s, t).remoteHandle.Some?
    requires a' == s.attempts[t].(pc := AtRemoteWait)
    ensures Moves(s, t, a') && AttemptOk(a', t, s.jobs, s.issued, s.takeIds)
  {
    AttemptIsOk(s, t);
  }

  lemma KeepRecordHandle(s: Sys, t: Token, handle: Handle, now: Time, s': Sys)
    requires Inv(s) && RecordHandleStep(s, t, handle, now, s')
    ensures Inv(s')
  {
    var a, r := s.attempts[t], RowOf(s, t);
    if Owns(r, t) {
      var s1 := SetRow(s, a.job, WithHandle(r, Some(t), handle, now));
      HandleIsQuiet(r, t, handle, now);
      KeepRow(s, a.job, WithHandle(r, Some(t), handle, now));
      WaitMoves(s1, t, a.(pc := AtRemoteWait));
      KeepMove(s1, t, a.(pc := AtRemoteWait));
    } else {
      KeepFenced(s, t);
    }
  }

  lemma KeepRemoteReturns(s: Sys, t: Token)
    requires Inv(s) && HasAttempt(s, t, AtRemoteWait)
    ensures Inv(AtPc(s, t, Rendered))
  {
    RenderedMoves(s, t, s.attempts[t].(pc := Rendered));
    KeepMove(s, t, s.attempts[t].(pc := Rendered));
  }

  /** Moves past the staging: to the cancel, or on to the failure handler's branches. */
  lemma OffMoves(s: Sys, t: Token, pc: Pc)
    requires Attempts(s) && t in s.attempts && s.attempts[t].job in s.jobs && s.attempts[t].pc != AtActivate
    requires pc == AtCancel || pc == AtErrorRow || (pc == AtErrorTake && s.attempts[t].take.Some?)
    requires pc == AtCancel ==> RowOf(s, t).cancelRequested || RowOf(s, t).remoteHandle.Some?
    ensures Moves(s, t, s.attempts[t].(pc := pc))
    ensures AttemptOk(s.attempts[t].(pc := pc), t, s.jobs, s.issued, s.takeIds)
  {
    AttemptIsOk(s, t);
  }

  lemma KeepOff(s: Sys, t: Token, pc: Pc)
    requires Inv(s) && t in s.attempts && s.attempts[t].job in s.jobs && s.attempts[t].pc != AtActivate
    requires pc == AtCancel || pc == AtErrorRow || (pc == AtErrorTake && s.attempts[t].take.Some?)
    requires pc == AtCancel ==> RowOf(s, t).cancelRequested || RowOf(s, t).remoteHandle.Some?
    ensures Inv(AtPc(Discard(s, s.attempts[t].take), t, pc))
  {
    OffMoves(s, t, pc);
    hide Inv, Moves, AttemptOk;
    KeepMoveOff(s, t, s.attempts[t].(pc := pc));
  }

  lemma MetaMoves(s: Sys, t: Token)
    requires Attempts(s) && HasAttempt(s, t, Rendered)
    ensures Moves(s, t, s.attempts[t].(pc := AtMeta))
    ensures AttemptOk(s.attempts[t].(pc := AtMeta), t, s.jobs, s.issued, s.takeIds)
  {
    AttemptIsOk(s, t);
  }

  lemma KeepThirdCheck(s: Sys, t: Token, s': Sys)
    requires Inv(s) && ThirdCheckStep(s, t, s')
    ensures Inv(s')
  {
    if RowOf(s, t).cancelRequested {
      KeepOff(s, t, AtCancel);
    } else {
      MetaMoves(s, t);
      KeepMove(s, t, s.attempts[t].(pc := AtMeta));
    }
  }

  lemma WaitingHasHandle(s: Sys, t: Token)
    requires Attempts(s) && HasAttempt(s, t, AtRemoteWait)
    ensures RowOf(s, t).remoteHandle.Some?
  {
  }

  lemma KeepWorkerCancelled(s: Sys, t: Token, s': Sys)
    requires Inv(s) && WorkerCancelledStep(s, t, s')
    ensures Inv(s')
  {
    if s.attempts[t].pc == AtRemoteWait {
      WaitingHasHandle(s, t);
    }
    KeepOff(s, t, AtCancel);
  }

  lemma KeepRaise(s: Sys, t: Token, s': Sys)
    requires Inv(s) && RaiseStep(s, t, s')
    ensures Inv(s')
  {
    FailureMoves(s, t, s.attempts[t].(pc := AtFailure));
    KeepMove(s, t, s.attempts[t].(pc := AtFailure));
  }

  lemma KeepHandleFailure(s: Sys, t: Token, s': Sys)
    requires Inv(s) && HandleFailureStep(s, t, s')
    ensures Inv(s')
  {
    KeepOff(s, t, s'.attempts[t].pc);
  }

  lemma EndingRowIsQuiet(r: Row, t: Token, take: Option<TakeId>, message: string, now: Time)
    ensures var r' := MarkedCancelled(r, Some(t), now);
      Quiet(r, r') && r'.resolved == r.resolved && SameOutcome(r, r') && StaysFailed(r, r')
    ensures var r' := SetFailed(r, Some(t), take, message, now);
      Quiet(r, r') && r'.resolved == r.resolved && SameOutcome(r, r') && StaysFailed(r, r')
  {
  }

  lemma KeepEndWithRow(s: Sys, t: Token, j: JobId, r': Row)
    requires Inv(s) && j in s.jobs && Quiet(s.jobs[j], r') && r'.resolved == s.jobs[j].resolved
    requires SameOutcome(s.jobs[j], r') && StaysFailed(s.jobs[j], r')
    ensures Inv(EndAttempt(SetRow(s, j, r'), t))
  {
    KeepRow(s, j, r');
    KeepEnd(SetRow(s, j, r'), t);
  }

  lemma KeepCancelled(s: Sys, t: Token, now: Time, s': Sys)
    requires Inv(s) && MarkCancelledStep(s, t, now, s')
    ensures Inv(s')
  {
    EndingRowIsQuiet(RowOf(s, t), t, None, "", now);
    KeepEndWithRow(s, t, s.attempts[t].job, JobRows.MarkedCancelled(RowOf(s, t), Some(t), now));
  }

  lemma KeepErrorRow(s: Sys, t: Token, text: string, where: string, now: Time, s': Sys)
    requires Inv(s) && WriteErrorRowStep(s, t, text, where, now, s')
    ensures Inv(s')
  {
    var a, message := s.attempts[t], DescribeFailure(text, where);
    EndingRowIsQuiet(RowOf(s, t), t, a.take, message, now);
    KeepEndWithRow(s, t, a.job, SetFailed(RowOf(s, t), Some(t), a.take, message, now));
  }

  lemma KeepReadOriginal(s: Sys, o: Original)
    requires Inv(s)
    ensures Inv(s.(originals := s.originals + {o}))
  {
  }

  lemma KeepRemoveDirectory(s: Sys, p: ProjectId)
    requires Inv(s)
    ensures Inv(s.(projects := s.projects - {p}, removals := s.removals - {p}))
  {
    KeepClosing(s, p);
    KeepWithoutProject(s.(removals := s.removals - {p}), p);
  }
}
