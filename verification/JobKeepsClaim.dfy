/** Insertions, claims, retries and the frozen record: the moves that start an attempt and fix
    what it renders. */
module JobKeepsClaim {
  import opened Common
  import opened CreationTypes
  import opened JobRows
  import opened JobProtocol
  import opened JobInvariant
  import opened JobKeeps

  // ---- insertion ----

  /** A row no claim has touched. */
  predicate Unclaimed(r: Row) {
    && r.status == Queued && r.attempts == 0 && Fresh(r) && r.token.None?
  }

  lemma InsertKeepsRows(s: Sys, j: JobId, row: Row)
    requires Rows(s) && Retries(s) && j !in s.jobs && Unclaimed(row)
    ensures Rows(SetRow(s, j, row)) && Retries(SetRow(s, j, row))
  {
    assert ClaimsOf(s.issued, j) == {};
  }

  lemma InsertKeepsRecords(s: Sys, j: JobId, row: Row)
    requires Attempts(s) && Frozens(s) && j !in s.jobs
    ensures Attempts(SetRow(s, j, row)) && Frozens(SetRow(s, j, row))
  {
  }

  lemma InsertKeepsTakes(s: Sys, j: JobId, row: Row)
    requires Takes(s) && Created(s) && j !in s.jobs && row.project in s.created
    ensures Takes(SetRow(s, j, row)) && Created(SetRow(s, j, row))
  {
  }

  lemma InsertKeepsDones(s: Sys, j: JobId, row: Row)
    requires Dones(s) && Takes(s) && j !in s.jobs && row.status == Queued
    ensures Dones(SetRow(s, j, row))
  {
  }

  lemma InsertKeepsStaging(s: Sys, j: JobId, row: Row)
    requires Kepts(s) && Doomeds(s) && j !in s.jobs && row.status == Queued
    ensures Kepts(SetRow(s, j, row)) && Doomeds(SetRow(s, j, row))
  {
  }

  lemma InsertKeepsRemovals(s: Sys, j: JobId, row: Row)
    requires Removals(s) && j !in s.jobs
    ensures Removals(SetRow(s, j, row))
  {
  }

  lemma KeepInsert(s: Sys, j: JobId, row: Row)
    requires Inv(s) && j !in s.jobs && Unclaimed(row) && row.project in s.created
    ensures Inv(SetRow(s, j, row))
  {
    InsertKeepsRows(s, j, row);
    InsertKeepsRecords(s, j, row);
    InsertKeepsTakes(s, j, row);
    InsertKeepsDones(s, j, row);
    InsertKeepsStaging(s, j, row);
    InsertKeepsRemovals(s, j, row);
  }

  // ---- the claim ----

  lemma ClaimCounts(issued: map<Token, JobId>, t: Token, j: JobId, j': JobId)
    requires t !in issued
    ensures ClaimsOf(issued[t := j], j') == if j' == j then ClaimsOf(issued, j) + {t} else ClaimsOf(issued, j')
  {
  }

  lemma ClaimKeepsRows(s: Sys, j: JobId, t: Token, now: Time, s': Sys)
    requires Rows(s) && ClaimStep(s, j, t, now, s')
    ensures Rows(s')
  {
    forall j' | j' in s'.jobs
      ensures RowOk(j', s'.jobs[j'], s'.issued, s'.latest)
    {
      assert RowOk(j', s.jobs[j'], s.issued, s.latest);
      ClaimCounts(s.issued, t, j, j');
    }
  }

  lemma ClaimKeepsRetries(s: Sys, j: JobId, t: Token, now: Time, s': Sys)
    requires Retries(s) && ClaimStep(s, j, t, now, s')
    ensures Retries(s')
  {
  }

  lemma ClaimKeepsAttempts(s: Sys, j: JobId, t: Token, now: Time, s': Sys)
    requires Attempts(s) && ClaimStep(s, j, t, now, s')
    ensures Attempts(s')
  {
  }

  lemma ClaimKeepsRecords(s: Sys, j: JobId, t: Token, now: Time, s': Sys)
    requires Frozens(s) && Attempts(s) && ClaimStep(s, j, t, now, s')
    ensures Frozens(s')
  {
  }

  lemma ClaimKeepsDones(s: Sys, j: JobId, t: Token, now: Time, s': Sys)
    requires Dones(s) && Removals(s) && ClaimStep(s, j, t, now, s')
    ensures Dones(s') && Removals(s')
  {
  }

  lemma ClaimKeepsTakes(s: Sys, j: JobId, t: Token, now: Time, s': Sys)
    requires Takes(s) && Created(s) && OwnTakes(s) && Earliers(s) && ClaimStep(s, j, t, now, s')
    ensures Takes(s') && Created(s') && OwnTakes(s') && Earliers(s')
  {
  }

  lemma ClaimKeepsStaging(s: Sys, j: JobId, t: Token, now: Time, s': Sys)
    requires OwnStaging(s) && Kepts(s) && Attempts(s) && ClaimStep(s, j, t, now, s')
    ensures OwnStaging(s') && Kepts(s')
  {
  }

  lemma ClaimKeepsDoomeds(s: Sys, j: JobId, t: Token, now: Time, s': Sys)
    requires Doomeds(s) && ClaimStep(s, j, t, now, s')
    ensures Doomeds(s')
  {
  }

  lemma KeepClaim(s: Sys, j: JobId, t: Token, now: Time, s': Sys)
    requires Inv(s) && ClaimStep(s, j, t, now, s')
    ensures Inv(s')
  {
    ClaimKeepsRows(s, j, t, now, s');
    ClaimKeepsRetries(s, j, t, now, s');
    ClaimKeepsAttempts(s, j, t, now, s');
    ClaimKeepsRecords(s, j, t, now, s');
    ClaimKeepsDones(s, j, t, now, s');
    ClaimKeepsTakes(s, j, t, now, s');
    ClaimKeepsStaging(s, j, t, now, s');
    ClaimKeepsDoomeds(s, j, t, now, s');
  }

  // ---- an explicit retry ----

  lemma RetryKeepsRetries(s: Sys, j: JobId, row: Row, o: Original)
    requires Rows(s) && Retries(s) && j !in s.jobs
    ensures Retries(SetRow(s, j, row).(copying := s.copying + {j}, inherited := s.inherited[j := o]))
  {
  }

  lemma KeepRetryEnqueue(s: Sys, j: JobId, row: Row, o: Original, s': Sys)
    requires Inv(s) && RetryEnqueueStep(s, j, row, o, s')
    ensures Inv(s')
  {
    KeepInsert(s, j, row);
    RetryKeepsRetries(s, j, row, o);
  }

  /** A retry that was not raced has no attempt and no render when its copy lands. */
  lemma CopyKeepsRecords(s: Sys, j: JobId, r': Row)
    requires Rows(s) && Attempts(s) && Frozens(s)
    requires j in s.jobs && (j in s.raced || j !in s.latest)
    requires r'.token == s.jobs[j].token && r'.status == s.jobs[j].status
    requires r'.status == Queued || r' == s.jobs[j]
    ensures Frozens(SetRow(s, j, r'))
  {
    if j !in s.raced {
      assert forall t :: t in s.issued ==> s.issued[t] != j;
    }
  }

  lemma CopyKeepsRetries(s: Sys, j: JobId, s': Sys)
    requires Retries(s) && RetryCopyStep(s, j, s')
    ensures Retries(s')
    ensures j in s.raced || j !in s.latest
  {
  }

  lemma CopyIsQuiet(s: Sys, j: JobId, s': Sys)
    requires Rows(s) && RetryCopyStep(s, j, s')
    ensures AllQuiet(s.jobs, s'.jobs) && AllSameOutcome(s.jobs, s'.jobs) && AllStayFailed(s.jobs, s'.jobs)
    ensures j in s.jobs && s'.jobs == s.jobs[j := s'.jobs[j]]
    ensures s'.jobs[j].token == s.jobs[j].token && s'.jobs[j].status == s.jobs[j].status
    ensures s'.jobs[j].status == Queued || s'.jobs[j] == s.jobs[j]
  {
    OneRow(s.jobs, j, s'.jobs[j]);
  }

  lemma KeepRetryCopy(s: Sys, j: JobId, s': Sys)
    requires Inv(s) && RetryCopyStep(s, j, s')
    ensures Inv(s')
  {
    CopyIsQuiet(s, j, s');
    CopyKeepsRetries(s, j, s');
    CopyKeepsRecords(s, j, s'.jobs[j]);
    JobsKeepCore(s, s'.jobs);
    JobsKeepDones(s, s'.jobs);
  }

  // ---- the backend ----

  lemma AllocateKeepsRecords(s: Sys, t: Token, k: TakeId, s': Sys)
    requires Attempts(s) && Frozens(s) && Takes(s) && AllocateStep(s, t, k, s')
    ensures Attempts(s') && Frozens(s') && Takes(s')
  {
  }

  lemma AllocateKeepsTakes(s: Sys, t: Token, k: TakeId, s': Sys)
    requires OwnTakes(s) && Earliers(s) && Takes(s) && AllocateStep(s, t, k, s')
    ensures OwnTakes(s') && Earliers(s')
  {
  }

  lemma AllocateKeepsStaging(s: Sys, t: Token, k: TakeId, s': Sys)
    requires OwnStaging(s) && Kepts(s) && Doomeds(s) && Attempts(s) && AllocateStep(s, t, k, s')
    ensures OwnStaging(s') && Kepts(s') && Doomeds(s')
  {
  }

  lemma KeepAllocate(s: Sys, t: Token, k: TakeId, s': Sys)
    requires Inv(s) && AllocateStep(s, t, k, s')
    ensures Inv(s')
  {
    AllocateKeepsRecords(s, t, k, s');
    AllocateKeepsTakes(s, t, k, s');
    AllocateKeepsStaging(s, t, k, s');
  }

  lemma FreezeKeepsRecords(s: Sys, t: Token, record: Record, now: Time, s': Sys)
    requires Attempts(s) && Frozens(s) && ResolveStep(s, t, record, now, s')
    requires s.attempts[t].resolved.None? && Owns(RowOf(s, t), t)
    ensures Attempts(s') && Frozens(s')
  {
  }

  lemma FreezeIsQuiet(s: Sys, t: Token, record: Record, now: Time, s': Sys)
    requires Attempts(s) && ResolveStep(s, t, record, now, s')
    requires s.attempts[t].resolved.None? && Owns(RowOf(s, t), t)
    ensures AllQuiet(s.jobs, s'.jobs) && AllSameOutcome(s.jobs, s'.jobs) && AllStayFailed(s.jobs, s'.jobs)
    ensures s' == SetAttempt(s.(jobs := s'.jobs), t, s'.attempts[t])
    ensures Moves(s.(jobs := s'.jobs), t, s'.attempts[t]) && s'.attempts[t].pc == AtRender
    ensures AttemptOk(s'.attempts[t], t, s'.jobs, s.issued, s.takeIds)
  {
    AttemptIsOk(s, t);
    OneRow(s.jobs, s.attempts[t].job, s'.jobs[s.attempts[t].job]);
  }

  lemma KeepFreeze(s: Sys, t: Token, record: Record, now: Time, s': Sys)
    requires Inv(s) && ResolveStep(s, t, record, now, s')
    requires s.attempts[t].resolved.None? && Owns(RowOf(s, t), t)
    ensures Inv(s')
  {
    FreezeIsQuiet(s, t, record, now, s');
    FreezeKeepsRecords(s, t, record, now, s');
    JobsKeepCore(s, s'.jobs);
    JobsKeepDones(s, s'.jobs);
    MoveKeepsCore(s.(jobs := s'.jobs), t, s'.attempts[t]);
  }

  lemma ResolvedMoves(s: Sys, t: Token, a': Attempt)
    requires Attempts(s) && t in s.attempts && s.attempts[t].pc == InWorker && s.attempts[t].resolved.Some?
    requires a' == s.attempts[t].(pc := AtRender, record := s.attempts[t].resolved)
    ensures Moves(s, t, a') && AttemptOk(a', t, s.jobs, s.issued, s.takeIds)
  {
  }

  lemma KeepResolve(s: Sys, t: Token, record: Record, now: Time, s': Sys)
    requires Inv(s) && ResolveStep(s, t, record, now, s')
    ensures Inv(s')
  {
    if s.attempts[t].resolved.Some? {
      ResolvedMoves(s, t, s'.attempts[t]);
      KeepMove(s, t, s'.attempts[t]);
    } else if Owns(RowOf(s, t), t) {
      KeepFreeze(s, t, record, now, s');
    } else {
      KeepFenced(s, t);
    }
  }

  lemma RenderedMoves(s: Sys, t: Token, a': Attempt)
    requires Attempts(s) && t in s.attempts && a' == s.attempts[t].(pc := Rendered)
    requires s.attempts[t].pc == AtRender || s.attempts[t].pc == AtRemoteWait
    ensures Moves(s, t, a') && AttemptOk(a', t, s.jobs, s.issued, s.takeIds)
  {
  }

  lemma RenderKeepsRenders(s: Sys, t: Token, s': Sys)
    requires Frozens(s) && Attempts(s) && RenderLocalStep(s, t, s')
    ensures Frozens(s')
  {
  }

  lemma KeepRender(s: Sys, t: Token, s': Sys)
    requires Inv(s) && RenderLocalStep(s, t, s')
    ensures Inv(s')
  {
    var a' := s.attempts[t].(pc := Rendered);
    RenderedMoves(s, t, a');
    RenderKeepsRenders(s, t, s');
    KeepMove(s, t, a');
  }

  lemma WriteMetaKeepsStaging(s: Sys, t: Token, s': Sys)
    requires OwnStaging(s) && Kepts(s) && Doomeds(s) && Attempts(s) && WriteMetaStep(s, t, s')
    ensures OwnStaging(s') && Kepts(s') && Doomeds(s')
  {
  }

  lemma WriteMetaMoves(s: Sys, t: Token, s': Sys)
    requires Attempts(s) && WriteMetaStep(s, t, s')
    ensures s' == SetAttempt(s, t, s.attempts[t].(pc := AtCommit)).(staging := s'.staging)
    ensures Moves(s, t, s.attempts[t].(pc := AtCommit))
    ensures AttemptOk(s.attempts[t].(pc := AtCommit), t, s.jobs, s.issued, s.takeIds)
  {
  }

  lemma KeepWriteMeta(s: Sys, t: Token, s': Sys)
    requires Inv(s) && WriteMetaStep(s, t, s')
    ensures Inv(s')
  {
    WriteMetaMoves(s, t, s');
    WriteMetaKeepsStaging(s, t, s');
    MoveKeepsAttempts(s, t, s.attempts[t].(pc := AtCommit));
    MoveKeepsRecords(s, t, s.attempts[t].(pc := AtCommit));
    MoveKeepsTakes(s, t, s.attempts[t].(pc := AtCommit));
  }
}
