/** The moves that publish, finish or overwrite a take. */
module JobKeepsCommit {
  import opened Common
  import opened CreationTypes
  import opened JobRows
  import opened JobProtocol
  import opened JobInvariant
  import opened JobKeeps

  // ---- what the invariant excuses ----

  lemma KeepTorn(s: Sys, j: JobId)
    requires Inv(s)
    ensures Inv(s.(torn := s.torn + {j}))
  {
  }

  lemma OverwrittenKeepsTakes(s: Sys, j: JobId)
    requires Dones(s) && Earliers(s) && OwnTakes(s)
    ensures Dones(s.(overwritten := s.overwritten + {j}))
    ensures Earliers(s.(overwritten := s.overwritten + {j}))
    ensures OwnTakes(s.(overwritten := s.overwritten + {j}))
  {
  }

  lemma KeepOverwritten(s: Sys, j: JobId)
    requires Inv(s)
    ensures Inv(s.(overwritten := s.overwritten + {j}))
  {
    OverwrittenKeepsTakes(s, j);
  }

  // ---- a job becomes done with a take of its own ----

  /** The job may be recorded done with `take`. */
  ghost predicate MayName(s: Sys, j: JobId, take: Option<TakeId>) {
    && j in s.jobs
    && (s.jobs[j].project in s.projects && s.jobs[j].project !in s.damaged ==>
          NamesTake(j, take, s.projects[s.jobs[j].project], j in s.overwritten))
  }

  lemma FinishKeepsDones(s: Sys, j: JobId, r': Row)
    requires Dones(s) && MayName(s, j, r'.takeId) && s.jobs[j].status == Running
    requires r'.project == s.jobs[j].project && r'.kind == s.jobs[j].kind
    ensures Dones(SetRow(s, j, r'))
  {
  }

  /** Every other group sees a row that left `running`. */
  lemma FinishIsQuiet(jobs: Jobs, j: JobId, take: Option<TakeId>, r': Row)
    requires j in jobs && jobs[j].status == Running
    requires r' == jobs[j].(status := Done, takeId := take, error := None, stage := r'.stage, updatedAt := r'.updatedAt)
    ensures AllQuiet(jobs, jobs[j := r']) && AllSameRecord(jobs, jobs[j := r']) && AllStayFailed(jobs, jobs[j := r'])
  {
    OneRow(jobs, j, r');
  }

  lemma KeepFinish(s: Sys, j: JobId, r': Row)
    requires Inv(s) && MayName(s, j, r'.takeId) && s.jobs[j].status == Running
    requires r' == s.jobs[j].(status := Done, takeId := r'.takeId, error := None, stage := r'.stage, updatedAt := r'.updatedAt)
    ensures Inv(SetRow(s, j, r'))
  {
    FinishIsQuiet(s.jobs, j, r'.takeId, r');
    FinishKeepsDones(s, j, r');
    JobsKeepCore(s, s.jobs[j := r']);
    JobsKeepRecords(s, s.jobs[j := r']);
  }

  lemma EarlierMayBeNamed(s: Sys, t: Token)
    requires Attempts(s) && Earliers(s) && HasAttempt(s, t, AtEarlyFinish)
    ensures MayName(s, s.attempts[t].job, s.attempts[t].earlier)
  {
  }

  lemma KeepEarlyFinish(s: Sys, t: Token, now: Time, s': Sys)
    requires Inv(s) && EarlyFinishStep(s, t, now, s')
    ensures Inv(s')
  {
    var j, r := s.attempts[t].job, RowOf(s, t);
    assert CanFinish(r, Some(t)) ==> MayName(s, j, s.attempts[t].earlier) by {
      if CanFinish(r, Some(t)) {
        EarlierMayBeNamed(s, t);
      }
    }
    hide Inv, MayName;
    if CanFinish(r, Some(t)) {
      KeepFinish(s, j, FinishedDone(r, Some(t), s.attempts[t].earlier, now));
    } else {
      assert SetRow(s, j, r) == s;
    }
    KeepEnd(SetRow(s, j, FinishedDone(r, Some(t), s.attempts[t].earlier, now)), t);
  }

  // ---- a rename ----

  /** `k` is in no project yet, so it may become `j`'s first good take. */
  ghost predicate MayPublish(projects: map<ProjectId, Project>, takeIds: set<TakeId>, p: ProjectId, k: TakeId, j: JobId) {
    && p in projects && k in takeIds
    && (forall p' :: p' in projects ==> k !in projects[p'].takes)
    && (forall k' :: k' in projects[p].takes ==> projects[p].takes[k'] != TakeMeta(Some(j), None))
  }

  predicate JobOf(jobs: Jobs, p: ProjectId, j: JobId) {
    j in jobs && jobs[j].project == p && jobs[j].kind == Shaped
  }

  /** Any attempt with this take id is `j`'s, and may have it in `p`. */
  ghost predicate OwnersAgree(attempts: map<Token, Attempt>, overwritten: set<JobId>, p: ProjectId, k: TakeId, j: JobId) {
    forall t | t in attempts && attempts[t].take == Some(k) ::
      OwnTakeOk(attempts[t], p, TakeMeta(Some(j), None), overwritten)
  }

  lemma PutKeepsTakes(s: Sys, p: ProjectId, k: TakeId, j: JobId)
    requires Takes(s) && JobOf(s.jobs, p, j) && MayPublish(s.projects, s.takeIds, p, k, j)
    ensures Takes(PutTake(s, p, k, TakeMeta(Some(j), None)))
  {
  }

  lemma PutKeepsOwn(s: Sys, p: ProjectId, k: TakeId, j: JobId)
    requires OwnTakes(s) && Earliers(s) && MayPublish(s.projects, s.takeIds, p, k, j)
    requires OwnersAgree(s.attempts, s.overwritten, p, k, j)
    ensures OwnTakes(PutTake(s, p, k, TakeMeta(Some(j), None)))
    ensures Earliers(PutTake(s, p, k, TakeMeta(Some(j), None)))
  {
  }

  lemma PutKeepsDones(s: Sys, p: ProjectId, k: TakeId, j: JobId)
    requires Dones(s) && MayPublish(s.projects, s.takeIds, p, k, j) && (j in s.torn || j in s.overwritten)
    ensures Dones(PutTake(s, p, k, TakeMeta(Some(j), None)))
  {
  }

  lemma PutKeepsCore(s: Sys, p: ProjectId, k: TakeId, j: JobId)
    requires Core(s) && JobOf(s.jobs, p, j) && MayPublish(s.projects, s.takeIds, p, k, j)
    requires OwnersAgree(s.attempts, s.overwritten, p, k, j)
    ensures Core(PutTake(s, p, k, TakeMeta(Some(j), None)))
  {
    PutKeepsTakes(s, p, k, j);
    PutKeepsOwn(s, p, k, j);
  }

  /** A rename whose SQL half never lands. */
  lemma KeepPut(s: Sys, p: ProjectId, k: TakeId, j: JobId)
    requires Inv(s) && JobOf(s.jobs, p, j)
    requires MayPublish(s.projects, s.takeIds, p, k, j) && OwnersAgree(s.attempts, s.overwritten, p, k, j)
    requires j in s.torn || j in s.overwritten
    ensures Inv(PutTake(s, p, k, TakeMeta(Some(j), None)))
  {
    PutKeepsCore(s, p, k, j);
    PutKeepsDones(s, p, k, j);
  }

  /** The rename and the row update in one step. */
  lemma PublishKeepsDones(s: Sys, p: ProjectId, k: TakeId, j: JobId, r': Row)
    requires Dones(s) && MayPublish(s.projects, s.takeIds, p, k, j)
    requires r'.status == Done && r'.takeId == Some(k) && r'.project == p && r'.kind == Shaped
    ensures Dones(PutTake(SetRow(s, j, r'), p, k, TakeMeta(Some(j), None)))
  {
  }

  // ---- the commit ----

  /** What the transaction has checked when it comes to the rename. */
  ghost predicate Publishing(s: Sys, t: Token) {
    && HasAttempt(s, t, AtCommit)
    && var a := s.attempts[t];
    && a.take.Some? && a.project in s.projects
    && Owns(s.jobs[a.job], t)
    && a.take.value in s.staging && s.staging[a.take.value].meta.Some?
    && NoneFound(s, a.project, a.job)
  }

  lemma PublishingMayPublish(s: Sys, t: Token)
    requires Attempts(s) && OwnTakes(s) && OwnStaging(s) && Publishing(s, t)
    ensures MayPublish(s.projects, s.takeIds, s.attempts[t].project, s.attempts[t].take.value, s.attempts[t].job)
    ensures JobOf(s.jobs, s.attempts[t].project, s.attempts[t].job)
    ensures s.staging[s.attempts[t].take.value].meta == Some(TakeMeta(Some(s.attempts[t].job), None))
    ensures AttemptOk(s.attempts[t], t, s.jobs, s.issued, s.takeIds)
  {
    var a := s.attempts[t];
    assert StagedOk(a, t, s.staging[a.take.value]);
    assert forall p', k' :: Found(s, p', a.job, k') ==> p' != a.project;
    assert forall k' :: k' in s.projects[a.project].takes ==>
      Found(s, a.project, a.job, k') || s.projects[a.project].takes[k'] != TakeMeta(Some(a.job), None);
  }

  lemma ActivatingOwnersAgree(s: Sys, t: Token, a': Attempt)
    requires OwnStaging(s) && t in s.attempts && a' == s.attempts[t].(pc := a'.pc) && a'.take.Some?
    requires a'.pc == AtActivate || (a'.pc == AtFailure && a'.job in s.overwritten)
    ensures OwnersAgree(s.attempts[t := a'], s.overwritten, a'.project, a'.take.value, a'.job)
  {
  }

  /** The commit's row update, but for the take it names. */
  lemma CommitRow(s: Sys, j: JobId, take: TakeId, now: Time)
    requires Core(s) && Frozens(s) && j in s.jobs && s.jobs[j].status == Running
    ensures Core(SetRow(s, j, CommittedDone(s.jobs[j], take, now)))
    ensures Frozens(SetRow(s, j, CommittedDone(s.jobs[j], take, now)))
  {
    var r' := CommittedDone(s.jobs[j], take, now);
    FinishIsQuiet(s.jobs, j, Some(take), r');
    JobsKeepCore(s, s.jobs[j := r']);
    JobsKeepRecords(s, s.jobs[j := r']);
  }

  lemma ActivateMoves(s: Sys, t: Token, a': Attempt)
    requires Attempts(s) && t in s.attempts && s.attempts[t].pc == AtCommit
    requires a' == s.attempts[t].(pc := AtActivate)
    ensures Moves(s, t, a') && AttemptOk(a', t, s.jobs, s.issued, s.takeIds)
  {
  }

  lemma CommitAttempt(s: Sys, t: Token, a': Attempt)
    requires Core(s) && Frozens(s) && t in s.attempts && s.attempts[t].pc == AtCommit
    requires a' == s.attempts[t].(pc := AtActivate)
    ensures Core(Discard(SetAttempt(s, t, a'), a'.take)) && Frozens(Discard(SetAttempt(s, t, a'), a'.take))
  {
    ActivateMoves(s, t, a');
    MoveOffKeepsCore(s, t, a');
  }

  /** The rename on top of the rest of the commit. */
  lemma PutCommitted(s3: Sys, p: ProjectId, k: TakeId, j: JobId)
    requires Core(s3) && Frozens(s3) && JobOf(s3.jobs, p, j)
    requires MayPublish(s3.projects, s3.takeIds, p, k, j)
    requires OwnersAgree(s3.attempts, s3.overwritten, p, k, j)
    requires Dones(PutTake(s3, p, k, TakeMeta(Some(j), None)))
    ensures Inv(PutTake(s3, p, k, TakeMeta(Some(j), None)))
  {
    PutKeepsCore(s3, p, k, j);
  }

  lemma KeepPublished(s: Sys, t: Token, now: Time, s': Sys)
    requires Inv(s) && Publishing(s, t) && PublishStep(s, t, Published, now, s')
    ensures Inv(s')
  {
    var a, a' := s.attempts[t], s.attempts[t].(pc := AtActivate);
    var p, k, j, r' := a.project, a.take.value, a.job, CommittedDone(RowOf(s, t), a.take.value, now);
    PublishingMayPublish(s, t);
    ActivatingOwnersAgree(s, t, a');
    PublishKeepsDones(s, p, k, j, r');
    CommitRow(s, j, k, now);
    CommitAttempt(SetRow(s, j, r'), t, a');
    PutCommitted(Discard(SetAttempt(SetRow(s, j, r'), t, a'), a.take), p, k, j);
  }

  lemma FailureMoves(s: Sys, t: Token, a': Attempt)
    requires Attempts(s) && t in s.attempts && a' == s.attempts[t].(pc := AtFailure)
    requires s.attempts[t].pc == AtActivate ==> s.attempts[t].job in s.overwritten
    ensures Moves(s, t, a') && AttemptOk(a', t, s.jobs, s.issued, s.takeIds)
  {
  }

  lemma EndedOwnersAgree(s: Sys, t: Token)
    requires OwnStaging(s) && t in s.attempts && s.attempts[t].take.Some?
    ensures OwnersAgree(s.attempts - {t}, s.overwritten, s.attempts[t].project, s.attempts[t].take.value, s.attempts[t].job)
  {
  }

  lemma KeepCrashedAfter(s: Sys, t: Token, now: Time, s': Sys)
    requires Inv(s) && Publishing(s, t) && PublishStep(s, t, CrashedAfter, now, s')
    ensures Inv(s')
  {
    var a := s.attempts[t];
    var s1 := s.(torn := s.torn + {a.job});
    PublishingMayPublish(s, t);
    EndedOwnersAgree(s, t);
    KeepTorn(s, a.job);
    KeepFenced(s1, t);
    KeepPut(Fenced(s1, t), a.project, a.take.value, a.job);
    assert s' == PutTake(Fenced(s1, t), a.project, a.take.value, TakeMeta(Some(a.job), None));
  }

  /** The rename under an attempt that goes on to the failure handler. */
  lemma PutUnderFailure(s: Sys, t: Token, a': Attempt, k: TakeId)
    requires Inv(s) && MayPublish(s.projects, s.takeIds, a'.project, k, a'.job)
    requires JobOf(s.jobs, a'.project, a'.job) && a'.job in s.overwritten
    requires OwnersAgree(s.attempts[t := a'], s.overwritten, a'.project, k, a'.job)
    requires Moves(s, t, a') && AttemptOk(a', t, s.jobs, s.issued, s.takeIds)
    requires a' == s.attempts[t].(pc := AtFailure) && a'.take == Some(k)
    ensures Inv(PutTake(SetAttempt(Discard(s, Some(k)), t, a'), a'.project, k, TakeMeta(Some(a'.job), None)))
  {
    KeepMoveOff(s, t, a');
    KeepPut(SetAttempt(Discard(s, Some(k)), t, a'), a'.project, k, a'.job);
  }

  lemma KeepRaisedAfter(s: Sys, t: Token, now: Time, s': Sys)
    requires Inv(s) && Publishing(s, t) && PublishStep(s, t, RaisedAfter, now, s')
    ensures Inv(s')
  {
    var a, a' := s.attempts[t], s.attempts[t].(pc := AtFailure);
    var s1 := s.(overwritten := s.overwritten + {a.job});
    PublishingMayPublish(s, t);
    KeepOverwritten(s, a.job);
    FailureMoves(s1, t, a');
    ActivatingOwnersAgree(s1, t, a');
    PutUnderFailure(s1, t, a', a.take.value);
  }

  lemma UnmarkKeepsStaging(s: Sys, k: TakeId)
    requires OwnStaging(s) && Kepts(s) && Doomeds(s) && k in s.staging && Unneeded(s, Some(k))
    ensures var s' := s.(staging := s.staging[k := s.staging[k].(owner := None)]);
      OwnStaging(s') && Kepts(s') && Doomeds(s')
  {
  }

  lemma KeepCrashedBefore(s: Sys, t: Token, now: Time, s': Sys)
    requires Inv(s) && Publishing(s, t) && PublishStep(s, t, CrashedBefore, now, s')
    ensures Inv(s')
  {
    EndedIsUnneeded(s, t);
    KeepEnd(s, t);
    UnmarkKeepsStaging(EndAttempt(s, t), s.attempts[t].take.value);
  }

  lemma KeepRaisedBefore(s: Sys, t: Token)
    requires Inv(s) && HasAttempt(s, t, AtCommit)
    ensures Inv(AtPc(Discard(s, s.attempts[t].take), t, AtFailure))
  {
    FailureMoves(s, t, s.attempts[t].(pc := AtFailure));
    KeepMoveOff(s, t, s.attempts[t].(pc := AtFailure));
  }

  /** A commit refused by the flag, the tombstone or a missing project drops its take id. */
  lemma RefusedMoves(s: Sys, t: Token, a': Attempt)
    requires Attempts(s) && HasAttempt(s, t, AtCommit)
    requires a' == s.attempts[t].(pc := a'.pc, take := None)
    requires a'.pc == AtErrorRow || (a'.pc == AtCancel && RowOf(s, t).cancelRequested)
    ensures Moves(s, t, a') && AttemptOk(a', t, s.jobs, s.issued, s.takeIds)
  {
  }

  lemma KeepRefused(s: Sys, t: Token, pc: Pc)
    requires Inv(s) && HasAttempt(s, t, AtCommit)
    requires pc == AtErrorRow || (pc == AtCancel && RowOf(s, t).cancelRequested)
    ensures Inv(SetAttempt(Discard(s, s.attempts[t].take), t, s.attempts[t].(pc := pc, take := None)))
  {
    RefusedMoves(s, t, s.attempts[t].(pc := pc, take := None));
    KeepMoveOff(s, t, s.attempts[t].(pc := pc, take := None));
  }

  lemma FoundMayBeNamed(s: Sys, t: Token, k: TakeId)
    requires Attempts(s) && t in s.attempts && Found(s, s.attempts[t].project, s.attempts[t].job, k)
    ensures MayName(s, s.attempts[t].job, Some(k))
  {
  }

  lemma KeepCommitEarlier(s: Sys, t: Token, k: TakeId, now: Time)
    requires Inv(s) && HasAttempt(s, t, AtCommit) && Owns(RowOf(s, t), t)
    requires Found(s, s.attempts[t].project, s.attempts[t].job, k)
    ensures Inv(Fenced(SetRow(s, s.attempts[t].job, CommittedDone(RowOf(s, t), k, now)), t))
  {
    FoundMayBeNamed(s, t, k);
    KeepFinish(s, s.attempts[t].job, CommittedDone(RowOf(s, t), k, now));
    KeepFenced(SetRow(s, s.attempts[t].job, CommittedDone(RowOf(s, t), k, now)), t);
  }

  lemma KeepRefuse(s: Sys, t: Token, s': Sys)
    requires Inv(s) && HasAttempt(s, t, AtCommit) && RefuseStep(s, t, s')
    ensures Inv(s')
  {
    if !Owns(RowOf(s, t), t) {
      KeepFenced(s, t);
    } else {
      KeepRefused(s, t, if RowOf(s, t).cancelRequested then AtCancel else AtErrorRow);
    }
  }

  lemma KeepFinishEarlier(s: Sys, t: Token, now: Time, s': Sys)
    requires Inv(s) && HasAttempt(s, t, AtCommit) && Owns(RowOf(s, t), t) && FinishEarlierStep(s, t, now, s')
    ensures Inv(s')
  {
    var a := s.attempts[t];
    var k :| Found(s, a.project, a.job, k)
      && s' == EndAttempt(Discard(SetRow(s, a.job, CommittedDone(RowOf(s, t), k, now)), a.take), t);
    KeepCommitEarlier(s, t, k, now);
  }

  // ---- after the commit ----

  lemma ActiveKeepsTakes(s: Sys, p: ProjectId, active: Option<TakeId>)
    requires Takes(s) && OwnTakes(s) && Earliers(s) && p in s.projects
    ensures var s' := s.(projects := s.projects[p := s.projects[p].(active := active)]);
      Takes(s') && OwnTakes(s') && Earliers(s')
  {
  }

  lemma ActiveKeepsDones(s: Sys, p: ProjectId, active: Option<TakeId>)
    requires Dones(s) && p in s.projects
    ensures Dones(s.(projects := s.projects[p := s.projects[p].(active := active)]))
  {
  }

  lemma KeepActive(s: Sys, p: ProjectId, active: Option<TakeId>)
    requires Inv(s) && p in s.projects
    ensures Inv(s.(projects := s.projects[p := s.projects[p].(active := active)]))
  {
    ActiveKeepsTakes(s, p, active);
    ActiveKeepsDones(s, p, active);
  }

  lemma KeepActivated(s: Sys, p: ProjectId, k: TakeId)
    requires Inv(s) && p in s.projects
    ensures Inv(s.(projects := s.projects[p := Activated(s.projects[p], k)]))
  {
    KeepActive(s, p, Activated(s.projects[p], k).active);
  }

  lemma KeepActivateRaises(s: Sys, t: Token)
    requires Inv(s) && HasAttempt(s, t, AtActivate)
    ensures Inv(AtPc(s, t, AtFailure).(overwritten := s.overwritten + {s.attempts[t].job}))
  {
    var a := s.attempts[t];
    var s1 := s.(overwritten := s.overwritten + {a.job});
    KeepOverwritten(s, a.job);
    FailureMoves(s1, t, a.(pc := AtFailure));
    KeepMove(s1, t, a.(pc := AtFailure));
  }

  lemma KeepActivate(s: Sys, t: Token, raises: bool, s': Sys)
    requires Inv(s) && ActivateStep(s, t, raises, s')
    ensures Inv(s')
  {
    if raises {
      KeepActivateRaises(s, t);
    } else {
      KeepEnd(s, t);
      KeepActivated(EndAttempt(s, t), s.attempts[t].project, s.attempts[t].take.value);
    }
  }

  // ---- an error take ----

  lemma ErrorKeepsTakes(s: Sys, t: Token, text: string)
    requires Takes(s) && Attempts(s) && HasAttempt(s, t, AtErrorTake) && s.attempts[t].take.Some?
    requires s.attempts[t].project in s.projects
    ensures Takes(PutTake(s, s.attempts[t].project, s.attempts[t].take.value,
                          TakeMeta(Some(s.attempts[t].job), Some(text))))
  {
  }

  lemma ErrorKeepsDones(s: Sys, t: Token, text: string)
    requires Dones(s) && OwnTakes(s) && HasAttempt(s, t, AtErrorTake) && s.attempts[t].take.Some?
    requires s.attempts[t].project in s.projects
    ensures Dones(PutTake(s, s.attempts[t].project, s.attempts[t].take.value,
                          TakeMeta(Some(s.attempts[t].job), Some(text))))
  {
  }

  lemma ErrorKeepsOwn(s: Sys, t: Token, text: string)
    requires OwnTakes(s) && OwnStaging(s) && Earliers(s) && HasAttempt(s, t, AtErrorTake)
    requires s.attempts[t].take.Some? && s.attempts[t].project in s.projects
    ensures var s' := PutTake(s, s.attempts[t].project, s.attempts[t].take.value,
                              TakeMeta(Some(s.attempts[t].job), Some(text)));
      OwnTakes(s') && Earliers(s')
  {
  }

  lemma ErrorRowMoves(s: Sys, t: Token, a': Attempt)
    requires Attempts(s) && HasAttempt(s, t, AtErrorTake)
    requires a' == s.attempts[t].(pc := AtErrorRow, take := a'.take)
    requires a'.take.None? || a'.take == s.attempts[t].take
    ensures Moves(s, t, a') && AttemptOk(a', t, s.jobs, s.issued, s.takeIds)
  {
  }

  lemma KeepWriteErrorTake(s: Sys, t: Token, text: string, written: bool, s': Sys)
    requires Inv(s) && WriteErrorTakeStep(s, t, text, written, s')
    ensures Inv(s')
  {
    var a := s.attempts[t];
    if written {
      var s1 := PutTake(s, a.project, a.take.value, TakeMeta(Some(a.job), Some(text)));
      ErrorKeepsTakes(s, t, text);
      ErrorKeepsDones(s, t, text);
      ErrorKeepsOwn(s, t, text);
      ErrorRowMoves(s1, t, a.(pc := AtErrorRow));
      KeepMove(s1, t, a.(pc := AtErrorRow));
    } else {
      ErrorRowMoves(s, t, a.(pc := AtErrorRow, take := None));
      KeepMove(s, t, a.(pc := AtErrorRow, take := None));
    }
  }
}
