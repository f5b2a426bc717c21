/** Runs that reach what the protocol does not promise. Each is one concrete interleaving. */
module JobWitnesses {
  import opened Common
  import opened CreationTypes
  import opened JobRows
  import opened JobProtocol
  import opened JobInvariant
  import opened JobRace

  // ---- an exception after the rename ----

  /** From the end of the render to the commit. */
  lemma Stages(s: Sys, t: Token) returns (s': Sys)
    requires Reachable(s) && HasAttempt(s, t, Rendered) && s.attempts[t].take.Some?
    requires s.attempts[t].take.value in s.staging && !RowOf(s, t).cancelRequested
    ensures Reachable(s')
    ensures var a, k := s.attempts[t], s.attempts[t].take.value;
      s' == AtPc(s, t, AtCommit).(staging := s.staging[k := s.staging[k].(meta := Some(TakeMeta(Some(a.job), None)))])
  {
    hide Reachable;
    var s1 := AtPc(s, t, AtMeta);
    ExtendAttempt(s, t, ThirdCheck, s1);
    var a, k := s.attempts[t], s.attempts[t].take.value;
    s' := AtPc(s1, t, AtCommit).(staging := s.staging[k := s.staging[k].(meta := Some(TakeMeta(Some(a.job), None)))]);
    WritesMeta(s1, t, s');
    assert s'.attempts == AtPc(s, t, AtCommit).attempts;
  }

  lemma WritesMeta(s: Sys, t: Token, s': Sys)
    requires Reachable(s) && WriteMetaStep(s, t, s')
    ensures Reachable(s')
  {
    ExtendAttempt(s, t, WriteMeta, s');
  }

  /** One job in one project, claimed, rendered and staged. */
  predicate Committing(s: Sys, intent: Intent, record: Record) {
    && s.jobs == map[0 := Claimed(FreshRow(intent, None), 0, 0).(resolved := Some(record))]
    && s.projects == map[0 := Project(map[], None)] && s.tombstones == {} && s.damaged == {}
    && s.attempts == map[0 := Attempt(0, 0, None, AtCommit, None, Some(0), Some(record))]
    && s.staging == map[0 := Staged(0, Some(Owner(0, 0)), Some(TakeMeta(Some(0), None)))]
  }

  lemma JobCommits(intent: Intent, record: Record) returns (s: Sys)
    ensures Reachable(s) && Committing(s, intent, record)
  {
    hide Reachable;
    var s1 := JobIsQueued(intent);
    var s2 := RendersOf(s1, 0, 0, 0, record);
    s := Stages(s2, 0);
  }

  lemma Publishes(s: Sys, intent: Intent, record: Record, outcome: CommitOutcome, s': Sys)
    requires Reachable(s) && Committing(s, intent, record) && PublishStep(s, 0, outcome, 0, s')
    ensures Reachable(s')
  {
    hide Reachable;
    ExtendAttempt(s, 0, Commit(outcome, 0), s');
  }

  lemma Handles(s: Sys, t: Token, s': Sys)
    requires Reachable(s) && HandleFailureStep(s, t, s')
    ensures Reachable(s')
  {
    ExtendAttempt(s, t, HandleFailure, s');
  }

  lemma Cancels(s: Sys, t: Token, s': Sys)
    requires Reachable(s) && MarkCancelledStep(s, t, 0, s')
    ensures Reachable(s')
  {
    ExtendAttempt(s, t, MarkCancelled(0), s');
  }

  lemma Activates(s: Sys, t: Token, s': Sys)
    requires Reachable(s) && ActivateStep(s, t, true, s')
    ensures Reachable(s')
  {
    ExtendAttempt(s, t, Activate(true), s');
  }

  lemma Overwrites(s: Sys, t: Token, text: string, s': Sys)
    requires Reachable(s) && WriteErrorTakeStep(s, t, text, true, s')
    ensures Reachable(s')
  {
    ExtendAttempt(s, t, WriteErrorTake(text, true), s');
  }

  /** Attempt 0 of job 0 is in its failure handler, its take in the project. */
  predicate Handling(s: Sys, r: Row) {
    && s.jobs == map[0 := r] && s.projects == map[0 := Project(map[0 := TakeMeta(Some(0), None)], None)]
    && 0 in s.attempts && s.attempts[0].job == 0 && s.attempts[0].project == 0
    && s.attempts[0].pc == AtFailure && s.attempts[0].take == Some(0)
    && s.staging == map[] && s.tombstones == {} && s.damaged == {}
  }

  /** The rename went through, its SQL half was rolled back. */
  lemma RaisesAfterRename(intent: Intent, record: Record) returns (s': Sys)
    ensures Reachable(s') && Handling(s', Claimed(FreshRow(intent, None), 0, 0).(resolved := Some(record)))
  {
    hide Reachable;
    var s := JobCommits(intent, record);
    s' := AtPc(PutTake(Discard(s, Some(0)), 0, 0, TakeMeta(Some(0), None)).(overwritten := s.overwritten + {0}), 0, AtFailure);
    Publishes(s, intent, record, RaisedAfter, s');
  }

  /** Both halves went through, and then the activation raised. */
  lemma RaisesAfterCommit(intent: Intent, record: Record) returns (s': Sys)
    ensures Reachable(s')
    ensures Handling(s', CommittedDone(Claimed(FreshRow(intent, None), 0, 0).(resolved := Some(record)), 0, 0))
  {
    hide Reachable;
    var s := JobCommits(intent, record);
    var s1 := AtPc(SetRow(PutTake(Discard(s, Some(0)), 0, 0, TakeMeta(Some(0), None)), 0, CommittedDone(s.jobs[0], 0, 0)),
                   0, AtActivate);
    Publishes(s, intent, record, Published, s1);
    s' := AtPc(s1, 0, AtFailure).(overwritten := s1.overwritten + {0});
    Activates(s1, 0, s');
  }

  lemma CancelsHandled(s: Sys, r: Row) returns (s': Sys)
    requires Reachable(s) && Handling(s, r) && r.status == Running && r.token == Some(0) && !r.cancelRequested
    ensures Reachable(s') && 0 in s'.jobs && s'.jobs[0].status == Cancelled && Found(s', 0, 0, 0)
  {
    hide Reachable;
    var s1 := SetRow(s, 0, CancelRequested(r, 0));
    Extend(s, OnRow(0, RequestCancel, 0), s1);
    var s2 := AtPc(Discard(s1, Some(0)), 0, AtCancel);
    Handles(s1, 0, s2);
    s' := EndAttempt(SetRow(s2, 0, MarkedCancelled(s2.jobs[0], Some(0), 0)), 0);
    Cancels(s2, 0, s');
  }

  /** A job that is cancelled and has a good take: its commit raised between the rename and the SQL
      half, and a cancel landed before the handler looked. */
  lemma CancelledJobWithTake(intent: Intent, record: Record)
    ensures exists s: Sys :: Reachable(s) && 0 in s.jobs && s.jobs[0].status == Cancelled && Found(s, 0, 0, 0)
  {
    hide Reachable;
    var s1 := RaisesAfterRename(intent, record);
    var s := CancelsHandled(s1, s1.jobs[0]);
    assert Reachable(s) && 0 in s.jobs && s.jobs[0].status == Cancelled && Found(s, 0, 0, 0);
  }

  lemma OverwritesHandled(s: Sys, r: Row, text: string) returns (s': Sys)
    requires Reachable(s) && Handling(s, r) && !r.cancelRequested
    ensures Reachable(s') && s'.jobs == s.jobs && s'.damaged == {}
    ensures 0 in s'.projects && 0 in s'.projects[0].takes && s'.projects[0].takes[0].error == Some(text)
  {
    hide Reachable;
    var s1 := AtPc(Discard(s, Some(0)), 0, AtErrorTake);
    Handles(s, 0, s1);
    s' := PutTake(AtPc(s1, 0, AtErrorRow), 0, 0, TakeMeta(Some(0), Some(text)));
    Overwrites(s1, 0, text, s');
  }

  /** The named take of a done job is an error take. */
  predicate Lost(s: Sys, j: JobId, text: string) {
    && j in s.jobs && s.jobs[j].status == Done && s.jobs[j].takeId.Some?
    && var p, k := s.jobs[j].project, s.jobs[j].takeId.value;
    && p in s.projects && p !in s.damaged && k in s.projects[p].takes && s.projects[p].takes[k].error == Some(text)
  }

  /** A done job whose take is an error take: the activation raised after the commit. */
  lemma DoneJobLosesTake(intent: Intent, record: Record, text: string)
    ensures exists s: Sys :: Reachable(s) && Lost(s, 0, text)
  {
    hide Reachable;
    var s1 := RaisesAfterCommit(intent, record);
    var s := OverwritesHandled(s1, s1.jobs[0], text);
    assert Reachable(s) && Lost(s, 0, text);
  }

  // ---- a retry that misses its inheritance ----

  /** One project; job 0 in it rendered once and then expired. */
  lemma JobIsExpired(intent: Intent, record: Record) returns (s: Sys)
    ensures Reachable(s) && s.projects == map[0 := Project(map[], None)] && s.created == {0}
    ensures s.tombstones == {} && s.removals == map[] && s.copying == {} && s.originals == {}
    ensures s.inherited == map[] && 1 !in s.issued && 1 !in s.takeIds
    ensures s.jobs.Keys == {0} && s.jobs[0].status == Failed && s.jobs[0].snapshot == Some(intent)
    ensures s.jobs[0].resolved == Some(record)
  {
    hide Reachable;
    var s1 := JobIsQueued(intent);
    var s2 := RendersOf(s1, 0, 0, 0, record);
    assert s2.jobs[0] == Claimed(FreshRow(intent, None), 0, 0).(resolved := Some(record));
    s := SetRow(s2, 0, Expired(s2.jobs[0], "deadline", 0));
    Extend(s2, OnRow(0, ExpireError("deadline"), 0), s);
  }

  /** Its retry, between the two transactions. */
  lemma RetryIsPending(intent: Intent, record: Record) returns (s: Sys)
    ensures Reachable(s) && s.projects == map[0 := Project(map[], None)] && s.tombstones == {} && s.removals == map[]
    ensures 1 in s.jobs && s.jobs[1] == FreshRow(intent, Some(0))
    ensures 1 in s.copying && 1 in s.inherited && s.inherited[1] == Original(0, Some(intent), Some(record), true)
    ensures 1 !in s.issued && 1 !in s.takeIds
  {
    hide Reachable;
    var s1 := JobIsExpired(intent, record);
    var o := Original(0, Some(intent), Some(record), true);
    var s2 := s1.(originals := s1.originals + {o});
    Extend(s1, ReadOriginal(o), s2);
    var row := FreshRow(intent, Some(0));
    s := SetRow(s2, 1, row).(copying := s2.copying + {1}, inherited := s2.inherited[1 := o]);
    Extend(s2, RetryEnqueue(1, row, o), s);
  }

  function AfterBegin(s: Sys, p: ProjectId): Sys {
    s.(tombstones := s.tombstones + {p}, jobs := DeletionCancelledAll(s.jobs, p, 0),
       removals := s.removals[p := Removal(QueuedIn(s.jobs, p), false)])
  }

  lemma Begins(s: Sys, p: ProjectId)
    requires Reachable(s) && p in s.projects && p !in s.tombstones
    ensures Reachable(AfterBegin(s, p))
  {
    hide Reachable;
    Extend(s, BeginDeletion(p, 0), AfterBegin(s, p));
  }

  lemma NothingToKeep(project: Project, kept: set<TakeId>)
    ensures project.takes.Keys <= kept ==>
      project == project.(takes := map k | k in project.takes && k in kept :: project.takes[k])
  {
  }

  /** The directory cannot be removed, which costs an empty project nothing, and the deletion is
      called off. */
  lemma FailsAndAborts(s: Sys, p: ProjectId) returns (s1: Sys, s2: Sys)
    requires Reachable(s) && p in s.removals && !s.removals[p].failed && p in s.projects && s.projects[p].takes == map[]
    ensures Next(s, RemovalFails(p, Some({})), s1) && Next(s1, AbortDeletion(p, 0), s2) && Reachable(s2)
    ensures s1.jobs == s.jobs && s1.removals.Keys == s.removals.Keys
    ensures s2.jobs == DeletionRestoredAll(s.jobs, s.removals[p].cancelled, 0) && s2.projects == s.projects
    ensures s2.tombstones == s.tombstones - {p} && s2.issued == s.issued && s2.takeIds == s.takeIds
    ensures s2.inherited == s.inherited && s2.copying == s.copying && s2.renders == s.renders
  {
    hide Reachable;
    var project := s.projects[p];
    NothingToKeep(project, {});
    s1 := s.(removals := s.removals[p := s.removals[p].(failed := true)], damaged := s.damaged + {p});
    assert s.projects == s.projects[p := project];
    Extend(s, RemovalFails(p, Some({})), s1);
    s2 := s1.(tombstones := s1.tombstones - {p}, jobs := DeletionRestoredAll(s1.jobs, s1.removals[p].cancelled, 0),
              removals := s1.removals - {p});
    Extend(s1, AbortDeletion(p, 0), s2);
  }

  /** The copy comes while a deletion holds the row, and lands nowhere. */
  lemma CopyMisses(s: Sys, intent: Intent) returns (s': Sys)
    requires Reachable(s) && 1 in s.copying && 1 in s.inherited && 1 in s.jobs && s.jobs[1].status == Failed
    ensures Reachable(s') && s' == s.(copying := s.copying - {1}, missed := s.missed + {1})
  {
    hide Reachable;
    s' := s.(copying := s.copying - {1}, missed := s.missed + {1});
    assert s.jobs == s.jobs[1 := WithCopiedRequest(s.jobs[1], s.inherited[1].snapshot, s.inherited[1].resolved)];
    Extend(s, RetryCopy(1), s');
  }

  /** A retry of a job with a frozen record can render another one: a deletion holds its row when the
      copy comes, and is then called off. */
  lemma MissedRetryRendersAnother(intent: Intent, record: Record, record': Record)
    ensures exists s: Sys ::
      && Reachable(s) && 1 in s.inherited && s.inherited[1].resolved == Some(record)
      && Render(1, 1, record') in s.renders
  {
    hide Reachable, IsRun, Next;
    var s1 := RetryIsPending(intent, record);
    Begins(s1, 0);
    var s2 := AfterBegin(s1, 0);
    var s3 := CopyMisses(s2, intent);
    var s4, s5 := FailsAndAborts(s3, 0);
    assert 1 in QueuedIn(s1.jobs, 0);
    var s := RendersOf(s5, 1, 1, 1, record');
    assert Reachable(s) && 1 in s.inherited && s.inherited[1].resolved == Some(record)
      && Render(1, 1, record') in s.renders;
  }

  // ---- a training job whose stale attempt fails ----

  /** One project and one running training job in it. */
  lemma TrainingIsClaimed(intent: Intent) returns (s: Sys)
    ensures Reachable(s) && s.projects == map[0 := Project(map[], None)] && s.tombstones == {}
    ensures s.jobs == map[0 := Claimed(FreshRow(intent, None).(kind := TrainLora), 0, 0)]
  {
    hide Reachable;
    Start();
    var s1 := INITIAL.(created := {0}, projects := map[0 := Project(map[], None)]);
    assert s1 == INITIAL.(created := INITIAL.created + {0}, projects := INITIAL.projects[0 := Project(map[], None)]);
    Extend(INITIAL, CreateProject(0), s1);
    var row := FreshRow(intent, None).(kind := TrainLora);
    var s2 := SetRow(s1, 0, row);
    Extend(s1, Enqueue(0, row), s2);
    s := AfterClaim(s2, 0, 0, 0);
    Extend(s2, Claim(0, 0, 0), s);
  }

  /** Its attempt loses its lease, and the job is queued again. */
  lemma TrainingIsRequeued(intent: Intent) returns (s: Sys)
    ensures Reachable(s) && s.projects == map[0 := Project(map[], None)] && s.tombstones == {}
    ensures s.jobs.Keys == {0} && s.jobs[0].status == Queued && s.jobs[0].kind == TrainLora
    ensures s.jobs[0].project == 0 && s.jobs[0].attempts == 1
  {
    hide Reachable;
    var s1 := TrainingIsClaimed(intent);
    var now := STALE_AFTER + 1;
    s := SetRow(s1, 0, Reclaimed(s1.jobs[0], now));
    Extend(s1, OnRow(0, Reclaim(STALE_AFTER), now), s);
  }

  /** A queued training job that an aborted deletion does not give back: its stale attempt failed in
      between. */
  lemma AbortLosesTraining(intent: Intent, message: string)
    requires message != PROJECT_DELETED
    ensures exists s: Sys, s1: Sys, s2: Sys, s3: Sys, s4: Sys ::
      && Reachable(s) && 0 in s.jobs && s.jobs[0].status == Queued
      && Next(s, BeginDeletion(0, 0), s1) && Next(s1, OnRow(0, TrainError(message), 0), s2)
      && Next(s2, RemovalFails(0, Some({})), s3) && Next(s3, AbortDeletion(0, 0), s4)
      && 0 in s4.jobs && s4.jobs[0].status == Failed
  {
    var s := TrainingIsRequeued(intent);
    hide Reachable;
    var s1 := AfterBegin(s, 0);
    Begins(s, 0);
    var s2 := SetRow(s1, 0, SetFailed(s1.jobs[0], None, None, message, 0));
    Extend(s1, OnRow(0, TrainError(message), 0), s2);
    assert Next(s, BeginDeletion(0, 0), s1) && Next(s1, OnRow(0, TrainError(message), 0), s2);
    hide Next;
    var s3, s4 := FailsAndAborts(s2, 0);
    assert s4.jobs[0].status == Failed;
  }
}
