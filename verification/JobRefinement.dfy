/** The queue's in-place operations stay inside the protocol: what each does to a reachable state is
    what some steps of the protocol do. So everything proved of every run holds of them. */
module JobRefinement {
  import opened Common
  import opened CreationTypes
  import opened JobRows
  import opened JobProtocol
  import opened JobInvariant
  import opened JobSteps
  import opened JobHeld
  import opened JobQueue
  import opened JobRace

  lemma RowStep(s: Sys, j: JobId, u: RowUpdate, now: Time)
    requires Reachable(s) && j in s.jobs && Allowed(s.jobs[j], u, s.tombstones, now)
    ensures Reachable(SetRow(s, j, Updated(s.jobs[j], u, now)))
  {
    hide Reachable, Allowed, Updated;
    Extend(s, OnRow(j, u, now), SetRow(s, j, Updated(s.jobs[j], u, now)));
  }

  lemma ReachableIsOk(s: Sys)
    requires Reachable(s)
    ensures HeldOk(s) && Created(s)
  {
    hide Next, HeldOk, Created;
    var run, steps :| IsRun(run, steps) && run[|run| - 1] == s;
    RunKeepsHeld(run, steps, |run| - 1);
    RunKeepsInv(run, steps, |run| - 1);
  }

  // ---- clients ----

  /** What `Enqueue` inserts is a protocol submission. */
  lemma EnqueueIsInProtocol(s: Sys, id: JobId, row: Row)
    requires Reachable(s) && id !in s.jobs && NewRow(row) && row.project in s.projects && row.project !in s.tombstones
    requires row.retryOf.Some? ==> row.retryOf.value in s.jobs && Unsnapshotted(s.jobs[row.retryOf.value])
    ensures Reachable(SetRow(s, id, row))
  {
    hide Reachable, HeldOk, NewRow;
    ReachableIsOk(s);
    assert row.project in s.created;
    Extend(s, Enqueue(id, row), SetRow(s, id, row));
  }

  /** What `CancelJob` does is a protocol cancel. */
  lemma CancelIsInProtocol(s: Sys, j: JobId, now: Time)
    requires Reachable(s) && j in s.jobs
    ensures Reachable(SetRow(s, j, CancelRequested(s.jobs[j], now)))
  {
    hide Reachable;
    RowStep(s, j, RequestCancel, now);
  }

  lemma EndedRetryIsInProtocol(s: Sys, j: JobId, id: JobId, row: Row) returns (s': Sys)
    requires Reachable(s) && j in s.jobs && (s.jobs[j].status == Failed || s.jobs[j].status == Cancelled)
    requires id !in s.jobs && NewRow(row) && row.retryOf == Some(j)
    requires row.project in s.projects && row.project !in s.tombstones
    ensures Reachable(s') && s'.jobs == s.jobs[id := WithCopiedRequest(row, s.jobs[j].snapshot, s.jobs[j].resolved)]
    ensures s'.tombstones == s.tombstones && s'.projects == s.projects && s'.staging == s.staging
  {
    hide Reachable, HeldOk, WithCopiedRequest;
    ReachableIsOk(s);
    assert row.project in s.created;
    var o := Original(j, s.jobs[j].snapshot, s.jobs[j].resolved, j !in s.copying);
    var s1 := s.(originals := s.originals + {o});
    Extend(s, ReadOriginal(o), s1);
    var s2 := SetRow(s1, id, row).(copying := s1.copying + {id}, inherited := s1.inherited[id := o]);
    Extend(s1, RetryEnqueue(id, row, o), s2);
    s' := SetRow(s2, id, WithCopiedRequest(row, o.snapshot, o.resolved)).(copying := s2.copying - {id});
    CopyIsReachable(s2, id, s');
  }

  lemma CopyIsReachable(s: Sys, j: JobId, s': Sys)
    requires Reachable(s) && RetryCopyStep(s, j, s')
    ensures Reachable(s')
  {
    hide Reachable, RetryCopyStep;
    Extend(s, RetryCopy(j), s');
  }

  lemma HeldRetryIsInProtocol(s: Sys, j: JobId, id: JobId, row: Row, now: Time) returns (s': Sys)
    requires Reachable(s) && j in s.jobs && IsHeld(s.jobs[j]) && id !in s.jobs && NewRow(row) && row.retryOf == Some(j)
    requires row.project in s.projects && row.project !in s.tombstones
    ensures Reachable(s') && s'.jobs == s.jobs[j := MarkedCancelled(s.jobs[j], None, now)][id := row]
    ensures s'.tombstones == s.tombstones && s'.projects == s.projects && s'.staging == s.staging
  {
    ReachableIsOk(s);
    assert Unsnapshotted(s.jobs[j]);
    hide Reachable, HeldOk, NewRow;
    RowStep(s, j, DropHeld, now);
    var s1 := SetRow(s, j, MarkedCancelled(s.jobs[j], None, now));
    EnqueueIsInProtocol(s1, id, row);
    s' := SetRow(s1, id, row);
  }

  /** What a `RetryJob` that is accepted leaves of the rows, by its contract, is what protocol steps
      leave: the drop of a held job and a submission, or the two transactions of a retry. */
  lemma RetryIsInProtocol(s: Sys, j: JobId, id: JobId, row: Row, now: Time, jobs': Jobs) returns (s': Sys)
    requires Reachable(s) && j in s.jobs && id !in s.jobs && NewRow(row) && row.retryOf == Some(j)
    requires row.project in s.projects && row.project !in s.tombstones
    requires s.jobs[j].status == Failed || s.jobs[j].status == Cancelled || IsHeld(s.jobs[j])
    requires jobs'.Keys == s.jobs.Keys + {id} && forall i | i in s.jobs && i != j :: jobs'[i] == s.jobs[i]
    requires
      if IsHeld(s.jobs[j]) then
        && jobs'[id] == row && EndedCancelled(jobs'[j], s.tombstones) && SameButOutcome(s.jobs[j], jobs'[j])
        && jobs'[j].updatedAt == now
      else
        && jobs'[j] == s.jobs[j] && jobs'[id].resolved == s.jobs[j].resolved
        && jobs'[id].snapshot == (if s.jobs[j].snapshot.Some? then s.jobs[j].snapshot else row.snapshot)
        && jobs'[id] == row.(resolved := jobs'[id].resolved, snapshot := jobs'[id].snapshot)
    ensures Reachable(s') && s'.jobs == jobs'
    ensures s'.tombstones == s.tombstones && s'.projects == s.projects && s'.staging == s.staging
  {
    hide Reachable;
    if IsHeld(s.jobs[j]) {
      s' := HeldRetryIsInProtocol(s, j, id, row, now);
    } else {
      s' := EndedRetryIsInProtocol(s, j, id, row);
    }
  }

  // ---- deletion ----

  lemma BeginIsReachable(s: Sys, p: ProjectId, now: Time, s': Sys)
    requires Reachable(s) && BeginDeletionStep(s, p, now, s')
    ensures Reachable(s')
  {
    hide Reachable, BeginDeletionStep;
    Extend(s, BeginDeletion(p, now), s');
  }

  lemma FailureIsReachable(s: Sys, p: ProjectId, kept: Option<set<TakeId>>, s': Sys)
    requires Reachable(s) && RemovalFailsStep(s, p, kept, s')
    ensures Reachable(s')
  {
    hide Reachable, RemovalFailsStep;
    Extend(s, RemovalFails(p, kept), s');
  }

  lemma AbortIsReachable(s: Sys, p: ProjectId, now: Time, s': Sys)
    requires Reachable(s) && AbortDeletionStep(s, p, now, s')
    ensures Reachable(s')
  {
    hide Reachable, AbortDeletionStep;
    Extend(s, AbortDeletion(p, now), s');
  }

  lemma KeepsAllTakes(s: Sys, p: ProjectId)
    requires p in s.projects
    ensures var project := s.projects[p];
      s.projects == s.projects[p := project.(takes := map k | k in project.takes && k in project.takes.Keys
                                               :: project.takes[k])]
  {
    var project := s.projects[p];
    var kept := map k | k in project.takes && k in project.takes.Keys :: project.takes[k];
    assert kept == project.takes && project == project.(takes := kept);
  }

  /** `RemoveProject` is a protocol deletion: begun and completed, or begun, failed without touching a
      take, and aborted. */
  lemma RemovalIsInProtocol(s: Sys, p: ProjectId, removed: bool, now: Time) returns (s': Sys)
    requires Reachable(s) && p in s.projects && p !in s.tombstones
    ensures Reachable(s') && s'.staging == s.staging
    ensures removed ==>
      && s'.jobs == DeletionCancelledAll(s.jobs, p, now) && s'.tombstones == s.tombstones + {p}
      && s'.projects == s.projects - {p}
    ensures !removed ==>
      && s'.jobs == DeletionRestoredAll(DeletionCancelledAll(s.jobs, p, now), QueuedIn(s.jobs, p), now)
      && s'.tombstones == s.tombstones && s'.projects == s.projects
  {
    hide Reachable;
    var s1 := s.(tombstones := s.tombstones + {p}, jobs := DeletionCancelledAll(s.jobs, p, now),
                 removals := s.removals[p := Removal(QueuedIn(s.jobs, p), false)]);
    BeginIsReachable(s, p, now, s1);
    if removed {
      s' := s1.(projects := s1.projects - {p}, removals := s1.removals - {p});
      Extend(s1, RemoveDirectory(p), s');
    } else {
      s' := FailedRemovalIsInProtocol(s1, p, now);
      assert s'.tombstones == s.tombstones;
    }
  }

  lemma FailedRemovalIsInProtocol(s: Sys, p: ProjectId, now: Time) returns (s': Sys)
    requires Reachable(s) && p in s.removals && !s.removals[p].failed && p in s.projects
    ensures Reachable(s') && s'.staging == s.staging && s'.projects == s.projects && s'.tombstones == s.tombstones - {p}
    ensures s'.jobs == DeletionRestoredAll(s.jobs, s.removals[p].cancelled, now)
  {
    hide Reachable;
    var s1 := s.(removals := s.removals[p := s.removals[p].(failed := true)], damaged := s.damaged + {p});
    KeepsAllTakes(s, p);
    FailureIsReachable(s, p, Some(s.projects[p].takes.Keys), s1);
    s' := s1.(tombstones := s1.tombstones - {p}, jobs := DeletionRestoredAll(s1.jobs, s1.removals[p].cancelled, now),
              removals := s1.removals - {p});
    AbortIsReachable(s1, p, now, s');
  }

  // ---- reclaim ----

  /** `ReclaimStaleJobs` is one protocol reclaim for each stale row. */
  lemma {:induction false} ReclaimIsInProtocol(s: Sys, looked: set<JobId>, staleAfter: int, now: Time)
    requires Reachable(s) && looked <= s.jobs.Keys
    ensures Reachable(s.(jobs := ReclaimedAll(s.jobs, looked, staleAfter, now)))
    decreases looked
  {
    hide Reachable;
    if looked == {} {
      assert s.jobs == ReclaimedAll(s.jobs, {}, staleAfter, now);
      assert s == s.(jobs := ReclaimedAll(s.jobs, {}, staleAfter, now));
    } else {
      var j :| j in looked;
      ReclaimIsInProtocol(s, looked - {j}, staleAfter, now);
      ReclaimsOne(s.jobs, looked - {j}, staleAfter, now, j);
      assert looked - {j} + {j} == looked;
      var s1 := s.(jobs := ReclaimedAll(s.jobs, looked - {j}, staleAfter, now));
      if Reclaimable(s.jobs[j], staleAfter, now) {
        RowStep(s1, j, Reclaim(staleAfter), now);
      }
    }
  }

  // ---- claim ----

  /** The rows that differ. */
  function Changed(jobs: Jobs, jobs': Jobs): set<JobId> {
    set j | j in jobs && j in jobs' && jobs'[j] != jobs[j]
  }

  lemma NothingChanged(jobs: Jobs, jobs': Jobs)
    requires jobs'.Keys == jobs.Keys && Changed(jobs, jobs') == {}
    ensures jobs' == jobs
  {
    forall j | j in jobs
      ensures jobs'[j] == jobs[j]
    {
      assert j !in Changed(jobs, jobs');
    }
  }

  /** Of the rows that were held, `j` was held last. */
  lemma HeldLast(jobs: Jobs, jobs': Jobs, tombstones: set<ProjectId>, now: Time, j: JobId)
    requires OnlyHeld(jobs, jobs', tombstones, now, None) && j in Changed(jobs, jobs')
    ensures var before := jobs'[j := jobs[j]];
      && OnlyHeld(jobs, before, tombstones, now, None) && Changed(jobs, before) == Changed(jobs, jobs') - {j}
      && Claimable(before[j], tombstones) && Unsnapshotted(before[j])
      && jobs' == before[j := HeldForConfirmation(before[j], now)]
  {
    hide Claimable, Unsnapshotted, HeldForConfirmation;
  }

  /** What `ClaimNextQueuedJob` holds on the way are protocol holds. */
  lemma {:induction false} HoldsAreInProtocol(s: Sys, jobs': Jobs, now: Time)
    requires Reachable(s) && OnlyHeld(s.jobs, jobs', s.tombstones, now, None)
    ensures Reachable(s.(jobs := jobs'))
    decreases Changed(s.jobs, jobs')
  {
    hide Reachable, OnlyHeld, Claimable, Unsnapshotted, HeldForConfirmation;
    var changed := Changed(s.jobs, jobs');
    if changed == {} {
      HeldKeys(s.jobs, jobs', s.tombstones, now);
      NothingChanged(s.jobs, jobs');
      assert s == s.(jobs := jobs');
    } else {
      var j :| j in changed;
      HeldLast(s.jobs, jobs', s.tombstones, now, j);
      HoldsAreInProtocol(s, jobs'[j := s.jobs[j]], now);
      RowStep(s.(jobs := jobs'[j := s.jobs[j]]), j, Hold, now);
    }
  }

  lemma HeldKeys(jobs: Jobs, jobs': Jobs, tombstones: set<ProjectId>, now: Time)
    requires OnlyHeld(jobs, jobs', tombstones, now, None)
    ensures jobs'.Keys == jobs.Keys
  {
  }

  lemma ClaimIsReachable(s: Sys, j: JobId, t: Token, now: Time)
    requires Reachable(s) && j in s.jobs && ClaimStep(s, j, t, now, AfterClaim(s, j, t, now))
    ensures Reachable(AfterClaim(s, j, t, now))
  {
    hide Reachable, ClaimStep, AfterClaim;
    Extend(s, Claim(j, t, now), AfterClaim(s, j, t, now));
  }

  lemma HeldBeforeClaim(jobs: Jobs, jobs': Jobs, tombstones: set<ProjectId>, now: Time, c: JobId)
    requires OnlyHeld(jobs, jobs', tombstones, now, Some(c)) && c in jobs
    ensures c in jobs' && OnlyHeld(jobs, jobs'[c := jobs[c]], tombstones, now, None)
  {
  }

  /** And what it claims is a protocol claim. */
  lemma ClaimIsInProtocol(s: Sys, jobs': Jobs, c: JobId, token: Token, now: Time) returns (s': Sys)
    requires Reachable(s) && token !in s.issued
    requires OnlyHeld(s.jobs, jobs', s.tombstones, now, Some(c))
    requires c in s.jobs && Claimable(s.jobs[c], s.tombstones) && !Unsnapshotted(s.jobs[c])
    requires jobs'[c] == Claimed(s.jobs[c], token, now)
    ensures Reachable(s') && s'.jobs == jobs' && s'.issued == s.issued[token := c]
    ensures s'.tombstones == s.tombstones && s'.projects == s.projects && s'.staging == s.staging
  {
    HeldBeforeClaim(s.jobs, jobs', s.tombstones, now, c);
    var held := jobs'[c := s.jobs[c]];
    hide Reachable, Claimable, Unsnapshotted, HeldForConfirmation, Claimed, OnlyHeld;
    HoldsAreInProtocol(s, held, now);
    s' := AfterClaim(s.(jobs := held), c, token, now);
    ClaimIsReachable(s.(jobs := held), c, token, now);
  }

  // ---- commit ----

  /** `s'` shows what the commit left of the database and the disk. */
  predicate Shows(s': Sys, jobs: Jobs, projects: map<ProjectId, Project>, staging: map<TakeId, Staged>) {
    s'.jobs == jobs && s'.projects == projects && s'.staging == staging
  }

  lemma CommitStepIsReachable(s: Sys, t: Token, now: Time, s': Sys)
    requires Reachable(s) && CommitStep(s, t, Published, now, s')
    ensures Reachable(s')
  {
    hide Reachable, CommitStep;
    ExtendAttempt(s, t, Commit(Published, now), s');
  }

  lemma ActivateIsReachable(s: Sys, t: Token, s': Sys)
    requires Reachable(s) && ActivateStep(s, t, false, s')
    ensures Reachable(s')
  {
    hide Reachable, ActivateStep;
    ExtendAttempt(s, t, Activate(false), s');
  }

  lemma NoGoodTake(s: Sys, p: ProjectId, j: JobId)
    requires p in s.projects
    ensures NoneFound(s, p, j) <==> !exists e :: GoodTake(s.projects[p], e, j)
  {
    if e :| GoodTake(s.projects[p], e, j) {
      assert Found(s, p, j, e);
    }
  }

  /** A commit that publishes nothing of its own is one protocol step. */
  lemma RefusedCommitIsInProtocol(s: Sys, t: Token, now: Time, r: CommitResult, jobs': Jobs,
                                  projects': map<ProjectId, Project>, staging': map<TakeId, Staged>) returns (s': Sys)
    requires Reachable(s) && HasAttempt(s, t, AtCommit) && s.attempts[t].take.Some?
    requires CommitEffect(s.jobs, s.tombstones, s.projects, s.staging, s.attempts[t].job, t, s.attempts[t].project,
                          s.attempts[t].take.value, now, r, jobs', projects', staging')
    requires !MayCommit(s, t) || r == NoStagedMeta
    ensures Reachable(s') && Shows(s', jobs', projects', staging')
  {
    var a, row := s.attempts[t], RowOf(s, t);
    CommittedIsGood(s.projects, a.project, a.job);
    hide HasCommitted;
    if !Owns(row, t) {
      s' := Fenced(s, t);
    } else if row.cancelRequested {
      s' := SetAttempt(Discard(s, a.take), t, a.(pc := AtCancel, take := None));
    } else if !MayCommit(s, t) {
      s' := SetAttempt(Discard(s, a.take), t, a.(pc := AtErrorRow, take := None));
    } else {
      NoGoodTake(s, a.project, a.job);
      s' := AtPc(Discard(s, a.take), t, AtFailure);
    }
    hide Reachable;
    CommitStepIsReachable(s, t, now, s');
  }

  /** One that finishes with an earlier take is one protocol step, and one that publishes is the
      rename and the activation. */
  lemma CommitIsInProtocol(s: Sys, t: Token, now: Time, r: CommitResult, jobs': Jobs,
                           projects': map<ProjectId, Project>, staging': map<TakeId, Staged>) returns (s': Sys)
    requires Reachable(s) && HasAttempt(s, t, AtCommit) && s.attempts[t].take.Some?
    requires CommitEffect(s.jobs, s.tombstones, s.projects, s.staging, s.attempts[t].job, t, s.attempts[t].project,
                          s.attempts[t].take.value, now, r, jobs', projects', staging')
    ensures Reachable(s') && Shows(s', jobs', projects', staging')
  {
    CommittedIsGood(s.projects, s.attempts[t].project, s.attempts[t].job);
    hide HasCommitted;
    if !MayCommit(s, t) || r == NoStagedMeta {
      s' := RefusedCommitIsInProtocol(s, t, now, r, jobs', projects', staging');
    } else {
      NoGoodTake(s, s.attempts[t].project, s.attempts[t].job);
      if NoneFound(s, s.attempts[t].project, s.attempts[t].job) {
        s' := PublishedIsInProtocol(s, t, now, jobs', projects', staging', r);
      } else {
        s' := EarlierIsInProtocol(s, t, now, jobs', projects', staging', r);
      }
    }
  }

  lemma EarlierIsInProtocol(s: Sys, t: Token, now: Time, jobs': Jobs, projects': map<ProjectId, Project>,
                            staging': map<TakeId, Staged>, r: CommitResult) returns (s': Sys)
    requires Reachable(s) && HasAttempt(s, t, AtCommit) && s.attempts[t].take.Some? && MayCommit(s, t)
    requires r.Committed? && GoodTake(s.projects[s.attempts[t].project], r.take, s.attempts[t].job)
    requires jobs' == s.jobs[s.attempts[t].job := CommittedDone(RowOf(s, t), r.take, now)]
    requires projects' == s.projects && staging' == s.staging - {s.attempts[t].take.value}
    ensures Reachable(s') && Shows(s', jobs', projects', staging')
  {
    var a := s.attempts[t];
    assert Found(s, a.project, a.job, r.take);
    s' := EndAttempt(Discard(SetRow(s, a.job, CommittedDone(RowOf(s, t), r.take, now)), a.take), t);
    hide Reachable;
    CommitStepIsReachable(s, t, now, s');
  }

  lemma PublishedIsInProtocol(s: Sys, t: Token, now: Time, jobs': Jobs, projects': map<ProjectId, Project>,
                              staging': map<TakeId, Staged>, r: CommitResult) returns (s': Sys)
    requires Reachable(s) && HasAttempt(s, t, AtCommit) && s.attempts[t].take.Some? && MayCommit(s, t)
    requires NoneFound(s, s.attempts[t].project, s.attempts[t].job)
    requires var k, p := s.attempts[t].take.value, s.attempts[t].project;
      && k in s.staging && s.staging[k].meta.Some?
      && jobs' == s.jobs[s.attempts[t].job := CommittedDone(RowOf(s, t), k, now)]
      && staging' == s.staging - {k}
      && projects' == s.projects[p := Activated(
           s.projects[p].(takes := s.projects[p].takes[k := s.staging[k].meta.value]), k)]
    ensures Reachable(s') && Shows(s', jobs', projects', staging')
  {
    var a, row := s.attempts[t], RowOf(s, t);
    var k := a.take.value;
    var renamed := PutTake(Discard(s, a.take), a.project, k, s.staging[k].meta.value);
    var s1 := AtPc(SetRow(renamed, a.job, CommittedDone(row, k, now)), t, AtActivate);
    s' := EndAttempt(s1, t).(projects := s1.projects[a.project := Activated(s1.projects[a.project], k)]);
    hide Reachable;
    CommitStepIsReachable(s, t, now, s1);
    ActivateIsReachable(s1, t, s');
  }

  // ---- cleanup ----

  lemma DiscardIsReachable(s: Sys, k: TakeId)
    requires Reachable(s) && s.doomed == {} && k in s.staging && !OwnerAlive(s.jobs, s.staging[k].owner)
    ensures Reachable(s.(staging := s.staging - {k}))
  {
    hide Reachable, OwnerAlive;
    var s1 := s.(doomed := s.doomed + {k});
    Extend(s, Doom(k), s1);
    var s2 := s1.(doomed := s1.doomed - {k}, staging := s1.staging - {k});
    Extend(s1, DiscardDoomed(k), s2);
    assert s2 == s.(staging := s.staging - {k});
  }

  /** `CleanupStaging` dooms and discards each directory whose owner is dead. */
  lemma {:induction false} CleanupIsInProtocol(s: Sys, removed: set<TakeId>)
    requires Reachable(s) && s.doomed == {}
    requires forall k | k in removed :: k in s.staging && !OwnerAlive(s.jobs, s.staging[k].owner)
    ensures Reachable(s.(staging := s.staging - removed))
    decreases removed
  {
    hide Reachable, OwnerAlive;
    if removed == {} {
      assert s == s.(staging := s.staging - {});
    } else {
      var k :| k in removed;
      CleanupIsInProtocol(s, removed - {k});
      DiscardIsReachable(s.(staging := s.staging - (removed - {k})), k);
      assert s.staging - (removed - {k}) - {k} == s.staging - removed;
    }
  }
}
