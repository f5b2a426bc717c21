/** The queue's operations over the database and the project directories, updated in place. Each
    method is one transaction or one locked section; the rows it writes are those of `JobRows`. */
module JobQueue {
  import opened Common
  import opened CreationTypes
  import opened JobRows
  import opened JobProtocol

  datatype QueueError =
    | ProjectNotFound
    | ProjectBeingDeleted
    | SubmissionConflict(existing: JobId)
    | DeletionConflict
    | JobNotFound
    | NotRetryable

  /** What `_commit_take` returns or raises. */
  datatype CommitResult = Committed(take: TakeId) | CommitCancelled | ProjectDeleted | JobFenced | NoStagedMeta

  /** The rows of `jobs` that a claim would take, or hold. */
  ghost function ClaimableIn(jobs: Jobs, tombstones: set<ProjectId>): set<JobId> {
    set j | j in jobs && Claimable(jobs[j], tombstones)
  }

  /** `(project_id, submission_id)` is unique. */
  ghost predicate UniqueSubmissions(jobs: Jobs) {
    forall j, j' | j in jobs && j' in jobs ::
      jobs[j].submission.Some? && jobs[j].submission == jobs[j'].submission && jobs[j].project == jobs[j'].project
      ==> j == j'
  }

  /** The project already has a job under the submission id of `row`. */
  ghost predicate Submitted(jobs: Jobs, row: Row) {
    row.submission.Some?
    && exists j :: j in jobs && jobs[j].project == row.project && jobs[j].submission == row.submission
  }

  ghost predicate SameSubmissions(jobs: Jobs, jobs': Jobs) {
    jobs'.Keys == jobs.Keys && forall j | j in jobs ::
      jobs'[j].submission == jobs[j].submission && jobs'[j].project == jobs[j].project
  }

  lemma SubmissionsStayUnique(jobs: Jobs, jobs': Jobs)
    requires UniqueSubmissions(jobs) && SameSubmissions(jobs, jobs')
    ensures UniqueSubmissions(jobs')
  {
  }

  /** What a claim does to the rows it does not take: it holds some that have no snapshot. */
  ghost predicate OnlyHeld(jobs: Jobs, jobs': Jobs, tombstones: set<ProjectId>, now: Time, except: Option<JobId>) {
    jobs'.Keys == jobs.Keys && forall j | j in jobs && except != Some(j) ::
      jobs'[j] == jobs[j]
      || (Claimable(jobs[j], tombstones) && Unsnapshotted(jobs[j]) && jobs'[j] == HeldForConfirmation(jobs[j], now))
  }

  /** Everything held so far is no younger than anything that may still be claimed. */
  ghost predicate HeldFirst(jobs: Jobs, jobs': Jobs, tombstones: set<ProjectId>) {
    jobs'.Keys == jobs.Keys && forall h, j | h in jobs && j in jobs && jobs'[h] != jobs[h] && Claimable(jobs'[j], tombstones) ::
      jobs[h].createdAt <= jobs'[j].createdAt
  }

  lemma NothingHeld(jobs: Jobs, tombstones: set<ProjectId>, now: Time)
    ensures OnlyHeld(jobs, jobs, tombstones, now, None) && HeldFirst(jobs, jobs, tombstones)
  {
  }

  /** Holding the oldest keeps that so. */
  lemma HoldsInOrder(jobs0: Jobs, jobs: Jobs, tombstones: set<ProjectId>, now: Time, c: JobId)
    requires OnlyHeld(jobs0, jobs, tombstones, now, None) && HeldFirst(jobs0, jobs, tombstones)
    requires Oldest(jobs, tombstones, c)
    ensures HeldFirst(jobs0, jobs[c := HeldForConfirmation(jobs[c], now)], tombstones)
  {
  }

  /** Holding `c` leaves one job fewer to claim. */
  lemma HoldsOne(jobs0: Jobs, jobs: Jobs, tombstones: set<ProjectId>, now: Time, c: JobId)
    requires OnlyHeld(jobs0, jobs, tombstones, now, None)
    requires c in jobs && Claimable(jobs[c], tombstones) && Unsnapshotted(jobs[c])
    ensures OnlyHeld(jobs0, jobs[c := HeldForConfirmation(jobs[c], now)], tombstones, now, None)
    ensures ClaimableIn(jobs[c := HeldForConfirmation(jobs[c], now)], tombstones) == ClaimableIn(jobs, tombstones) - {c}
    ensures c in ClaimableIn(jobs, tombstones)
  {
  }

  /** `c` is the oldest row that may be claimed. */
  ghost predicate Oldest(jobs: Jobs, tombstones: set<ProjectId>, c: JobId) {
    && c in jobs && Claimable(jobs[c], tombstones)
    && forall j | j in jobs && Claimable(jobs[j], tombstones) :: jobs[c].createdAt <= jobs[j].createdAt
  }

  lemma ClaimsOldest(jobs0: Jobs, jobs: Jobs, tombstones: set<ProjectId>, token: Token, now: Time, c: JobId)
    requires OnlyHeld(jobs0, jobs, tombstones, now, None) && HeldFirst(jobs0, jobs, tombstones)
    requires Oldest(jobs, tombstones, c) && !Unsnapshotted(jobs[c])
    ensures var jobs' := jobs[c := Claimed(jobs[c], token, now)];
      && OnlyHeld(jobs0, jobs', tombstones, now, Some(c)) && jobs[c] == jobs0[c]
      && (forall j | j in jobs' && j != c && Claimable(jobs'[j], tombstones) :: jobs0[c].createdAt <= jobs0[j].createdAt)
      && (forall h | h in jobs' && h != c && jobs'[h] != jobs0[h] :: jobs0[h].createdAt <= jobs0[c].createdAt)
  {
  }

  lemma ClaimedInColumns(jobs0: Jobs, jobs: Jobs, tombstones: set<ProjectId>, token: Token, now: Time, c: JobId)
    requires OnlyHeld(jobs0, jobs, tombstones, now, Some(c)) && c in jobs0
    requires Claimable(jobs0[c], tombstones) && !Unsnapshotted(jobs0[c]) && jobs[c] == Claimed(jobs0[c], token, now)
    requires forall j | j in jobs && j != c && Claimable(jobs[j], tombstones) :: jobs0[c].createdAt <= jobs0[j].createdAt
    ensures var r := jobs0[c];
      && r.status == Queued && r.project !in tombstones && r.stage != Some(NeedsConfirmation)
      && (r.kind == Shaped ==> r.snapshot.Some?)
      && jobs[c] == r.(status := Running, token := Some(token), heartbeatAt := Some(now),
                       attempts := r.attempts + 1, updatedAt := now)
      && forall j | j in jobs && j != c && jobs[j].status == Queued && jobs[j].project !in tombstones
           && jobs[j].stage != Some(NeedsConfirmation) :: r.createdAt <= jobs[j].createdAt
  {
    forall j | j in jobs && j != c && jobs[j].status == Queued && jobs[j].project !in tombstones
      && jobs[j].stage != Some(NeedsConfirmation)
      ensures jobs0[c].createdAt <= jobs[j].createdAt
    {
      assert Claimable(jobs[j], tombstones);
    }
  }

  lemma HeldInColumns(jobs0: Jobs, jobs: Jobs, tombstones: set<ProjectId>, now: Time, except: Option<JobId>)
    requires OnlyHeld(jobs0, jobs, tombstones, now, except)
    ensures forall h | h in jobs && except != Some(h) && jobs[h] != jobs0[h] ::
      && jobs0[h].status == Queued && jobs0[h].project !in tombstones
      && jobs0[h].kind == Shaped && jobs0[h].snapshot.None?
      && jobs[h] == jobs0[h].(stage := Some(NeedsConfirmation), updatedAt := now)
  {
  }

  lemma NothingLeftInColumns(jobs: Jobs, tombstones: set<ProjectId>)
    requires forall j | j in jobs :: !Claimable(jobs[j], tombstones)
    ensures forall j | j in jobs && jobs[j].status == Queued && jobs[j].project !in tombstones ::
      jobs[j].stage == Some(NeedsConfirmation)
  {
    forall j | j in jobs && jobs[j].status == Queued && jobs[j].project !in tombstones
      ensures jobs[j].stage == Some(NeedsConfirmation)
    {
      assert !Claimable(jobs[j], tombstones);
    }
  }

  lemma HoldingKeepsUnique(jobs: Jobs, jobs': Jobs, tombstones: set<ProjectId>, now: Time)
    requires UniqueSubmissions(jobs) && OnlyHeld(jobs, jobs', tombstones, now, None)
    ensures UniqueSubmissions(jobs')
  {
    SubmissionsStayUnique(jobs, jobs');
  }

  lemma HoldingKeepsSubmissions(jobs: Jobs, jobs': Jobs, tombstones: set<ProjectId>, token: Token, now: Time, c: JobId)
    requires UniqueSubmissions(jobs) && OnlyHeld(jobs, jobs', tombstones, now, Some(c))
    requires c in jobs && c in jobs' && jobs'[c] == Claimed(jobs[c], token, now)
    ensures UniqueSubmissions(jobs')
  {
    SubmissionsStayUnique(jobs, jobs');
  }

  /** The rows among `looked` whose heartbeat went stale, reclaimed. */
  function ReclaimedAll(jobs: Jobs, looked: set<JobId>, staleAfter: int, now: Time): Jobs {
    map j | j in jobs ::
      if j in looked && Reclaimable(jobs[j], staleAfter, now) then Reclaimed(jobs[j], now) else jobs[j]
  }

  /** A running row whose last sign of life is older than `staleAfter`. */
  predicate LeaseLost(r: Row, staleAfter: int, now: Time) {
    && r.status == Running
    && (if r.heartbeatAt.Some? then r.heartbeatAt.value else r.updatedAt) < now - staleAfter
  }

  /** What becomes of such a row: a requested cancel ends it, a remote render of unknown outcome or a
      third attempt fails it, and otherwise it is queued again; in each case all else stands. */
  predicate LeaseTaken(r: Row, r': Row, now: Time) {
    if r.cancelRequested then
      r' == r.(status := Cancelled, error := None, takeId := None, updatedAt := now)
    else if r.remoteHandle.Some? || r.attempts >= 3 then
      && r' == r.(status := Failed, error := r'.error, token := None, updatedAt := now)
      && r'.error.Some? && r'.error != Some(PROJECT_DELETED)
    else
      r' == r.(status := Queued, token := None, heartbeatAt := None, updatedAt := now)
  }

  lemma ReclaimedInColumns(jobs: Jobs, staleAfter: int, now: Time)
    ensures var jobs' := ReclaimedAll(jobs, jobs.Keys, staleAfter, now);
      jobs'.Keys == jobs.Keys && forall j | j in jobs ::
        && (Reclaimable(jobs[j], staleAfter, now) <==> LeaseLost(jobs[j], staleAfter, now))
        && (LeaseLost(jobs[j], staleAfter, now) ==> LeaseTaken(jobs[j], jobs'[j], now))
        && (!LeaseLost(jobs[j], staleAfter, now) ==> jobs'[j] == jobs[j])
  {
    assert "the remote outcome is unknown"[0] != PROJECT_DELETED[0];
    assert "worker heartbeat lost"[0] != PROJECT_DELETED[0];
  }

  lemma ReclaimsOne(jobs0: Jobs, looked: set<JobId>, staleAfter: int, now: Time, j: JobId)
    requires j in jobs0 && j !in looked
    ensures ReclaimedAll(jobs0, looked, staleAfter, now)[j] == jobs0[j]
    ensures ReclaimedAll(jobs0, looked + {j}, staleAfter, now)
      == if Reclaimable(jobs0[j], staleAfter, now)
         then ReclaimedAll(jobs0, looked, staleAfter, now)[j := Reclaimed(jobs0[j], now)]
         else ReclaimedAll(jobs0, looked, staleAfter, now)
  {
  }

  /** Every column stands but those that say how a job ended: status, error, take, flag and time. */
  predicate SameButOutcome(r: Row, r': Row) {
    r' == r.(status := r'.status, error := r'.error, takeId := r'.takeId, cancelRequested := r'.cancelRequested,
             updatedAt := r'.updatedAt)
  }

  /** No row but `j` has changed. */
  ghost predicate OnlyRow(jobs: Jobs, jobs': Jobs, j: JobId) {
    jobs'.Keys == jobs.Keys && forall i | i in jobs && i != j :: jobs'[i] == jobs[i]
  }

  /** The job has ended cancelled: nothing claims, finishes or freezes it any more. */
  ghost predicate EndedCancelled(r: Row, tombstones: set<ProjectId>) {
    && r.status == Cancelled && r.cancelRequested && r.error.None? && r.takeId.None?
    && !Claimable(r, tombstones) && forall t: Option<Token> :: !RunningUnder(r, t)
  }

  /** A deletion has cancelled the job: it is failed with the deletion's text, and all else stands. */
  predicate FailedByDeletion(r: Row, r': Row, now: Time) {
    && r'.status == Failed && r'.error == Some(PROJECT_DELETED) && r'.updatedAt == now
    && r'.takeId == r.takeId && r'.cancelRequested == r.cancelRequested && SameButOutcome(r, r')
  }

  /** An aborted deletion has queued the job again, and all else stands. */
  predicate QueuedAgain(r: Row, r': Row, now: Time) {
    && r'.status == Queued && r'.error.None? && r'.updatedAt == now
    && r'.takeId == r.takeId && r'.cancelRequested == r.cancelRequested && SameButOutcome(r, r')
  }

  /** Exactly the queued jobs of `p` are on the list and have been cancelled. */
  ghost predicate DeletionBegun(jobs: Jobs, jobs': Jobs, p: ProjectId, now: Time, cancelled: set<JobId>) {
    jobs'.Keys == jobs.Keys && cancelled <= jobs.Keys && forall j | j in jobs ::
      && (j in cancelled <==> jobs[j].project == p && jobs[j].status == Queued)
      && (if j in cancelled then FailedByDeletion(jobs[j], jobs'[j], now) else jobs'[j] == jobs[j])
      && (jobs'[j].project == p ==> jobs'[j].status != Queued)
  }

  /** Exactly the listed jobs that still carry the deletion's mark are queued again. */
  ghost predicate DeletionAborted(jobs: Jobs, jobs': Jobs, now: Time, cancelled: set<JobId>) {
    jobs'.Keys == jobs.Keys && forall j | j in jobs ::
      if j in cancelled && jobs[j].status == Failed && jobs[j].error == Some(PROJECT_DELETED)
      then QueuedAgain(jobs[j], jobs'[j], now) else jobs'[j] == jobs[j]
  }

  lemma DeletionBegins(jobs: Jobs, p: ProjectId, now: Time)
    ensures DeletionBegun(jobs, DeletionCancelledAll(jobs, p, now), p, now, QueuedIn(jobs, p))
    ensures SameSubmissions(jobs, DeletionCancelledAll(jobs, p, now))
  {
  }

  lemma DeletionAborts(jobs: Jobs, cancelled: set<JobId>, now: Time)
    ensures DeletionAborted(jobs, DeletionRestoredAll(jobs, cancelled, now), now, cancelled)
    ensures SameSubmissions(jobs, DeletionRestoredAll(jobs, cancelled, now))
  {
  }

  /** `retry_job` resubmits it from the current plan. */
  predicate IsHeld(r: Row) {
    r.status == Queued && r.stage == Some(NeedsConfirmation)
  }

  lemma OneRowSubmissions(jobs: Jobs, jobs': Jobs, j: JobId)
    requires UniqueSubmissions(jobs) && OnlyRow(jobs, jobs', j)
    requires j in jobs ==> jobs'[j].submission == jobs[j].submission && jobs'[j].project == jobs[j].project
    ensures UniqueSubmissions(jobs')
  {
    SubmissionsStayUnique(jobs, jobs');
  }

  /** Take `k` has been published: it is in the project, and it is active exactly when no active take
      played before. */
  predicate PublishedIn(project: Project, project': Project, k: TakeId, meta: TakeMeta) {
    && project'.takes == project.takes[k := meta]
    && project'.active ==
         if project.active.Some? && project.active.value in project.takes
            && project.takes[project.active.value].error.None?
         then project.active else Some(k)
  }

  lemma ActivatedIsPublished(project: Project, k: TakeId, meta: TakeMeta)
    ensures PublishedIn(project, Activated(project.(takes := project.takes[k := meta]), k), k, meta)
  {
  }

  /** Project `p` has a take of job `j` without an error. */
  ghost predicate HasCommitted(projects: map<ProjectId, Project>, p: ProjectId, j: JobId) {
    p in projects && exists e ::
      e in projects[p].takes && projects[p].takes[e].job == Some(j) && projects[p].takes[e].error.None?
  }

  lemma CommittedIsGood(projects: map<ProjectId, Project>, p: ProjectId, j: JobId)
    ensures HasCommitted(projects, p, j) <==> p in projects && exists e :: GoodTake(projects[p], e, j)
    ensures p in projects ==> forall e :: GoodTake(projects[p], e, j) <==>
      e in projects[p].takes && projects[p].takes[e].job == Some(j) && projects[p].takes[e].error.None?
  {
    if p in projects {
      if HasCommitted(projects, p, j) {
        var e :| e in projects[p].takes && projects[p].takes[e].job == Some(j) && projects[p].takes[e].error.None?;
        assert GoodTake(projects[p], e, j);
      }
      if e :| GoodTake(projects[p], e, j) {
        assert e in projects[p].takes && projects[p].takes[e].job == Some(j) && projects[p].takes[e].error.None?;
      }
    }
  }

  /** What a commit of take `k` answers and changes. */
  ghost predicate CommitEffect(jobs: Jobs, tombstones: set<ProjectId>, projects: map<ProjectId, Project>,
                               staging: map<TakeId, Staged>, j: JobId, token: Token, p: ProjectId, k: TakeId,
                               now: Time, r: CommitResult,
                               jobs': Jobs, projects': map<ProjectId, Project>, staging': map<TakeId, Staged>)
    requires j in jobs
  {
    var row := jobs[j];
    var owned := row.status == Running && row.token == Some(token);
    var open := owned && !row.cancelRequested && p !in tombstones && p in projects;
    var committed := HasCommitted(projects, p, j);
    && staging' == staging - {k}
    && (r == JobFenced <==> !owned)
    && (r == CommitCancelled <==> owned && row.cancelRequested)
    && (r == ProjectDeleted <==> owned && !row.cancelRequested && !open)
    && (!r.Committed? ==> jobs' == jobs && projects' == projects)
    && (r == NoStagedMeta ==> open && (k !in staging || staging[k].meta.None?) && !committed)
    && (r.Committed? ==>
          && open
          && jobs' == jobs[j := row.(status := Done, takeId := Some(r.take), error := None, stage := Some(WritingTake),
                                     updatedAt := now)]
          && if committed then
               && r.take in projects[p].takes && projects[p].takes[r.take].job == Some(j)
               && projects[p].takes[r.take].error.None? && projects' == projects
             else
               && r.take == k && k in staging && staging[k].meta.Some?
               && p in projects' && projects' == projects[p := projects'[p]]
               && PublishedIn(projects[p], projects'[p], k, staging[k].meta.value))
  }

  class Queue {
    var jobs: Jobs
    var tombstones: set<ProjectId>
    var projects: map<ProjectId, Project>
    var staging: map<TakeId, Staged>

    ghost predicate Valid()
      reads this
    {
      UniqueSubmissions(jobs)
    }

    constructor ()
      ensures Valid() && jobs == map[] && tombstones == {} && projects == map[] && staging == map[]
    {
      jobs, tombstones, projects, staging := map[], {}, map[], map[];
    }

    // ---- submission ----

    /** `enqueue_job` past its validation: `row` is the row it would insert, `id` a new id. A
        submission id names one request of a project: its replay returns the first job, and a
        different request under it is refused. */
    method Enqueue(id: JobId, row: Row) returns (r: Result<JobId, QueueError>)
      requires Valid() && id !in jobs && NewRow(row)
      modifies this`jobs
      ensures Valid()
      ensures row.project !in projects ==> r == Err(ProjectNotFound)
      ensures row.project in projects && row.project in tombstones ==> r == Err(ProjectBeingDeleted)
      ensures r.Err? ==> jobs == old(jobs)
      ensures row.project in projects && row.project !in tombstones ==>
        forall j | j in old(jobs) && row.submission.Some? && old(jobs)[j].submission == row.submission
          && old(jobs)[j].project == row.project ::
          r == if old(jobs)[j].requestHash == row.requestHash then Ok(j) else Err(SubmissionConflict(j))
      ensures r.Ok? && r.value != id ==> jobs == old(jobs)
      ensures r == Ok(id) ==> jobs == old(jobs)[id := row] && row.project in projects && row.project !in tombstones
      ensures row.project in projects && row.project !in tombstones && !Submitted(old(jobs), row) ==> r == Ok(id)
    {
      if row.project !in projects {
        return Err(ProjectNotFound);
      }
      if row.project in tombstones {
        return Err(ProjectBeingDeleted);
      }
      if row.submission.Some? {
        if j :| j in jobs && jobs[j].project == row.project && jobs[j].submission == row.submission {
          if jobs[j].requestHash != row.requestHash {
            return Err(SubmissionConflict(j));
          }
          return Ok(j);
        }
      }
      jobs := jobs[id := row];
      return Ok(id);
    }

    // ---- the worker loop ----

    /** `claim_next_queued_job`: the oldest job that may run gets the fresh token. Jobs without a
        snapshot that stand before it are held for confirmation on the way. */
    method ClaimNextQueuedJob(token: Token, now: Time) returns (claimed: Option<JobId>)
      requires Valid()
      modifies this`jobs
      ensures Valid() && OnlyHeld(old(jobs), jobs, tombstones, now, claimed)
      ensures claimed.Some? ==>
        && var c := claimed.value;
        && c in jobs && Claimable(old(jobs)[c], tombstones) && !Unsnapshotted(old(jobs)[c])
        && jobs[c] == Claimed(old(jobs)[c], token, now)
        && (forall j | j in jobs && j != c && Claimable(jobs[j], tombstones) ::
              old(jobs)[c].createdAt <= old(jobs)[j].createdAt)
        && forall h | h in jobs && h != c && jobs[h] != old(jobs)[h] :: old(jobs)[h].createdAt <= old(jobs)[c].createdAt
      ensures claimed.None? ==> ClaimableIn(jobs, tombstones) == {}
      // The same in columns: who is taken, what becomes of the row, who is held, and who is left.
      ensures claimed.Some? ==>
        && var r := old(jobs)[claimed.value];
        && r.status == Queued && r.project !in tombstones && r.stage != Some(NeedsConfirmation)
        && (r.kind == Shaped ==> r.snapshot.Some?)
        && jobs[claimed.value] == r.(status := Running, token := Some(token), heartbeatAt := Some(now),
                                     attempts := r.attempts + 1, updatedAt := now)
        && forall j | j in jobs && j != claimed.value && jobs[j].status == Queued && jobs[j].project !in tombstones
             && jobs[j].stage != Some(NeedsConfirmation) :: r.createdAt <= jobs[j].createdAt
      ensures claimed.None? ==>
        forall j | j in jobs && jobs[j].status == Queued && jobs[j].project !in tombstones ::
          jobs[j].stage == Some(NeedsConfirmation)
      ensures forall h | h in jobs && claimed != Some(h) && jobs[h] != old(jobs)[h] ::
        && old(jobs)[h].status == Queued && old(jobs)[h].project !in tombstones
        && old(jobs)[h].kind == Shaped && old(jobs)[h].snapshot.None?
        && jobs[h] == old(jobs)[h].(stage := Some(NeedsConfirmation), updatedAt := now)
    {
      hide HeldForConfirmation, Claimed, UniqueSubmissions, Unsnapshotted, SameSubmissions, Claimable;
      hide OnlyHeld, HeldFirst;
      claimed := None;
      NothingHeld(jobs, tombstones, now);
      while exists j :: j in jobs && Claimable(jobs[j], tombstones)
        invariant claimed.None? && OnlyHeld(old(jobs), jobs, tombstones, now, None)
        invariant HeldFirst(old(jobs), jobs, tombstones)
        decreases ClaimableIn(jobs, tombstones)
      {
        var c := OldestClaimable();
        if Unsnapshotted(jobs[c]) {
          HoldsInOrder(old(jobs), jobs, tombstones, now, c);
          HoldsOne(old(jobs), jobs, tombstones, now, c);
          jobs := jobs[c := HeldForConfirmation(jobs[c], now)];
        } else {
          ClaimsOldest(old(jobs), jobs, tombstones, token, now, c);
          jobs := jobs[c := Claimed(jobs[c], token, now)];
          HoldingKeepsSubmissions(old(jobs), jobs, tombstones, token, now, c);
          HeldInColumns(old(jobs), jobs, tombstones, now, Some(c));
          ClaimedInColumns(old(jobs), jobs, tombstones, token, now, c);
          return Some(c);
        }
      }
      HoldingKeepsUnique(old(jobs), jobs, tombstones, now);
      HeldInColumns(old(jobs), jobs, tombstones, now, None);
      NothingLeftInColumns(jobs, tombstones);
    }

    /** `ORDER BY created_at ASC LIMIT 1` over the rows a claim may take. */
    method OldestClaimable() returns (c: JobId)
      requires exists j :: j in jobs && Claimable(jobs[j], tombstones)
      ensures Oldest(jobs, tombstones, c)
      ensures && c in jobs && jobs[c].status == Queued && jobs[c].project !in tombstones
              && jobs[c].stage != Some(NeedsConfirmation)
      ensures forall j | j in jobs && jobs[j].status == Queued && jobs[j].project !in tombstones
        && jobs[j].stage != Some(NeedsConfirmation) :: jobs[c].createdAt <= jobs[j].createdAt
    {
      c :| c in jobs && Claimable(jobs[c], tombstones);
      var rest := jobs.Keys;
      while rest != {}
        invariant rest <= jobs.Keys && c in jobs && Claimable(jobs[c], tombstones)
        invariant forall j | j in jobs && j !in rest && Claimable(jobs[j], tombstones) ::
          jobs[c].createdAt <= jobs[j].createdAt
        decreases |rest|
      {
        var j :| j in rest;
        rest := rest - {j};
        if Claimable(jobs[j], tombstones) && jobs[j].createdAt < jobs[c].createdAt {
          c := j;
        }
      }
    }

    /** `reclaim_stale_jobs`, at one reading of the clock. */
    method ReclaimStaleJobs(staleAfter: int, now: Time) returns (reclaimed: set<JobId>)
      requires Valid()
      modifies this`jobs
      ensures Valid() && jobs == ReclaimedAll(old(jobs), old(jobs).Keys, staleAfter, now)
      ensures reclaimed == set j | j in old(jobs) && Reclaimable(old(jobs)[j], staleAfter, now)
      // The same in columns.
      ensures jobs.Keys == old(jobs).Keys && reclaimed <= jobs.Keys
      ensures forall j | j in jobs ::
        && (j in reclaimed <==> LeaseLost(old(jobs)[j], staleAfter, now))
        && (j in reclaimed ==> LeaseTaken(old(jobs)[j], jobs[j], now))
        && (j !in reclaimed ==> jobs[j] == old(jobs)[j])
    {
      reclaimed := {};
      var rest := jobs.Keys;
      ghost var looked: set<JobId> := {};
      assert jobs == ReclaimedAll(old(jobs), looked, staleAfter, now);
      while rest != {}
        invariant looked !! rest && looked + rest == old(jobs).Keys
        invariant jobs == ReclaimedAll(old(jobs), looked, staleAfter, now)
        invariant reclaimed == set j | j in old(jobs) && j in looked && Reclaimable(old(jobs)[j], staleAfter, now)
        decreases rest
      {
        var j :| j in rest;
        ReclaimsOne(old(jobs), looked, staleAfter, now, j);
        if Reclaimable(jobs[j], staleAfter, now) {
          jobs := jobs[j := Reclaimed(jobs[j], now)];
          reclaimed := reclaimed + {j};
        }
        rest, looked := rest - {j}, looked + {j};
      }
      assert looked == old(jobs).Keys;
      SubmissionsStayUnique(old(jobs), jobs);
      ReclaimedInColumns(old(jobs), staleAfter, now);
    }

    // ---- one row ----

    /** `cancel_job`: a queued job ends cancelled, a running one only gets the flag, after which no
        `finish_done` wins; an ended one stands. */
    method CancelJob(j: JobId, now: Time) returns (r: Result<Status, QueueError>)
      requires Valid()
      modifies this`jobs
      ensures Valid() && OnlyRow(old(jobs), jobs, j)
      ensures j !in old(jobs) ==> r == Err(JobNotFound)
      ensures j in old(jobs) ==>
        && r == Ok(jobs[j].status) && SameButOutcome(old(jobs)[j], jobs[j])
        && (old(jobs)[j].status == Queued ==> EndedCancelled(jobs[j], tombstones))
        && (old(jobs)[j].status == Running ==>
              && jobs[j].status == Running && jobs[j].cancelRequested
              && jobs[j].error == old(jobs)[j].error && jobs[j].takeId == old(jobs)[j].takeId)
        && (Terminal(old(jobs)[j].status) ==> jobs[j] == old(jobs)[j])
        && (!Terminal(old(jobs)[j].status) ==> jobs[j].updatedAt == now && forall t: Option<Token> :: !CanFinish(jobs[j], t))
      ensures j in old(jobs) ==> jobs[j] == CancelRequested(old(jobs)[j], now)
    {
      if j !in jobs {
        return Err(JobNotFound);
      }
      if jobs[j].status == Queued {
        jobs := jobs[j := jobs[j].(status := Cancelled, error := None, takeId := None, cancelRequested := true,
                                   updatedAt := now)];
      } else if jobs[j].status == Running {
        jobs := jobs[j := jobs[j].(cancelRequested := true, updatedAt := now)];
      }
      OneRowSubmissions(old(jobs), jobs, j);
      return Ok(jobs[j].status);
    }

    /** `finish_done`: whether the attempt won the race against a cancel and against its fence. */
    method FinishDone(j: JobId, token: Option<Token>, take: Option<TakeId>, now: Time) returns (won: bool)
      requires Valid()
      modifies this`jobs
      ensures Valid()
      ensures won <==> j in old(jobs) && CanFinish(old(jobs)[j], token)
      ensures won ==> jobs == old(jobs)[j := FinishedDone(old(jobs)[j], token, take, now)]
      ensures won <==>
        && j in old(jobs) && old(jobs)[j].status == Running && !old(jobs)[j].cancelRequested
        && (token.Some? ==> old(jobs)[j].token == token)
      ensures won ==> jobs == old(jobs)[j := old(jobs)[j].(status := Done, takeId := take, error := None,
                                                           stage := Some(WritingTake), updatedAt := now)]
      ensures !won ==> jobs == old(jobs)
    {
      won := j in jobs && CanFinish(jobs[j], token);
      if won {
        jobs := jobs[j := FinishedDone(jobs[j], token, take, now)];
      }
    }

    /** `freeze_resolved`; a lost fence raises `JobFenced`. */
    method FreezeResolved(j: JobId, token: Option<Token>, record: Record, now: Time) returns (frozen: bool)
      requires Valid()
      modifies this`jobs
      ensures Valid()
      ensures frozen <==> j in old(jobs) && RunningUnder(old(jobs)[j], token)
      ensures frozen ==> jobs == old(jobs)[j := Frozen(old(jobs)[j], token, record, now)]
      ensures frozen <==>
        j in old(jobs) && old(jobs)[j].status == Running && (token.Some? ==> old(jobs)[j].token == token)
      ensures frozen ==> jobs == old(jobs)[j := old(jobs)[j].(resolved := Some(record), updatedAt := now)]
      ensures !frozen ==> jobs == old(jobs)
    {
      frozen := j in jobs && RunningUnder(jobs[j], token);
      if frozen {
        jobs := jobs[j := Frozen(jobs[j], token, record, now)];
      }
    }

    /** `mark_cancelled`: exactly a queued row, or a running one of the token's attempt, ends
        cancelled; any other stands. */
    method MarkCancelled(j: JobId, token: Option<Token>, now: Time)
      requires Valid()
      modifies this`jobs
      ensures Valid() && OnlyRow(old(jobs), jobs, j)
      ensures j in old(jobs) && (old(jobs)[j].status == Queued || RunningUnder(old(jobs)[j], token)) ==>
        EndedCancelled(jobs[j], tombstones) && SameButOutcome(old(jobs)[j], jobs[j]) && jobs[j].updatedAt == now
      ensures j in old(jobs) && old(jobs)[j].status != Queued && !RunningUnder(old(jobs)[j], token) ==>
        jobs[j] == old(jobs)[j]
      ensures jobs == if j in old(jobs) then old(jobs)[j := JobRows.MarkedCancelled(old(jobs)[j], token, now)] else old(jobs)
    {
      if j in jobs {
        var row := jobs[j];
        if (row.status == Queued || row.status == Running) && (token.Some? ==> row.status == Queued || row.token == token) {
          jobs := jobs[j := row.(status := Cancelled, error := None, takeId := None, cancelRequested := true,
                                 updatedAt := now)];
        }
      }
      OneRowSubmissions(old(jobs), jobs, j);
    }

    /** `_set_status(..., "error")`: with a token only the row of its running attempt fails, without
        one any row does; afterwards no attempt runs it. */
    method SetError(j: JobId, token: Option<Token>, take: Option<TakeId>, error: string, now: Time)
      requires Valid()
      modifies this`jobs
      ensures Valid() && OnlyRow(old(jobs), jobs, j)
      ensures j in old(jobs) && (token.None? || RunningUnder(old(jobs)[j], token)) ==>
        && jobs[j].status == Failed && jobs[j].error == Some(error) && jobs[j].takeId == take && jobs[j].updatedAt == now
        && jobs[j].cancelRequested == old(jobs)[j].cancelRequested && SameButOutcome(old(jobs)[j], jobs[j])
        && forall t: Option<Token> :: !RunningUnder(jobs[j], t)
      ensures j in old(jobs) && token.Some? && !RunningUnder(old(jobs)[j], token) ==> jobs[j] == old(jobs)[j]
      ensures jobs == if j in old(jobs) then old(jobs)[j := SetFailed(old(jobs)[j], token, take, error, now)] else old(jobs)
    {
      if j in jobs && (token.Some? ==> jobs[j].status == Running && jobs[j].token == token) {
        jobs := jobs[j := jobs[j].(status := Failed, takeId := take, error := Some(error), updatedAt := now)];
      }
      OneRowSubmissions(old(jobs), jobs, j);
    }

    // ---- an explicit retry ----

    /** `retry_job`, its transactions back to back. A failed or cancelled job is repeated: the new one
        renders from its snapshot and record, whatever the plan is by now. A held job is given up,
        even when the submission that replaces it is then refused, and `row` is that submission. */
    method RetryJob(j: JobId, id: JobId, row: Row, now: Time) returns (r: Result<JobId, QueueError>)
      requires Valid() && id !in jobs && NewRow(row) && row.submission.None?
      requires j in jobs ==> row.project == jobs[j].project && row.retryOf == Some(j)
      modifies this`jobs
      ensures Valid()
      ensures j !in old(jobs) ==> r == Err(JobNotFound)
      ensures j in old(jobs) ==>
        (r == Err(NotRetryable) <==>
          old(jobs)[j].status != Failed && old(jobs)[j].status != Cancelled && !IsHeld(old(jobs)[j]))
      ensures r.Ok? ==> r.value == id && jobs.Keys == old(jobs).Keys + {id}
      ensures r.Err? ==> jobs.Keys == old(jobs).Keys
      ensures forall j' | j' in old(jobs) && j' != j :: jobs[j'] == old(jobs)[j']
      ensures j in old(jobs) ==>
        if IsHeld(old(jobs)[j])
        then EndedCancelled(jobs[j], tombstones) && SameButOutcome(old(jobs)[j], jobs[j]) && jobs[j].updatedAt == now
        else jobs[j] == old(jobs)[j]
      ensures r.Ok? ==>
        if IsHeld(old(jobs)[j]) then jobs[id] == row
        else
          && jobs[id].resolved == old(jobs)[j].resolved
          && jobs[id].snapshot == (if old(jobs)[j].snapshot.Some? then old(jobs)[j].snapshot else row.snapshot)
          && jobs[id] == row.(resolved := jobs[id].resolved, snapshot := jobs[id].snapshot)
    {
      if j !in jobs {
        return Err(JobNotFound);
      }
      var original := jobs[j];
      if original.status != Failed && original.status != Cancelled && !IsHeld(original) {
        return Err(NotRetryable);
      }
      if IsHeld(original) {
        MarkCancelled(j, None, now);
        r := Enqueue(id, row);
        return;
      }
      r := Enqueue(id, row);
      if r.Err? {
        return;
      }
      jobs := jobs[id := WithCopiedRequest(jobs[id], original.snapshot, original.resolved)];
    }

    // ---- deletion ----

    /** `begin_project_deletion`: the tombstone, and the project's queued jobs, in one transaction.
        Afterwards no job of the project is queued, so none can be claimed. */
    method BeginProjectDeletion(p: ProjectId, now: Time) returns (r: Result<set<JobId>, QueueError>)
      requires Valid()
      modifies this`jobs, this`tombstones
      ensures Valid()
      ensures p in old(tombstones) ==> r == Err(DeletionConflict) && jobs == old(jobs) && tombstones == old(tombstones)
      ensures p !in old(tombstones) ==>
        r.Ok? && tombstones == old(tombstones) + {p} && DeletionBegun(old(jobs), jobs, p, now, r.value)
      ensures p !in old(tombstones) ==>
        r == Ok(QueuedIn(old(jobs), p)) && jobs == DeletionCancelledAll(old(jobs), p, now)
    {
      if p in tombstones {
        return Err(DeletionConflict);
      }
      DeletionBegins(jobs, p, now);
      tombstones := tombstones + {p};
      r := Ok(set j | j in jobs && jobs[j].project == p && jobs[j].status == Queued);
      jobs := DeletionCancelledAll(jobs, p, now);
      SubmissionsStayUnique(old(jobs), jobs);
    }

    /** `abort_project_deletion`: the tombstone goes, and of the listed jobs exactly those that still
        carry the deletion's mark are queued again; one that has failed in its own way since stays so. */
    method AbortProjectDeletion(p: ProjectId, cancelled: set<JobId>, now: Time)
      requires Valid()
      modifies this`jobs, this`tombstones
      ensures Valid() && tombstones == old(tombstones) - {p}
      ensures DeletionAborted(old(jobs), jobs, now, cancelled)
      ensures jobs == DeletionRestoredAll(old(jobs), cancelled, now)
    {
      DeletionAborts(jobs, cancelled, now);
      tombstones := tombstones - {p};
      if cancelled != {} {
        jobs := DeletionRestoredAll(jobs, cancelled, now);
      } else {
        assert jobs == DeletionRestoredAll(jobs, cancelled, now);
      }
      SubmissionsStayUnique(old(jobs), jobs);
    }

    /** `remove_project`; `removed` says whether the directory could be removed. A removal that
        fails leaves the queue as it was, but for `error` and `updated_at` of the queued jobs. */
    method RemoveProject(p: ProjectId, removed: bool, now: Time) returns (r: Result<bool, QueueError>)
      requires Valid()
      modifies this`jobs, this`tombstones, this`projects
      ensures Valid()
      ensures p !in old(projects) ==> r == Err(ProjectNotFound)
      ensures p in old(projects) && p in old(tombstones) ==> r == Err(DeletionConflict)
      ensures r.Err? ==> jobs == old(jobs) && tombstones == old(tombstones) && projects == old(projects)
      ensures p in old(projects) && p !in old(tombstones) ==> r == Ok(removed)
      ensures r == Ok(true) ==>
        && p in tombstones && projects == old(projects) - {p}
        && jobs == DeletionCancelledAll(old(jobs), p, now) && QueuedIn(jobs, p) == {}
      ensures r == Ok(false) ==>
        && tombstones == old(tombstones) && projects == old(projects)
        && jobs == map j | j in old(jobs) ::
             if j in QueuedIn(old(jobs), p) then old(jobs)[j].(error := None, updatedAt := now) else old(jobs)[j]
    {
      if p !in projects {
        return Err(ProjectNotFound);
      }
      var begun := BeginProjectDeletion(p, now);
      if begun.Err? {
        return Err(begun.error);
      }
      if removed {
        projects := projects - {p};
      } else {
        AbortProjectDeletion(p, begun.value, now);
      }
      return Ok(removed);
    }

    // ---- the commit ----

    /** `_commit_take`, when neither the rename nor SQLite raises. Every outcome but this take's own
        commit discards its staged files, and only that one touches the project. */
    method CommitTake(j: JobId, token: Token, p: ProjectId, k: TakeId, now: Time) returns (r: CommitResult)
      requires Valid()
      modifies this
      ensures Valid() && tombstones == old(tombstones)
      ensures j !in old(jobs) ==>
        r == JobFenced && jobs == old(jobs) && projects == old(projects) && staging == old(staging) - {k}
      ensures j in old(jobs) ==>
        CommitEffect(old(jobs), old(tombstones), old(projects), old(staging), j, token, p, k, now, r,
                     jobs, projects, staging)
    {
      if j !in jobs {
        staging := staging - {k};
        return JobFenced;
      }
      var row := jobs[j];
      if !Owns(row, token) {
        staging := staging - {k};
        return JobFenced;
      }
      if row.cancelRequested {
        staging := staging - {k};
        return CommitCancelled;
      }
      if p in tombstones || p !in projects {
        staging := staging - {k};
        return ProjectDeleted;
      }
      if e :| e in projects[p].takes && GoodTake(projects[p], e, j) {
        jobs := jobs[j := CommittedDone(row, e, now)];
        staging := staging - {k};
        return Committed(e);
      }
      if k !in staging || staging[k].meta.None? {
        staging := staging - {k};
        return NoStagedMeta;
      }
      var meta := staging[k].meta.value;
      staging := staging - {k};
      projects := projects[p := projects[p].(takes := projects[p].takes[k := meta])];
      jobs := jobs[j := CommittedDone(row, k, now)];
      ActivatedIsPublished(old(projects)[p], k, meta);
      var _ := SetActiveTakeIfUnset(p, k);
      return Committed(k);
    }

    /** `committed_take_for_job`. */
    method CommittedTakeForJob(p: ProjectId, j: JobId) returns (earlier: Option<TakeId>)
      ensures earlier.Some? ==> p in projects && GoodTake(projects[p], earlier.value, j)
      ensures earlier.None? ==> p !in projects || !exists e :: GoodTake(projects[p], e, j)
      ensures earlier.Some? ==>
        && earlier.value in projects[p].takes && projects[p].takes[earlier.value].job == Some(j)
        && projects[p].takes[earlier.value].error.None?
      ensures earlier.None? && p in projects ==>
        forall e | e in projects[p].takes && projects[p].takes[e].error.None? :: projects[p].takes[e].job != Some(j)
    {
      if p !in projects {
        return None;
      }
      if e :| e in projects[p].takes && GoodTake(projects[p], e, j) {
        return Some(e);
      }
      return None;
    }

    /** `allocate_staged_take`: under the project lock, and only for a project that exists. */
    method AllocateStagedTake(p: ProjectId, j: JobId, token: Token, k: TakeId) returns (made: bool)
      requires k !in staging
      modifies this`staging
      ensures made <==> p in projects
      ensures staging == if made then old(staging)[k := Staged(p, Some(Owner(j, token)), None)] else old(staging)
    {
      made := p in projects;
      if made {
        staging := staging[k := Staged(p, Some(Owner(j, token)), None)];
      }
    }

    method WriteStagedMeta(k: TakeId, meta: TakeMeta)
      requires k in staging
      modifies this`staging
      ensures staging == old(staging)[k := old(staging)[k].(meta := Some(meta))]
    {
      staging := staging[k := staging[k].(meta := Some(meta))];
    }

    method DiscardStagedTake(k: TakeId)
      modifies this`staging
      ensures staging == old(staging) - {k}
    {
      staging := staging - {k};
    }

    /** `write_error_take`: it raises for a project that is gone. */
    method WriteErrorTake(p: ProjectId, k: TakeId, meta: TakeMeta) returns (written: bool)
      modifies this`projects
      ensures written <==> p in old(projects)
      ensures projects == if written
        then old(projects)[p := old(projects)[p].(takes := old(projects)[p].takes[k := meta])] else old(projects)
    {
      written := p in projects;
      if written {
        projects := projects[p := projects[p].(takes := projects[p].takes[k := meta])];
      }
    }

    /** `set_active_take_if_unset`: an active take that plays is never replaced. */
    method SetActiveTakeIfUnset(p: ProjectId, k: TakeId) returns (became: bool)
      requires p in projects
      modifies this`projects
      ensures projects == old(projects)[p := Activated(old(projects)[p], k)]
      ensures became <==>
        || old(projects)[p].active.None? || old(projects)[p].active.value !in old(projects)[p].takes
        || old(projects)[p].takes[old(projects)[p].active.value].error.Some?
      ensures became ==> projects == old(projects)[p := old(projects)[p].(active := Some(k))]
      ensures !became ==> projects == old(projects)
    {
      var project := projects[p];
      if project.active.Some? && project.active.value in project.takes
         && project.takes[project.active.value].error.None?
      {
        assert Activated(project, k) == project;
        return false;
      }
      projects := projects[p := project.(active := Some(k))];
      return true;
    }

    /** `cleanup_staging`, with no claim or finish meanwhile: what is left has a live owner. */
    method CleanupStaging() returns (removed: set<TakeId>)
      requires Valid()
      modifies this`staging
      ensures removed == set k | k in old(staging) && !OwnerAlive(jobs, old(staging)[k].owner)
      ensures staging == old(staging) - removed
      ensures forall k | k in staging :: OwnerAlive(jobs, staging[k].owner)
      ensures forall k | k in old(staging) ::
        k in staging <==>
          && old(staging)[k].owner.Some? && old(staging)[k].owner.value.job in jobs
          && jobs[old(staging)[k].owner.value.job].status == Running
          && jobs[old(staging)[k].owner.value.job].token == Some(old(staging)[k].owner.value.token)
    {
      removed := {};
      var rest := staging.Keys;
      while rest != {}
        invariant rest <= old(staging).Keys
        invariant removed == set k | k in old(staging) && k !in rest && !OwnerAlive(jobs, old(staging)[k].owner)
        invariant staging == old(staging) - removed
        decreases |rest|
      {
        var k :| k in rest;
        rest := rest - {k};
        if !OwnerAlive(jobs, staging[k].owner) {
          staging := staging - {k};
          removed := removed + {k};
        }
      }
    }
  }
}
