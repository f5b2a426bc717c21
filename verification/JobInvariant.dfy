/** What every reachable state of the job protocol satisfies, one group for each part of the
    state it speaks of. */
module JobInvariant {
  import opened Common
  import opened CreationTypes
  import opened JobRows
  import opened JobProtocol

  function ClaimsOf(issued: map<Token, JobId>, j: JobId): set<Token> {
    set t | t in issued && issued[t] == j
  }

  /** A row that may be claimed again, should it be queued. */
  predicate Fresh(r: Row) {
    r.attempts < MAX_ATTEMPTS && !r.cancelRequested && r.remoteHandle.None?
  }

  predicate AtOrBeforeResolve(pc: Pc) {
    match pc
    case AtFirstCheck | AtLookup | AtEarlyFinish | AtSecondCheck | AtAllocate | InWorker => true
    case _ => false
  }

  /** The attempt holds a staging directory it still means to commit. */
  predicate HoldsStaging(pc: Pc) {
    match pc
    case InWorker | AtRender | AtRemoteWait | Rendered | AtMeta | AtCommit => true
    case _ => false
  }

  // ---- rows and their claims ----

  /** A row's attempts count its claims, its token is the latest claim's, and a queued row may
      be claimed. */
  ghost predicate RowOk(j: JobId, r: Row, issued: map<Token, JobId>, latest: map<JobId, Token>) {
    && r.attempts == |ClaimsOf(issued, j)| <= MAX_ATTEMPTS
    && (r.status == Queued ==> Fresh(r))
    && (r.status == Running ==> r.token.Some?)
    && (r.token.Some? ==> j in latest && r.token.value == latest[j])
  }

  ghost predicate RowsOk(jobs: Jobs, issued: map<Token, JobId>, latest: map<JobId, Token>) {
    && (forall j :: j in jobs ==> RowOk(j, jobs[j], issued, latest))
    && (forall t :: t in issued ==> issued[t] in jobs && issued[t] in latest)
    && (forall j :: j in latest ==> j in jobs && latest[j] in issued && issued[latest[j]] == j)
  }

  /** A retry between its transactions that was not raced has never been claimed. */
  ghost predicate RetriesOk(jobs: Jobs, copying: set<JobId>, inherited: map<JobId, Original>,
                            raced: set<JobId>, latest: map<JobId, Token>) {
    && (forall j :: j in copying ==> j in inherited && (j in raced || j !in latest))
    && (forall j :: j in inherited ==> j in jobs)
  }

  // ---- attempts ----

  /** What the program counter says of the attempt's locals and of its row. */
  predicate PcOk(a: Attempt, r: Row) {
    match a.pc
    case AtFirstCheck | AtLookup | AtSecondCheck | AtAllocate => a.take.None?
    case AtEarlyFinish => a.take.None? && a.earlier.Some?
    case InWorker | Rendered | AtMeta | AtCommit | AtActivate | AtErrorTake => a.take.Some?
    case AtRender => a.take.Some? && a.record.Some?
    case AtRemoteWait => a.take.Some? && r.remoteHandle.Some?
    case AtCancel => r.cancelRequested || r.remoteHandle.Some?
    case AtFailure | AtErrorRow => true
  }

  ghost predicate AttemptOk(a: Attempt, t: Token, jobs: Jobs, issued: map<Token, JobId>, takeIds: set<TakeId>) {
    && t in issued && issued[t] == a.job
    && a.job in jobs && jobs[a.job].kind == Shaped && jobs[a.job].project == a.project
    && (a.take.Some? ==> a.take.value in takeIds)
    && PcOk(a, jobs[a.job])
  }

  ghost predicate AttemptsOk(attempts: map<Token, Attempt>, jobs: Jobs, issued: map<Token, JobId>,
                             takeIds: set<TakeId>) {
    forall t :: t in attempts ==> AttemptOk(attempts[t], t, jobs, issued, takeIds)
  }

  // ---- the frozen record ----

  /** An attempt of a job whose retry, if it is one, was not overtaken by a claim agrees with
      the row's frozen record. While an attempt may still freeze a record, there is none. */
  ghost predicate RecordOk(a: Attempt, t: Token, r: Row, raced: bool) {
    && (a.resolved.Some? && !raced ==> r.resolved == a.resolved)
    && (a.record.Some? && !raced ==> r.resolved == a.record)
    && (AtOrBeforeResolve(a.pc) && a.resolved.None? && Owns(r, t) ==> r.resolved.None?)
  }

  ghost predicate RecordsOk(attempts: map<Token, Attempt>, jobs: Jobs, raced: set<JobId>) {
    forall t | t in attempts && attempts[t].job in jobs ::
      RecordOk(attempts[t], t, jobs[attempts[t].job], attempts[t].job in raced)
  }

  ghost predicate RendersOk(renders: set<Render>, jobs: Jobs, issued: map<Token, JobId>, raced: set<JobId>) {
    forall e | e in renders ::
      && e.token in issued && issued[e.token] == e.job && e.job in jobs
      && (e.job !in raced ==> jobs[e.job].resolved == Some(e.record))
  }

  // ---- takes ----

  ghost predicate TakeOk(m: TakeMeta, p: ProjectId, jobs: Jobs) {
    m.job.Some? && m.job.value in jobs && jobs[m.job.value].project == p
    && jobs[m.job.value].kind == Shaped
  }

  ghost predicate OneGoodTake(p: Project) {
    forall k, k' | k in p.takes && k' in p.takes ::
      p.takes[k].error.None? && p.takes[k'].error.None? && p.takes[k].job == p.takes[k'].job ==> k == k'
  }

  /** Each take names a job of its project, and a job has at most one good take. */
  ghost predicate TakesOk(projects: map<ProjectId, Project>, jobs: Jobs, takeIds: set<TakeId>) {
    forall p | p in projects ::
      && OneGoodTake(projects[p])
      && forall k :: k in projects[p].takes ==> k in takeIds && TakeOk(projects[p].takes[k], p, jobs)
  }

  /** A done job's take, in a project no failed removal has damaged. */
  ghost predicate NamesTake(j: JobId, take: Option<TakeId>, p: Project, overwritten: bool) {
    && take.Some? && take.value in p.takes && p.takes[take.value].job == Some(j)
    && (!overwritten ==> p.takes[take.value].error.None?)
  }

  /** The job of a good take is done with it, or was torn or overwritten. */
  ghost predicate OnlyTakesOf(j: JobId, r: Row, p: Project, excused: bool) {
    forall k | k in p.takes && p.takes[k] == TakeMeta(Some(j), None) ::
      (r.status == Done && r.takeId == Some(k)) || excused
  }

  ghost predicate DoneOk(jobs: Jobs, projects: map<ProjectId, Project>, damaged: set<ProjectId>,
                         torn: set<JobId>, overwritten: set<JobId>) {
    forall j | j in jobs && jobs[j].kind == Shaped && jobs[j].project in projects ::
      && (jobs[j].status == Done && jobs[j].project !in damaged ==>
          NamesTake(j, jobs[j].takeId, projects[jobs[j].project], j in overwritten))
      && OnlyTakesOf(j, jobs[j], projects[jobs[j].project], j in torn || j in overwritten)
  }

  /** The take an early finish is about to record. */
  ghost predicate EarlierOk(attempts: map<Token, Attempt>, projects: map<ProjectId, Project>,
                            damaged: set<ProjectId>, overwritten: set<JobId>) {
    forall t | t in attempts && attempts[t].pc == AtEarlyFinish
      && attempts[t].project in projects && attempts[t].project !in damaged ::
      NamesTake(attempts[t].job, attempts[t].earlier, projects[attempts[t].project],
                attempts[t].job in overwritten)
  }

  // ---- staging ----

  /** A staged directory under an attempt's take id is that attempt's. */
  ghost predicate StagedOk(a: Attempt, t: Token, d: Staged) {
    && d.project == a.project
    && (d.owner.Some? ==> d.owner == Some(Owner(a.job, t)))
    && (d.meta.Some? ==> d.meta == Some(TakeMeta(Some(a.job), None)))
    && (a.pc == AtCommit ==> d.meta.Some?)
  }

  ghost predicate OwnStagingOk(attempts: map<Token, Attempt>, staging: map<TakeId, Staged>) {
    && (forall t | t in attempts && attempts[t].take.Some? && attempts[t].take.value in staging ::
          StagedOk(attempts[t], t, staging[attempts[t].take.value]))
    && (forall t, t' | t in attempts && t' in attempts && attempts[t].take.Some? ::
          attempts[t].take == attempts[t'].take ==> t == t')
  }

  /** A take an attempt may still overwrite is not a committed one, unless its job is excused;
      a take not committed yet is nowhere. */
  ghost predicate OwnTakeOk(a: Attempt, p: ProjectId, m: TakeMeta, overwritten: set<JobId>) {
    && p == a.project && m.job == Some(a.job)
    && !HoldsStaging(a.pc)
    && (a.pc == AtActivate || a.job in overwritten || m.error.Some?)
  }

  ghost predicate OwnTakesOk(attempts: map<Token, Attempt>, projects: map<ProjectId, Project>,
                             overwritten: set<JobId>) {
    forall t, p | t in attempts && p in projects && attempts[t].take.Some?
      && attempts[t].take.value in projects[p].takes ::
      OwnTakeOk(attempts[t], p, projects[p].takes[attempts[t].take.value], overwritten)
  }

  /** The staging of an attempt that still owns its row is in place and not doomed. */
  ghost predicate Kept(a: Attempt, t: Token, staging: map<TakeId, Staged>, doomed: set<TakeId>) {
    a.take.Some? ==>
      && a.take.value in staging && a.take.value !in doomed
      && staging[a.take.value].owner == Some(Owner(a.job, t))
  }

  ghost predicate StagingKept(attempts: map<Token, Attempt>, jobs: Jobs, staging: map<TakeId, Staged>,
                              doomed: set<TakeId>) {
    forall t | t in attempts && HoldsStaging(attempts[t].pc) && attempts[t].job in jobs
      && Owns(jobs[attempts[t].job], t) :: Kept(attempts[t], t, staging, doomed)
  }

  /** A doomed directory's owner is dead for good. */
  ghost predicate DoomedOk(staging: map<TakeId, Staged>, doomed: set<TakeId>, jobs: Jobs,
                           takeIds: set<TakeId>, issued: map<Token, JobId>) {
    && (forall k :: k in staging || k in doomed ==> k in takeIds)
    && (forall k :: k in staging && staging[k].owner.Some? ==> staging[k].owner.value.token in issued)
    && (forall k :: k in doomed && k in staging ==> !OwnerAlive(jobs, staging[k].owner))
  }

  // ---- removals ----

  ghost predicate RemovalsOk(removals: map<ProjectId, Removal>, tombstones: set<ProjectId>, jobs: Jobs) {
    && (forall p :: p in removals ==> p in tombstones)
    && (forall p, j | p in removals && j in removals[p].cancelled ::
          j in jobs && jobs[j].project == p && jobs[j].status == Failed && Fresh(jobs[j]))
  }

  ghost predicate ProjectsOk(projects: map<ProjectId, Project>, jobs: Jobs, created: set<ProjectId>) {
    && (forall p :: p in projects ==> p in created)
    && (forall j :: j in jobs ==> jobs[j].project in created)
  }

  // ---- the whole ----

  ghost predicate Rows(s: Sys) { RowsOk(s.jobs, s.issued, s.latest) }
  ghost predicate Retries(s: Sys) { RetriesOk(s.jobs, s.copying, s.inherited, s.raced, s.latest) }
  ghost predicate Attempts(s: Sys) { AttemptsOk(s.attempts, s.jobs, s.issued, s.takeIds) }
  ghost predicate Records(s: Sys) { RecordsOk(s.attempts, s.jobs, s.raced) }
  ghost predicate Renders(s: Sys) { RendersOk(s.renders, s.jobs, s.issued, s.raced) }
  ghost predicate Takes(s: Sys) { TakesOk(s.projects, s.jobs, s.takeIds) }
  ghost predicate Dones(s: Sys) { DoneOk(s.jobs, s.projects, s.damaged, s.torn, s.overwritten) }
  ghost predicate Earliers(s: Sys) { EarlierOk(s.attempts, s.projects, s.damaged, s.overwritten) }
  ghost predicate OwnStaging(s: Sys) { OwnStagingOk(s.attempts, s.staging) }
  ghost predicate OwnTakes(s: Sys) { OwnTakesOk(s.attempts, s.projects, s.overwritten) }
  ghost predicate Kepts(s: Sys) { StagingKept(s.attempts, s.jobs, s.staging, s.doomed) }
  ghost predicate Doomeds(s: Sys) { DoomedOk(s.staging, s.doomed, s.jobs, s.takeIds, s.issued) }
  ghost predicate Removals(s: Sys) { RemovalsOk(s.removals, s.tombstones, s.jobs) }
  ghost predicate Created(s: Sys) { ProjectsOk(s.projects, s.jobs, s.created) }

  /** Everything but the done jobs and the frozen records. */
  ghost predicate Core(s: Sys) {
    && Rows(s) && Retries(s) && Attempts(s) && Takes(s) && Earliers(s)
    && OwnStaging(s) && OwnTakes(s) && Kepts(s) && Doomeds(s)
    && Removals(s) && Created(s)
  }

  ghost predicate Frozens(s: Sys) {
    Records(s) && Renders(s)
  }

  ghost predicate Inv(s: Sys) {
    Core(s) && Dones(s) && Frozens(s)
  }

  lemma InitialOk()
    ensures Inv(INITIAL)
  {
  }
}
