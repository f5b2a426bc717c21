/** One generate-shaped attempt from its claim to its end, with nobody interfering: the runner's
    procedure over the queue and the project directories. What interference can do to it is the
    subject of the protocol. */
module JobRunner {
  import opened Common
  import opened CreationTypes
  import opened JobRows
  import opened JobProtocol
  import opened JobQueue

  /** What the backend does with the brief: it may have resolved it before it fails. */
  datatype Backend =
    | Renders(record: Record)
    | SaysCancelled(resolved: Option<Record>)
    | Raises(resolved: Option<Record>, text: string)

  function ResolvedBy(backend: Backend): Option<Record> {
    match backend
    case Renders(record) => Some(record)
    case SaysCancelled(resolved) => resolved
    case Raises(resolved, _) => resolved
  }

  /** Job `j` of project `p` has a good take. */
  ghost predicate HasTake(projects: map<ProjectId, Project>, p: ProjectId, j: JobId) {
    p in projects && exists e :: GoodTake(projects[p], e, j)
  }

  /** The take is rendered and staged: its metadata, the commit, and the error of a deleted project. */
  method PublishRendered(q: Queue, j: JobId, token: Token, k: TakeId, where: string, now: Time)
    requires q.Valid() && j in q.jobs && CanFinish(q.jobs[j], Some(token)) && q.jobs[j].project in q.projects
    requires k in q.staging && !HasTake(q.projects, q.jobs[j].project, j)
    modifies q
    ensures q.Valid() && q.tombstones == old(q.tombstones) && q.staging == old(q.staging) - {k}
    ensures var r, p := old(q.jobs)[j], old(q.jobs)[j].project;
      && j in q.jobs && q.jobs == old(q.jobs)[j := q.jobs[j]] && q.jobs[j].resolved == r.resolved
      && if p in q.tombstones then
           q.jobs[j].status == Failed && q.jobs[j].takeId.None? && q.projects == old(q.projects)
         else
           && q.jobs[j].status == Done && q.jobs[j].takeId == Some(k)
           && p in q.projects && q.projects == old(q.projects)[p := q.projects[p]]
           && PublishedIn(old(q.projects)[p], q.projects[p], k, TakeMeta(Some(j), None))
  {
    var p := q.jobs[j].project;
    CommittedIsGood(q.projects, p, j);
    hide HasCommitted;
    q.WriteStagedMeta(k, TakeMeta(Some(j), None));
    var result := q.CommitTake(j, token, p, k, now);
    if result == ProjectDeleted {
      q.SetError(j, Some(token), None, DescribeFailure("project deleted", where), now);
    }
  }

  /** The generic failure handler, past its cancel check. */
  method RecordFailure(q: Queue, j: JobId, token: Token, k: TakeId, message: string, now: Time)
    requires q.Valid() && j in q.jobs && Owns(q.jobs[j], token) && q.jobs[j].project in q.projects
    modifies q
    ensures q.Valid() && q.tombstones == old(q.tombstones) && q.staging == old(q.staging) - {k}
    ensures q.jobs == old(q.jobs)[j := SetFailed(old(q.jobs)[j], Some(token), Some(k), message, now)]
    ensures var p := old(q.jobs)[j].project;
      q.projects == old(q.projects)[p := old(q.projects)[p].(
        takes := old(q.projects)[p].takes[k := TakeMeta(Some(j), Some(message))])]
  {
    q.DiscardStagedTake(k);
    var written := q.WriteErrorTake(q.jobs[j].project, k, TakeMeta(Some(j), Some(message)));
    q.SetError(j, Some(token), if written then Some(k) else None, message, now);
  }

  /** `_run_generate_shaped_job` of an attempt that holds its claim. It always ends the job, leaves
      no staging behind, and publishes at most the one take it was given. */
  method RunGenerateShapedJob(q: Queue, j: JobId, token: Token, k: TakeId, backend: Backend, where: string, now: Time)
    requires q.Valid() && j in q.jobs && q.jobs[j].kind == Shaped && Owns(q.jobs[j], token)
    requires k !in q.staging && forall p | p in q.projects :: k !in q.projects[p].takes
    modifies q
    ensures q.Valid() && q.tombstones == old(q.tombstones) && q.staging == old(q.staging)
    ensures q.jobs.Keys == old(q.jobs).Keys && forall i | i in q.jobs && i != j :: q.jobs[i] == old(q.jobs)[i]
    ensures var r, p := old(q.jobs)[j], old(q.jobs)[j].project;
      if r.cancelRequested then
        q.jobs[j].status == Cancelled && q.projects == old(q.projects)
      else if HasTake(old(q.projects), p, j) then
        && q.jobs[j].status == Done && q.jobs[j].takeId.Some? && q.projects == old(q.projects)
        && GoodTake(q.projects[p], q.jobs[j].takeId.value, j) && q.jobs[j].resolved == r.resolved
      else if p !in old(q.projects) then
        q.jobs[j].status == Failed && q.jobs[j].takeId.None? && q.projects == old(q.projects)
      else
        && match backend
           case SaysCancelled(resolved) =>
             && q.jobs[j].resolved == (if r.resolved.Some? then r.resolved else resolved)
             && q.jobs[j].status == Cancelled && q.projects == old(q.projects)
           case Raises(resolved, text) =>
             && q.jobs[j].resolved == (if r.resolved.Some? then r.resolved else resolved)
             && q.jobs[j].status == Failed && q.jobs[j].takeId == Some(k)
             && q.jobs[j].error == Some(DescribeFailure(text, where))
             && q.projects == old(q.projects)[p := old(q.projects)[p].(
                  takes := old(q.projects)[p].takes[k := TakeMeta(Some(j), Some(DescribeFailure(text, where)))])]
           case Renders(record) =>
             && q.jobs[j].resolved == (if r.resolved.Some? then r.resolved else Some(record))
             && if p in q.tombstones then
               q.jobs[j].status == Failed && q.jobs[j].takeId.None? && q.projects == old(q.projects)
             else
               && q.jobs[j].status == Done && q.jobs[j].takeId == Some(k)
               && p in q.projects && q.projects == old(q.projects)[p := q.projects[p]]
               && PublishedIn(old(q.projects)[p], q.projects[p], k, TakeMeta(Some(j), None))
  {
    hide EndedCancelled, SameButOutcome, OnlyRow, UniqueSubmissions;
    var row := q.jobs[j];
    var p := row.project;
    ghost var staging := q.staging;
    assert staging - {k} == staging;
    if row.cancelRequested {
      q.MarkCancelled(j, Some(token), now);
      return;
    }
    var earlier := q.CommittedTakeForJob(p, j);
    if earlier.Some? {
      var _ := q.FinishDone(j, Some(token), earlier, now);
      return;
    }
    var made := q.AllocateStagedTake(p, j, token, k);
    if !made {
      q.SetError(j, Some(token), None, DescribeFailure("project not found", where), now);
      return;
    }
    assert q.staging - {k} == staging;
    var record := ResolvedBy(backend);
    if row.resolved.None? && record.Some? {
      var _ := q.FreezeResolved(j, Some(token), record.value, now);
    }
    match backend {
      case SaysCancelled(_) =>
        q.DiscardStagedTake(k);
        q.MarkCancelled(j, Some(token), now);
      case Raises(_, text) =>
        RecordFailure(q, j, token, k, DescribeFailure(text, where), now);
      case Renders(_) =>
        PublishRendered(q, j, token, k, where, now);
    }
  }
}
