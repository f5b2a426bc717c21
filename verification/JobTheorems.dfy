/** The protocol's properties, over every run: any interleaving of claims, reclaims, cancels,
    retries, deletions and stale attempts, with a crash after any step. */
module JobTheorems {
  import opened Common
  import opened CreationTypes
  import opened JobRows
  import opened JobProtocol
  import opened JobInvariant
  import opened JobMoves
  import opened JobSteps
  import opened JobHistory
  import opened JobTakes
  import opened JobRecords

  // ---- takes ----

  /** A job has at most one good take, in one project. */
  lemma AtMostOneGoodTake(run: seq<Sys>, steps: seq<Step>, i: nat, j: JobId,
                          p: ProjectId, k: TakeId, p': ProjectId, k': TakeId)
    requires IsRun(run, steps) && i < |run|
    requires Found(run[i], p, j, k) && Found(run[i], p', j, k')
    ensures p == p' && k == k'
  {
    ReachableTakes(run, steps, i);
    assert TakeOk(run[i].projects[p].takes[k], p, run[i].jobs);
    assert TakeOk(run[i].projects[p'].takes[k'], p', run[i].jobs);
  }

  lemma ReachableTakes(run: seq<Sys>, steps: seq<Step>, i: nat)
    requires IsRun(run, steps) && i < |run|
    ensures Takes(run[i]) && Dones(run[i])
  {
    hide Next, Takes, Dones;
    RunKeepsInv(run, steps, i);
  }

  /** The job's project is there, and no failed removal has taken files out of it. */
  predicate Intact(s: Sys, j: JobId) {
    && j in s.jobs && s.jobs[j].kind == Shaped
    && s.jobs[j].project in s.projects && s.jobs[j].project !in s.damaged
  }

  /** A done job in an intact project names a take that carries its own id. It is a good take
      unless something raised after the rename, so that the failure handler ran. */
  lemma DoneNamesItsTake(run: seq<Sys>, steps: seq<Step>, i: nat, j: JobId)
    requires IsRun(run, steps) && i < |run|
    requires Intact(run[i], j) && run[i].jobs[j].status == Done
    ensures var r, p := run[i].jobs[j], run[i].projects[run[i].jobs[j].project];
      && r.takeId.Some? && r.takeId.value in p.takes
      && p.takes[r.takeId.value].job == Some(j)
      && (j !in run[i].overwritten ==> p.takes[r.takeId.value].error.None?)
  {
    ReachableTakes(run, steps, i);
  }

  /** Without a crash or an exception between the rename and the end of the commit, a job is
      done exactly when it has a good take, and that is the one it names. */
  lemma DoneIffTake(run: seq<Sys>, steps: seq<Step>, i: nat, j: JobId)
    requires IsRun(run, steps) && i < |run| && Intact(run[i], j)
    requires j !in run[i].torn && j !in run[i].overwritten
    ensures var r := run[i].jobs[j];
      forall k: TakeId :: Found(run[i], r.project, j, k) <==> r.status == Done && r.takeId == Some(k)
  {
    ReachableTakes(run, steps, i);
  }

  // ---- cancelling and committing ----

  /** Once the flag is set on a job that is not done, the job is never done, never queued, and
      no take is ever published for it. */
  lemma {:induction false} CancelStopsCommit(run: seq<Sys>, steps: seq<Step>, i: nat, m: nat, j: JobId)
    requires IsRun(run, steps) && i <= m < |run| && j in run[i].jobs
    requires run[i].jobs[j].cancelRequested && run[i].jobs[j].status != Done
    ensures j in run[m].jobs && run[m].jobs[j].cancelRequested
    ensures run[m].jobs[j].status == Running || run[m].jobs[j].status == Cancelled || run[m].jobs[j].status == Failed
    ensures forall p, k :: Found(run[m], p, j, k) ==> Found(run[i], p, j, k)
    decreases m - i
  {
    hide Inv, Next, Later;
    StillCancelled(run, steps, i, m, j);
    if i < m {
      CancelStopsCommit(run, steps, i, m - 1, j);
      forall p, k | Found(run[m], p, j, k)
        ensures Found(run[i], p, j, k)
      {
        if !Found(run[m - 1], p, j, k) {
          ReachableStaging(run, steps, m - 1);
          OnlyCommitPublishes(run[m - 1], steps[m - 1], run[m], p, j, k);
        }
      }
    }
  }

  lemma ReachableStaging(run: seq<Sys>, steps: seq<Step>, i: nat)
    requires IsRun(run, steps) && i < |run|
    ensures OwnStaging(run[i]) && Attempts(run[i]) && Rows(run[i]) && Kepts(run[i]) && Doomeds(run[i])
  {
    hide Next, OwnStaging, Rows, Attempts, Kepts, Doomeds;
    RunKeepsInv(run, steps, i);
  }

  lemma StillCancelled(run: seq<Sys>, steps: seq<Step>, i: nat, m: nat, j: JobId)
    requires IsRun(run, steps) && i <= m < |run| && j in run[i].jobs
    requires run[i].jobs[j].cancelRequested && run[i].jobs[j].status != Done
    ensures j in run[m].jobs && run[m].jobs[j].cancelRequested
    ensures run[m].jobs[j].status != Done && run[m].jobs[j].status != Queued
  {
    hide Inv, Next, Attempts, OwnStaging;
    RunIsLater(run, steps, i, m);
    ReachableStaging(run, steps, m);
    assert RowLater(run[i].jobs[j], run[m].jobs[j], run[i].issued);
    assert RowOk(j, run[m].jobs[j], run[m].issued, run[m].latest);
  }

  /** A generate-shaped job that is done or cancelled is never written again, whatever cancels,
      reclaims, expiries or stale attempts follow. */
  lemma SettledForGood(run: seq<Sys>, steps: seq<Step>, i: nat, m: nat, j: JobId)
    requires IsRun(run, steps) && i <= m < |run| && j in run[i].jobs && Settled(run[i].jobs[j])
    ensures j in run[m].jobs && run[m].jobs[j] == run[i].jobs[j]
  {
    hide Next;
    RunIsLater(run, steps, i, m);
    assert RowLater(run[i].jobs[j], run[m].jobs[j], run[i].issued);
  }

  /** A cancel after the commit changes nothing: the row stands, and so does its take, while the
      project does. */
  lemma CommitOutlastsCancel(run: seq<Sys>, steps: seq<Step>, i: nat, m: nat, j: JobId)
    requires IsRun(run, steps) && i <= m < |run| && Intact(run[i], j) && run[i].jobs[j].status == Done
    ensures j in run[m].jobs && run[m].jobs[j] == run[i].jobs[j]
    ensures Intact(run[m], j) && j !in run[m].overwritten ==>
      run[m].jobs[j].takeId.Some? && Found(run[m], run[m].jobs[j].project, j, run[m].jobs[j].takeId.value)
  {
    hide Next;
    SettledForGood(run, steps, i, m, j);
    if Intact(run[m], j) && j !in run[m].overwritten {
      DoneNamesItsTake(run, steps, m, j);
    }
  }

  // ---- fencing ----

  /** A running row's token is the one its latest claim was issued. */
  lemma RunningUnderLatestClaim(run: seq<Sys>, steps: seq<Step>, i: nat, j: JobId)
    requires IsRun(run, steps) && i < |run| && j in run[i].jobs && run[i].jobs[j].status == Running
    ensures j in run[i].latest && run[i].jobs[j].token == Some(run[i].latest[j])
    ensures run[i].latest[j] in run[i].issued && run[i].issued[run[i].latest[j]] == j
  {
    hide Next, Attempts, OwnStaging;
    ReachableStaging(run, steps, i);
    assert RowOk(j, run[i].jobs[j], run[i].issued, run[i].latest);
  }

  /** An attempt that has lost its row never owns it again. */
  lemma StaleForGood(run: seq<Sys>, steps: seq<Step>, i: nat, m: nat, t: Token, j: JobId)
    requires IsRun(run, steps) && i <= m < |run|
    requires t in run[i].issued && j in run[i].jobs && !Owns(run[i].jobs[j], t)
    ensures j in run[m].jobs && !Owns(run[m].jobs[j], t)
  {
    hide Next;
    RunIsLater(run, steps, i, m);
    assert RowLater(run[i].jobs[j], run[m].jobs[j], run[i].issued);
  }

  /** No move of a stale attempt changes any row or publishes any take. */
  lemma StaleWritesNothing(run: seq<Sys>, steps: seq<Step>, i: nat, t: Token, move: Move)
    requires IsRun(run, steps) && i < |steps| && steps[i] == OnAttempt(t, move)
    requires t in run[i].attempts && run[i].attempts[t].job in run[i].jobs
    requires !Owns(run[i].jobs[run[i].attempts[t].job], t)
    ensures run[i + 1].jobs == run[i].jobs
    ensures forall p, j, k :: Found(run[i + 1], p, j, k) ==> Found(run[i], p, j, k)
  {
    hide AttemptNext, NoneFound;
    var s, s' := run[i], run[i + 1];
    assert Next(s, steps[i], s');
    ReachableRecords(run, steps, i);
    AttemptWrites(s, t, move, s');
    assert s.jobs == s.jobs[s.attempts[t].job := RowOf(s, t)];
    AttemptPublishes(s, t, move, s');
  }

  lemma ReachableRecords(run: seq<Sys>, steps: seq<Step>, i: nat)
    requires IsRun(run, steps) && i < |run|
    ensures Rows(run[i]) && Attempts(run[i]) && Records(run[i]) && Renders(run[i]) && OwnStaging(run[i])
  {
    hide Next, OwnStaging, Rows, Attempts, Records, Renders;
    RunKeepsInv(run, steps, i);
  }

  // ---- the frozen record ----

  /** Any two local renders of a job whose retry, if it is one, was not overtaken by a claim
      render the identical brief and seed: the row's frozen record. */
  lemma RendersAreIdentical(run: seq<Sys>, steps: seq<Step>, i: nat, e: Render, e': Render)
    requires IsRun(run, steps) && i < |run| && e in run[i].renders && e' in run[i].renders
    requires e.job == e'.job && e.job !in run[i].raced
    ensures e.record == e'.record
    ensures e.job in run[i].jobs && run[i].jobs[e.job].resolved == Some(e.record)
  {
    hide Next, Rows, Attempts, Records, OwnStaging;
    ReachableRecords(run, steps, i);
  }

  /** A record that a late copy replaces belongs to a job that was claimed between its retry's
      two transactions. */
  lemma LateCopyWasRaced(run: seq<Sys>, steps: seq<Step>, i: nat, j: JobId)
    requires IsRun(run, steps) && i < |steps| && steps[i] == RetryCopy(j)
    requires j in run[i].jobs && run[i].jobs[j].resolved.Some?
    ensures j in run[i].raced
  {
    hide Inv;
    assert Next(run[i], steps[i], run[i + 1]);
    RunKeepsRetried(run, steps, i);
  }

  /** A retry whose second transaction found it queued has its original's snapshot, and its
      frozen record when the original had one. */
  lemma RetryInherits(run: seq<Sys>, steps: seq<Step>, i: nat, j: JobId)
    requires IsRun(run, steps) && i < |run| && j in run[i].inherited
    requires j !in run[i].copying && j !in run[i].missed
    ensures j in run[i].jobs && Inherits(run[i].jobs[j], run[i].inherited[j])
  {
    hide Next;
    RunKeepsRetried(run, steps, i);
  }

  /** Each job retries the one before it, all copies have landed. */
  ghost predicate RetryChain(s: Sys, chain: seq<JobId>) {
    forall n | 0 < n < |chain| ::
      && chain[n] in s.inherited && s.inherited[chain[n]].job == chain[n - 1]
      && s.inherited[chain[n]].settled
      && chain[n] !in s.copying && chain[n] !in s.missed
  }

  /** Along a chain of retries the snapshot is the first job's. */
  lemma {:induction false} ChainSharesSnapshot(run: seq<Sys>, steps: seq<Step>, i: nat, chain: seq<JobId>, n: nat)
    requires IsRun(run, steps) && i < |run| && RetryChain(run[i], chain) && n < |chain|
    requires chain[0] in run[i].jobs && run[i].jobs[chain[0]].snapshot.Some?
    ensures chain[n] in run[i].jobs && run[i].jobs[chain[n]].snapshot == run[i].jobs[chain[0]].snapshot
  {
    hide Next;
    if n > 0 {
      ChainSharesSnapshot(run, steps, i, chain, n - 1);
      RunKeepsRetried(run, steps, i);
      assert Inherits(run[i].jobs[chain[n]], run[i].inherited[chain[n]]);
    }
  }

  /** And so is the frozen record, once the first retry found one. */
  lemma {:induction false} ChainSharesRecord(run: seq<Sys>, steps: seq<Step>, i: nat, chain: seq<JobId>, n: nat)
    requires IsRun(run, steps) && i < |run| && RetryChain(run[i], chain) && 0 < n < |chain|
    requires run[i].inherited[chain[1]].resolved.Some?
    ensures chain[n] in run[i].jobs && run[i].inherited[chain[n]].resolved == run[i].inherited[chain[1]].resolved
    ensures run[i].jobs[chain[n]].resolved == run[i].inherited[chain[1]].resolved
  {
    hide Next;
    RunKeepsRetried(run, steps, i);
    assert Inherits(run[i].jobs[chain[n]], run[i].inherited[chain[n]]);
    if n > 1 {
      ChainSharesRecord(run, steps, i, chain, n - 1);
    }
  }

  // ---- the staging cleanup and the active take ----

  /** The cleanup discards a staged take only when the attempt that made it can no longer commit:
      now, and in every later state. */
  lemma CleanupSparesCommits(run: seq<Sys>, steps: seq<Step>, i: nat, m: nat, k: TakeId, t: Token)
    requires IsRun(run, steps) && i < |steps| && i <= m < |run|
    requires steps[i] == Doom(k) || steps[i] == DiscardDoomed(k)
    requires t in run[i].attempts && HoldsStaging(run[i].attempts[t].pc) && run[i].attempts[t].take == Some(k)
    ensures var j := run[i].attempts[t].job; j in run[m].jobs && !Owns(run[m].jobs[j], t)
  {
    var j := run[i].attempts[t].job;
    {
      hide Rows;
      assert Next(run[i], steps[i], run[i + 1]);
      ReachableStaging(run, steps, i);
      assert AttemptOk(run[i].attempts[t], t, run[i].jobs, run[i].issued, run[i].takeIds);
      assert Owns(run[i].jobs[j], t) ==> Kept(run[i].attempts[t], t, run[i].staging, run[i].doomed);
    }
    hide Next;
    StaleForGood(run, steps, i, m, t, j);
  }

  /** The project's active take plays. */
  predicate Playable(p: Project) {
    p.active.Some? && p.active.value in p.takes && p.takes[p.active.value].error.None?
  }

  ghost predicate KeepsActive(s: Sys, s': Sys) {
    forall p | p in s.projects && Playable(s.projects[p]) ::
      p in s'.projects && s'.projects[p].active == s.projects[p].active
  }

  lemma LocalKeepsActive(s: Sys, s': Sys)
    requires s'.projects == s.projects
    ensures KeepsActive(s, s')
  {
  }

  lemma ActivationKeepsActive(s: Sys, t: Token, raises: bool, s': Sys)
    requires ActivateStep(s, t, raises, s')
    ensures KeepsActive(s, s')
  {
  }

  lemma ErrorTakeKeepsActive(s: Sys, t: Token, text: string, written: bool, s': Sys)
    requires WriteErrorTakeStep(s, t, text, written, s')
    ensures KeepsActive(s, s')
  {
  }

  lemma CommitKeepsActive(s: Sys, t: Token, outcome: CommitOutcome, now: Time, s': Sys)
    requires PublishStep(s, t, outcome, now, s')
    ensures KeepsActive(s, s')
  {
  }

  /** No move of the worker replaces an active take that plays. */
  lemma WorkerKeepsActive(s: Sys, t: Token, move: Move, s': Sys)
    requires AttemptNext(s, t, move, s')
    ensures KeepsActive(s, s')
  {
    hide KeepsActive;
    if IsLocal(move) {
      hide AttemptNext;
      LocalMoves(s, t, move, s');
      LocalKeepsActive(s, s');
    } else if move.Commit? {
      hide CommitStep, PublishStep;
      CommitIsLocalOrPublishes(s, t, move.outcome, move.now, s');
      if PublishStep(s, t, move.outcome, move.now, s') {
        CommitKeepsActive(s, t, move.outcome, move.now, s');
      } else {
        LocalKeepsActive(s, s');
      }
    } else if move.Activate? {
      hide ActivateStep;
      ActivationKeepsActive(s, t, move.raises, s');
    } else if move.WriteErrorTake? {
      hide WriteErrorTakeStep;
      ErrorTakeKeepsActive(s, t, move.text, move.written, s');
    } else {
      LocalKeepsActive(s, s');
    }
  }
}
