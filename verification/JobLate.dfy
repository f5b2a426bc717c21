/** Attempts claimed once a job has its take: they find it, and render nothing. */
module JobLate {
  import opened Common
  import opened CreationTypes
  import opened JobRows
  import opened JobProtocol
  import opened JobInvariant
  import opened JobMoves
  import opened JobSteps
  import opened JobHistory
  import opened JobTheorems
  import opened JobRenames

  /** Where an attempt can stand that was claimed when take `k` was there already. */
  predicate Late(a: Attempt, k: TakeId) {
    && a.take.None?
    && match a.pc
       case AtFirstCheck | AtLookup | AtCancel | AtFailure | AtErrorRow => true
       case AtEarlyFinish => a.earlier == Some(k)
       case _ => false
  }

  predicate LateMove(move: Move) {
    move.FirstCheck? || move.Lookup? || move.EarlyFinish? || move.Raise? || move.HandleFailure?
    || move.MarkCancelled? || move.WriteErrorRow? || move.Crash?
  }

  lemma OnlyLateMoves(s: Sys, t: Token, move: Move, s': Sys, k: TakeId)
    requires AttemptNext(s, t, move, s') && t in s.attempts && Late(s.attempts[t], k)
    ensures LateMove(move)
  {
    hide NoneFound, Found, AtPc, SetAttempt, SetRow, EndAttempt, Discard, PutTake, Owns, Fenced;
  }

  predicate StaysLate(s': Sys, t: Token, k: TakeId) {
    t in s'.attempts ==> Late(s'.attempts[t], k)
  }

  lemma CheckStaysLate(s: Sys, t: Token, s': Sys, k: TakeId)
    requires CheckStep(s, t, AtFirstCheck, AtLookup, s') && Late(s.attempts[t], k)
    ensures StaysLate(s', t, k)
  {
  }

  /** The lookup cannot miss a take that is there, and there is no other one. */
  lemma LookupStaysLate(s: Sys, t: Token, earlier: Option<TakeId>, s': Sys, k: TakeId)
    requires Takes(s) && LookupStep(s, t, earlier, s') && Late(s.attempts[t], k)
    requires Found(s, s.attempts[t].project, s.attempts[t].job, k)
    ensures StaysLate(s', t, k)
  {
    assert earlier == Some(k);
  }

  lemma HandlerStaysLate(s: Sys, t: Token, move: Move, s': Sys, k: TakeId)
    requires AttemptNext(s, t, move, s') && t in s.attempts && Late(s.attempts[t], k)
    requires move.Raise? || move.HandleFailure?
    ensures StaysLate(s', t, k)
  {
  }

  lemma EndStaysLate(s: Sys, t: Token, move: Move, s': Sys, k: TakeId)
    requires AttemptNext(s, t, move, s')
    requires move.EarlyFinish? || move.MarkCancelled? || move.WriteErrorRow? || move.Crash?
    ensures StaysLate(s', t, k)
  {
  }

  lemma EntryStaysLate(s: Sys, t: Token, move: Move, s': Sys, k: TakeId)
    requires Takes(s) && AttemptNext(s, t, move, s') && t in s.attempts && Late(s.attempts[t], k)
    requires Found(s, s.attempts[t].project, s.attempts[t].job, k)
    requires move.FirstCheck? || move.Lookup?
    ensures StaysLate(s', t, k)
  {
    hide Takes, Found, StaysLate, LookupStep, CheckStep, Late;
    if move.FirstCheck? {
      CheckStaysLate(s, t, s', k);
    } else {
      LookupStaysLate(s, t, move.earlier, s', k);
    }
  }

  lemma OwnMoveStaysLate(s: Sys, t: Token, move: Move, s': Sys, k: TakeId)
    requires Takes(s) && AttemptNext(s, t, move, s') && t in s.attempts && Late(s.attempts[t], k)
    requires Found(s, s.attempts[t].project, s.attempts[t].job, k)
    ensures StaysLate(s', t, k) && LateMove(move)
  {
    hide Takes, AttemptNext, Found, StaysLate, Late;
    OnlyLateMoves(s, t, move, s', k);
    if move.FirstCheck? || move.Lookup? {
      EntryStaysLate(s, t, move, s', k);
    } else if move.Raise? || move.HandleFailure? {
      HandlerStaysLate(s, t, move, s', k);
    } else {
      EndStaysLate(s, t, move, s', k);
    }
  }

  // ---- one step ----

  /** Every attempt of `j` whose token is not in `old` is late. */
  ghost predicate AllLate(s: Sys, before: set<Token>, j: JobId, k: TakeId) {
    forall t | t in s.attempts && t !in before && s.attempts[t].job == j :: Late(s.attempts[t], k)
  }

  lemma FoundInItsProject(s: Sys, t: Token, p: ProjectId, k: TakeId)
    requires Takes(s) && Attempts(s) && t in s.attempts && Found(s, p, s.attempts[t].job, k)
    ensures s.attempts[t].project == p
  {
    assert TakeOk(s.projects[p].takes[k], p, s.jobs);
    assert AttemptOk(s.attempts[t], t, s.jobs, s.issued, s.takeIds);
  }

  lemma AttemptStepAllLate(s: Sys, u: Token, move: Move, s': Sys, before: set<Token>, p: ProjectId, j: JobId, k: TakeId)
    requires Takes(s) && Attempts(s) && AttemptNext(s, u, move, s') && u in s.attempts
    requires Found(s, p, j, k) && AllLate(s, before, j, k)
    ensures AllLate(s', before, j, k)
    ensures s.attempts[u].job == j && u !in before ==> !move.RenderLocal?
  {
    hide Takes, Attempts, AttemptNext, Found;
    AttemptHolds(s, u, move, s');
    if s.attempts[u].job == j && u !in before {
      FoundInItsProject(s, u, p, k);
      OwnMoveStaysLate(s, u, move, s', k);
    }
  }

  lemma ClaimAllLate(s: Sys, j': JobId, t: Token, now: Time, s': Sys, before: set<Token>, j: JobId, k: TakeId)
    requires ClaimStep(s, j', t, now, s') && AllLate(s, before, j, k)
    ensures AllLate(s', before, j, k)
  {
  }

  lemma StepAllLate(s: Sys, step: Step, s': Sys, before: set<Token>, p: ProjectId, j: JobId, k: TakeId)
    requires Takes(s) && Attempts(s) && Next(s, step, s') && Found(s, p, j, k) && AllLate(s, before, j, k)
    ensures AllLate(s', before, j, k)
  {
    hide Takes, Attempts, Found, AllLate;
    if step.OnAttempt? {
      hide AttemptNext;
      MoverIsThere(s, step.t, step.move, s');
      AttemptStepAllLate(s, step.t, step.move, s', before, p, j, k);
    } else if step.Claim? {
      hide ClaimStep;
      ClaimAllLate(s, step.j, step.t, step.now, s', before, j, k);
    } else {
      hide Next;
      OtherSameAttempts(s, step, s');
      SameAllLate(s, s', before, j, k);
    }
  }

  lemma SameAllLate(s: Sys, s': Sys, before: set<Token>, j: JobId, k: TakeId)
    requires AllLate(s, before, j, k) && SameAttempts(s, s')
    ensures AllLate(s', before, j, k)
  {
  }

  // ---- renders ----

  /** No render of `j` by an attempt whose token is not in `before`. */
  ghost predicate NoneLate(s: Sys, before: set<Token>, j: JobId) {
    forall e | e in s.renders && e.job == j :: e.token in before
  }

  lemma LocalSameRenders(s: Sys, s': Sys)
    requires Local(s, s')
    ensures s'.renders == s.renders
  {
  }

  lemma PublishSameRenders(s: Sys, t: Token, outcome: CommitOutcome, now: Time, s': Sys)
    requires PublishStep(s, t, outcome, now, s')
    ensures s'.renders == s.renders
  {
  }

  lemma CommitSameRenders(s: Sys, t: Token, outcome: CommitOutcome, now: Time, s': Sys)
    requires CommitStep(s, t, outcome, now, s')
    ensures s'.renders == s.renders
  {
    hide CommitStep, PublishStep, Local;
    CommitIsLocalOrPublishes(s, t, outcome, now, s');
    if PublishStep(s, t, outcome, now, s') {
      PublishSameRenders(s, t, outcome, now, s');
    } else {
      LocalSameRenders(s, s');
    }
  }

  /** Only a render is recorded as one. */
  lemma AttemptSameRenders(s: Sys, t: Token, move: Move, s': Sys)
    requires AttemptNext(s, t, move, s') && t in s.attempts
    ensures s'.renders == s.renders
      || (move.RenderLocal? && forall e | e in s'.renders :: e in s.renders || (e.job == s.attempts[t].job && e.token == t))
  {
    if IsLocal(move) {
      hide AttemptNext, Local;
      LocalMoves(s, t, move, s');
      LocalSameRenders(s, s');
    } else if move.Commit? {
      hide CommitStep;
      CommitSameRenders(s, t, move.outcome, move.now, s');
    }
  }

  lemma OtherSameRenders(s: Sys, step: Step, s': Sys)
    requires Next(s, step, s') && !step.OnAttempt?
    ensures s'.renders == s.renders
  {
  }

  lemma StepNoneLate(s: Sys, step: Step, s': Sys, before: set<Token>, p: ProjectId, j: JobId, k: TakeId)
    requires Takes(s) && Attempts(s) && Next(s, step, s') && Found(s, p, j, k)
    requires AllLate(s, before, j, k) && NoneLate(s, before, j)
    ensures NoneLate(s', before, j)
  {
    hide Takes, Attempts, Found, AllLate;
    if step.OnAttempt? {
      hide AttemptNext;
      MoverIsThere(s, step.t, step.move, s');
      AttemptStepAllLate(s, step.t, step.move, s', before, p, j, k);
      AttemptSameRenders(s, step.t, step.move, s');
    } else {
      hide Next;
      OtherSameRenders(s, step, s');
    }
  }

  /** Job `j` has its take in every state from `i` to `m`. */
  ghost predicate TakeThroughout(run: seq<Sys>, p: ProjectId, j: JobId, k: TakeId, i: nat, m: nat) {
    i <= m < |run| && forall n | i <= n <= m :: Found(run[n], p, j, k)
  }

  /** Once a job has a good take, and while it has it, no attempt claimed since renders the job: each
      one finds that take at its lookup and can only finish with it, be cancelled or fail before.
      So a crash between the rename and the SQL commit never costs a second render. */
  lemma {:induction false} NoLateRender(run: seq<Sys>, steps: seq<Step>, i: nat, m: nat, p: ProjectId, j: JobId, k: TakeId)
    requires IsRun(run, steps) && TakeThroughout(run, p, j, k, i, m)
    ensures AllLate(run[m], run[i].issued.Keys, j, k)
    ensures forall e | e in run[m].renders && e.job == j :: e.token in run[i].issued
    decreases m - i
  {
    hide Next, Takes, Attempts, Dones, OwnStaging, Rows, Kepts, Doomeds, Renders, Records, AllLate, Found;
    if i < m {
      NoLateRender(run, steps, i, m - 1, p, j, k);
      ReachableTakes(run, steps, m - 1);
      ReachableStaging(run, steps, m - 1);
      assert Found(run[m - 1], p, j, k);
      StepAllLate(run[m - 1], steps[m - 1], run[m], run[i].issued.Keys, p, j, k);
      StepNoneLate(run[m - 1], steps[m - 1], run[m], run[i].issued.Keys, p, j, k);
    } else {
      ReachableRecords(run, steps, i);
      NothingLateYet(run[i], j, k);
    }
  }

  lemma NothingLateYet(s: Sys, j: JobId, k: TakeId)
    requires Attempts(s) && Renders(s)
    ensures AllLate(s, s.issued.Keys, j, k) && NoneLate(s, s.issued.Keys, j)
  {
  }

  /** And the one way such an attempt ends the job itself is to finish it with that very take, unless
      a cancel or a reclaim came first. */
  lemma LateAttemptFinishesWithIt(run: seq<Sys>, steps: seq<Step>, i: nat, m: nat, p: ProjectId, j: JobId, k: TakeId,
                                  t: Token, now: Time)
    requires IsRun(run, steps) && TakeThroughout(run, p, j, k, i, m) && m < |steps|
    requires steps[m] == OnAttempt(t, EarlyFinish(now)) && t !in run[i].issued
    requires t in run[m].attempts && run[m].attempts[t].job == j
    ensures j in run[m].jobs && j in run[m + 1].jobs
    ensures CanFinish(run[m].jobs[j], Some(t)) ==>
      run[m + 1].jobs[j].status == Done && run[m + 1].jobs[j].takeId == Some(k)
    ensures !CanFinish(run[m].jobs[j], Some(t)) ==> run[m + 1].jobs[j] == run[m].jobs[j]
  {
    assert Next(run[m], steps[m], run[m + 1]);
    hide Next, Takes, Attempts, Renders, Records, Found;
    NoLateRender(run, steps, i, m, p, j, k);
  }
}
