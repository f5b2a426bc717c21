/** The moves the protocol's steps are made of, each shown to keep the invariant. */
module JobKeeps {
  import opened Common
  import opened CreationTypes
  import opened JobRows
  import opened JobProtocol
  import opened JobInvariant

  // ---- rows ----

  /** A row update that revives nothing: it hands out no token and queues only what may run. */
  ghost predicate Quiet(r: Row, r': Row) {
    && r'.project == r.project && r'.kind == r.kind && r'.attempts == r.attempts
    && (r.cancelRequested ==> r'.cancelRequested)
    && (r.remoteHandle.Some? ==> r'.remoteHandle.Some?)
    && (r'.token == r.token || r'.token.None?)
    && (r'.status == Running ==> r.status == Running && r'.token == r.token)
    && (r'.status == Queued ==> r' == r || Fresh(r'))
  }

  /** What a removal's list relies on. */
  ghost predicate StaysFailed(r: Row, r': Row) {
    r.status == Failed ==>
      r'.status == Failed && r'.cancelRequested == r.cancelRequested && r'.remoteHandle == r.remoteHandle
  }

  /** A generate-shaped job does not become done, or stop being done, or change its take. */
  ghost predicate SameOutcome(r: Row, r': Row) {
    r.kind == Shaped ==>
      && (r.status == Done <==> r'.status == Done)
      && (r.status == Done ==> r'.takeId == r.takeId)
  }

  ghost predicate AllQuiet(jobs: Jobs, jobs': Jobs) {
    jobs'.Keys == jobs.Keys && forall j :: j in jobs ==> Quiet(jobs[j], jobs'[j])
  }

  ghost predicate AllSameRecord(jobs: Jobs, jobs': Jobs) {
    jobs'.Keys == jobs.Keys && forall j :: j in jobs ==> jobs'[j].resolved == jobs[j].resolved
  }

  ghost predicate AllSameOutcome(jobs: Jobs, jobs': Jobs) {
    jobs'.Keys == jobs.Keys && forall j :: j in jobs ==> SameOutcome(jobs[j], jobs'[j])
  }

  ghost predicate AllStayFailed(jobs: Jobs, jobs': Jobs) {
    jobs'.Keys == jobs.Keys && forall j :: j in jobs ==> StaysFailed(jobs[j], jobs'[j])
  }

  /** What a change of one row says of the whole table. */
  lemma OneRow(jobs: Jobs, j: JobId, r': Row)
    requires j in jobs
    ensures Quiet(jobs[j], r') ==> AllQuiet(jobs, jobs[j := r'])
    ensures r'.resolved == jobs[j].resolved ==> AllSameRecord(jobs, jobs[j := r'])
    ensures SameOutcome(jobs[j], r') ==> AllSameOutcome(jobs, jobs[j := r'])
    ensures StaysFailed(jobs[j], r') ==> AllStayFailed(jobs, jobs[j := r'])
  {
  }

  lemma JobsKeepRows(s: Sys, jobs': Jobs)
    requires Rows(s) && Retries(s) && AllQuiet(s.jobs, jobs')
    ensures Rows(s.(jobs := jobs')) && Retries(s.(jobs := jobs'))
  {
    assert forall j :: j in jobs' ==> j in s.jobs;
  }

  lemma JobsKeepAttempts(s: Sys, jobs': Jobs)
    requires Attempts(s) && AllQuiet(s.jobs, jobs')
    ensures Attempts(s.(jobs := jobs'))
  {
  }

  lemma JobsKeepRecords(s: Sys, jobs': Jobs)
    requires Frozens(s) && AllQuiet(s.jobs, jobs') && AllSameRecord(s.jobs, jobs')
    ensures Frozens(s.(jobs := jobs'))
  {
    assert forall j :: j in jobs' ==> j in s.jobs;
  }

  lemma JobsKeepTakes(s: Sys, jobs': Jobs)
    requires Takes(s) && Created(s) && AllQuiet(s.jobs, jobs')
    ensures Takes(s.(jobs := jobs')) && Created(s.(jobs := jobs'))
  {
  }

  lemma JobsKeepDones(s: Sys, jobs': Jobs)
    requires Dones(s) && AllQuiet(s.jobs, jobs') && AllSameOutcome(s.jobs, jobs')
    ensures Dones(s.(jobs := jobs'))
  {
    assert forall j :: j in jobs' ==> j in s.jobs;
  }

  lemma JobsKeepStaging(s: Sys, jobs': Jobs)
    requires Kepts(s) && Doomeds(s) && AllQuiet(s.jobs, jobs')
    ensures Kepts(s.(jobs := jobs')) && Doomeds(s.(jobs := jobs'))
  {
    assert forall j :: j in jobs' ==> j in s.jobs;
  }

  lemma JobsKeepRemovals(s: Sys, jobs': Jobs)
    requires Removals(s) && AllQuiet(s.jobs, jobs') && AllStayFailed(s.jobs, jobs')
    ensures Removals(s.(jobs := jobs'))
  {
  }

  lemma JobsKeepCore(s: Sys, jobs': Jobs)
    requires Core(s) && AllQuiet(s.jobs, jobs') && AllStayFailed(s.jobs, jobs')
    ensures Core(s.(jobs := jobs'))
  {
    JobsKeepRows(s, jobs');
    JobsKeepAttempts(s, jobs');
    JobsKeepTakes(s, jobs');
    JobsKeepStaging(s, jobs');
    JobsKeepRemovals(s, jobs');
  }

  lemma KeepJobs(s: Sys, jobs': Jobs)
    requires Inv(s) && AllQuiet(s.jobs, jobs') && AllSameRecord(s.jobs, jobs')
    requires AllSameOutcome(s.jobs, jobs') && AllStayFailed(s.jobs, jobs')
    ensures Inv(s.(jobs := jobs'))
  {
    JobsKeepCore(s, jobs');
    JobsKeepDones(s, jobs');
    JobsKeepRecords(s, jobs');
  }

  lemma KeepRow(s: Sys, j: JobId, r': Row)
    requires Inv(s) && j in s.jobs && Quiet(s.jobs[j], r') && r'.resolved == s.jobs[j].resolved
    requires SameOutcome(s.jobs[j], r') && StaysFailed(s.jobs[j], r')
    ensures Inv(SetRow(s, j, r'))
  {
    OneRow(s.jobs, j, r');
    KeepJobs(s, s.jobs[j := r']);
  }

  // ---- an attempt ----

  lemma KeepEnd(s: Sys, t: Token)
    requires Inv(s)
    ensures Inv(EndAttempt(s, t))
  {
  }

  /** `a'` is attempt `t` moved on, holding no more than it did. */
  ghost predicate Moves(s: Sys, t: Token, a': Attempt) {
    && t in s.attempts
    && var a := s.attempts[t];
    && a'.job == a.job && a'.project == a.project
    && (a'.take == a.take || a'.take.None?)
    && (AtOrBeforeResolve(a'.pc) ==> AtOrBeforeResolve(a.pc))
    && (HoldsStaging(a'.pc) ==> HoldsStaging(a.pc))
    && (a.pc == AtActivate ==> a.job in s.overwritten)
    && (a'.pc == AtEarlyFinish && a'.project in s.projects && a'.project !in s.damaged ==>
          NamesTake(a'.job, a'.earlier, s.projects[a'.project], a'.job in s.overwritten))
  }

  lemma AttemptIsOk(s: Sys, t: Token)
    requires Attempts(s) && t in s.attempts
    ensures AttemptOk(s.attempts[t], t, s.jobs, s.issued, s.takeIds)
  {
  }

  lemma MoveKeepsAttempts(s: Sys, t: Token, a': Attempt)
    requires Attempts(s) && AttemptOk(a', t, s.jobs, s.issued, s.takeIds)
    ensures Attempts(SetAttempt(s, t, a'))
  {
  }

  lemma MoveKeepsRecords(s: Sys, t: Token, a': Attempt)
    requires Attempts(s) && Frozens(s) && Moves(s, t, a')
    requires a'.resolved == s.attempts[t].resolved
    requires a'.record == s.attempts[t].record || a'.record == a'.resolved
    ensures Frozens(SetAttempt(s, t, a'))
  {
  }

  lemma MoveKeepsStaging(s: Sys, t: Token, a': Attempt)
    requires OwnStaging(s) && Kepts(s) && Moves(s, t, a') && a'.pc != AtCommit
    ensures OwnStaging(SetAttempt(s, t, a')) && Kepts(SetAttempt(s, t, a'))
  {
  }

  lemma MoveKeepsTakes(s: Sys, t: Token, a': Attempt)
    requires OwnTakes(s) && Earliers(s) && Moves(s, t, a')
    ensures OwnTakes(SetAttempt(s, t, a')) && Earliers(SetAttempt(s, t, a'))
  {
  }

  lemma MoveKeepsCore(s: Sys, t: Token, a': Attempt)
    requires Core(s) && Moves(s, t, a') && AttemptOk(a', t, s.jobs, s.issued, s.takeIds)
    requires a'.pc != AtCommit
    ensures Core(SetAttempt(s, t, a'))
  {
    MoveKeepsAttempts(s, t, a');
    MoveKeepsStaging(s, t, a');
    MoveKeepsTakes(s, t, a');
  }

  lemma KeepMove(s: Sys, t: Token, a': Attempt)
    requires Inv(s) && Moves(s, t, a') && AttemptOk(a', t, s.jobs, s.issued, s.takeIds)
    requires a'.resolved == s.attempts[t].resolved && a'.pc != AtCommit
    requires a'.record == s.attempts[t].record || a'.record == a'.resolved
    ensures Inv(SetAttempt(s, t, a'))
  {
    MoveKeepsCore(s, t, a');
    MoveKeepsRecords(s, t, a');
  }

  // ---- staging ----

  /** Nobody who could still commit `k` is left. */
  ghost predicate Unneeded(s: Sys, k: Option<TakeId>) {
    forall t | t in s.attempts && s.attempts[t].take.Some? && s.attempts[t].take == k ::
      HoldsStaging(s.attempts[t].pc) ==>
        s.attempts[t].job in s.jobs && !Owns(s.jobs[s.attempts[t].job], t)
  }

  lemma DiscardKeepsStaging(s: Sys, k: Option<TakeId>)
    requires OwnStaging(s) && Kepts(s) && Doomeds(s) && Unneeded(s, k)
    ensures OwnStaging(Discard(s, k)) && Kepts(Discard(s, k)) && Doomeds(Discard(s, k))
  {
  }

  lemma DiscardKeepsCore(s: Sys, k: Option<TakeId>)
    requires Core(s) && Unneeded(s, k)
    ensures Core(Discard(s, k))
  {
    DiscardKeepsStaging(s, k);
  }

  lemma KeepDiscard(s: Sys, k: Option<TakeId>)
    requires Inv(s) && Unneeded(s, k)
    ensures Inv(Discard(s, k))
  {
    DiscardKeepsCore(s, k);
  }

  lemma EndedIsUnneeded(s: Sys, t: Token)
    requires OwnStaging(s) && t in s.attempts
    ensures Unneeded(EndAttempt(s, t), s.attempts[t].take)
  {
  }

  /** Ending an attempt and discarding its staging. */
  lemma KeepFenced(s: Sys, t: Token)
    requires Inv(s) && t in s.attempts
    ensures Inv(Fenced(s, t))
  {
    EndedIsUnneeded(s, t);
    KeepEnd(s, t);
    KeepDiscard(EndAttempt(s, t), s.attempts[t].take);
    assert Discard(EndAttempt(s, t), s.attempts[t].take) == Fenced(s, t);
  }

  lemma MovedIsUnneeded(s: Sys, t: Token, a': Attempt)
    requires OwnStaging(s) && t in s.attempts && !HoldsStaging(a'.pc)
    ensures Unneeded(SetAttempt(s, t, a'), s.attempts[t].take)
  {
  }

  /** Moving an attempt past its staging and discarding that. */
  lemma MoveOffKeepsCore(s: Sys, t: Token, a': Attempt)
    requires Core(s) && Frozens(s) && Moves(s, t, a') && AttemptOk(a', t, s.jobs, s.issued, s.takeIds)
    requires a'.resolved == s.attempts[t].resolved && a'.record == s.attempts[t].record
    requires !HoldsStaging(a'.pc)
    ensures Core(Discard(SetAttempt(s, t, a'), s.attempts[t].take))
    ensures Frozens(Discard(SetAttempt(s, t, a'), s.attempts[t].take))
  {
    MovedIsUnneeded(s, t, a');
    MoveKeepsCore(s, t, a');
    MoveKeepsRecords(s, t, a');
    DiscardKeepsCore(SetAttempt(s, t, a'), s.attempts[t].take);
  }

  lemma KeepMoveOff(s: Sys, t: Token, a': Attempt)
    requires Inv(s) && Moves(s, t, a') && AttemptOk(a', t, s.jobs, s.issued, s.takeIds)
    requires a'.resolved == s.attempts[t].resolved && a'.record == s.attempts[t].record
    requires !HoldsStaging(a'.pc)
    ensures Inv(SetAttempt(Discard(s, s.attempts[t].take), t, a'))
  {
    MoveOffKeepsCore(s, t, a');
    assert Discard(SetAttempt(s, t, a'), s.attempts[t].take) == SetAttempt(Discard(s, s.attempts[t].take), t, a');
  }
}
