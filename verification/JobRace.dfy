/** Reachable states, and what a claim between the two transactions of a retry can reach. */
module JobRace {
  import opened Common
  import opened CreationTypes
  import opened JobRows
  import opened JobProtocol
  import opened JobInvariant

  // ---- reachability ----

  ghost predicate Reachable(s: Sys) {
    exists run, steps :: IsRun(run, steps) && run[|run| - 1] == s
  }

  lemma Start()
    ensures Reachable(INITIAL)
  {
    assert IsRun([INITIAL], []);
  }

  lemma Extend(s: Sys, step: Step, s': Sys)
    requires Reachable(s) && Next(s, step, s')
    ensures Reachable(s')
  {
    hide Next;
    var run, steps :| IsRun(run, steps) && run[|run| - 1] == s;
    var run', steps' := run + [s'], steps + [step];
    forall i | 0 <= i < |steps'|
      ensures Next(run'[i], steps'[i], run'[i + 1])
    {
      if i < |steps| {
        assert Next(run[i], steps[i], run[i + 1]);
      }
    }
    assert IsRun(run', steps') && run'[|run'| - 1] == s';
  }

  // ---- one attempt, from its claim to its render ----

  /** A job that nothing keeps from rendering. */
  ghost predicate Ready(s: Sys, j: JobId) {
    && j in s.jobs
    && var r := s.jobs[j];
    && r.kind == Shaped && r.snapshot.Some? && r.resolved.None? && r.seed.None?
    && Claimable(r, s.tombstones) && !r.cancelRequested
    && r.project in s.projects && s.projects[r.project].takes == map[]
  }

  /** `s'` is `s` with attempt `t` of job `j` having rendered `record`. */
  ghost predicate RenderedOnce(s: Sys, s': Sys, j: JobId, t: Token, k: TakeId, record: Record) {
    && j in s.jobs
    && s'.jobs == s.jobs[j := Claimed(s.jobs[j], t, 0).(resolved := Some(record))]
    && s'.projects == s.projects && s'.tombstones == s.tombstones
    && s'.copying == s.copying && s'.inherited == s.inherited
    && s'.issued == s.issued[t := j] && s'.takeIds == s.takeIds + {k}
    && s'.renders == s.renders + {Render(j, t, record)}
    && s'.attempts == s.attempts[t := Attempt(j, s.jobs[j].project, None, Rendered, None, Some(k), Some(record))]
    && s'.staging == s.staging[k := Staged(s.jobs[j].project, Some(Owner(j, t)), None)]
    && s'.damaged == s.damaged && s'.removals == s.removals && s'.created == s.created && s'.originals == s.originals
  }

  lemma ExtendAttempt(s: Sys, t: Token, move: Move, s': Sys)
    requires Reachable(s) && AttemptNext(s, t, move, s')
    ensures Reachable(s')
  {
    hide AttemptNext, Reachable;
    Extend(s, OnAttempt(t, move), s');
  }

  lemma Claims(s: Sys, j: JobId, t: Token)
    requires Reachable(s) && Ready(s, j) && t !in s.issued
    ensures Reachable(AfterClaim(s, j, t, 0))
  {
    hide Reachable;
    Extend(s, Claim(j, t, 0), AfterClaim(s, j, t, 0));
  }

  /** Attempt `t`, the only one to have touched the row, stands at `pc` with nothing found. */
  ghost predicate Entering(s: Sys, t: Token, pc: Pc) {
    && HasAttempt(s, t, pc) && !RowOf(s, t).cancelRequested && s.attempts[t].earlier.None?
    && s.attempts[t].project in s.projects && s.projects[s.attempts[t].project].takes == map[]
  }

  lemma Enters(s: Sys, t: Token, pc: Pc, onward: Pc)
    requires Reachable(s) && Entering(s, t, pc)
    requires (pc, onward) == (AtFirstCheck, AtLookup) || (pc, onward) == (AtLookup, AtSecondCheck)
      || (pc, onward) == (AtSecondCheck, AtAllocate)
    ensures Reachable(AtPc(s, t, onward)) && Entering(AtPc(s, t, onward), t, onward)
  {
    var move := if pc == AtFirstCheck then FirstCheck else if pc == AtLookup then Lookup(None) else SecondCheck;
    assert s.attempts[t] == s.attempts[t].(earlier := None);
    ExtendAttempt(s, t, move, AtPc(s, t, onward));
  }

  lemma Allocates(s: Sys, t: Token, k: TakeId, s': Sys)
    requires Reachable(s) && AllocateStep(s, t, k, s')
    ensures Reachable(s')
  {
    ExtendAttempt(s, t, Allocate(k), s');
  }

  lemma Freezes(s: Sys, t: Token, record: Record, s': Sys)
    requires Reachable(s) && ResolveStep(s, t, record, 0, s')
    ensures Reachable(s')
  {
    ExtendAttempt(s, t, Resolve(record, 0), s');
  }

  lemma RendersOnce(s: Sys, t: Token, s': Sys)
    requires Reachable(s) && RenderLocalStep(s, t, s')
    ensures Reachable(s')
  {
    ExtendAttempt(s, t, RenderLocal, s');
  }

  lemma EntersToAllocate(s: Sys, t: Token) returns (s': Sys)
    requires Reachable(s) && Entering(s, t, AtFirstCheck)
    ensures Reachable(s') && Entering(s', t, AtAllocate)
    ensures s' == SetAttempt(s, t, s.attempts[t].(pc := AtAllocate))
  {
    hide Reachable;
    Enters(s, t, AtFirstCheck, AtLookup);
    var s1 := AtPc(s, t, AtLookup);
    Enters(s1, t, AtLookup, AtSecondCheck);
    var s2 := AtPc(s1, t, AtSecondCheck);
    Enters(s2, t, AtSecondCheck, AtAllocate);
    s' := AtPc(s2, t, AtAllocate);
    assert s'.attempts == s.attempts[t := s.attempts[t].(pc := AtAllocate)];
  }

  lemma AllocatesToRender(s: Sys, t: Token, k: TakeId, record: Record) returns (s': Sys)
    requires Reachable(s) && Entering(s, t, AtAllocate) && k !in s.takeIds
    requires s.attempts[t].resolved.None? && Owns(RowOf(s, t), t) && RowOf(s, t).seed.None?
    ensures Reachable(s')
    ensures s'.jobs == s.jobs[s.attempts[t].job := RowOf(s, t).(resolved := Some(record), updatedAt := 0)]
    ensures s'.projects == s.projects && s'.tombstones == s.tombstones && s'.issued == s.issued
    ensures s'.copying == s.copying && s'.inherited == s.inherited && s'.takeIds == s.takeIds + {k}
    ensures s'.renders == s.renders + {Render(s.attempts[t].job, t, record)}
    ensures s'.attempts == s.attempts[t := s.attempts[t].(pc := Rendered, take := Some(k), record := Some(record))]
    ensures s'.staging == s.staging[k := Staged(s.attempts[t].project, Some(Owner(s.attempts[t].job, t)), None)]
    ensures s'.damaged == s.damaged && s'.removals == s.removals && s'.created == s.created
    ensures s'.originals == s.originals
  {
    hide Reachable;
    var a := s.attempts[t];
    var s1 := SetAttempt(s, t, a.(pc := InWorker, take := Some(k))).(
      takeIds := s.takeIds + {k},
      staging := s.staging[k := Staged(a.project, Some(Owner(a.job, t)), None)]);
    Allocates(s, t, k, s1);
    var s2 := SetAttempt(SetRow(s1, a.job, Frozen(RowOf(s1, t), Some(t), record, 0)), t,
                         s1.attempts[t].(pc := AtRender, record := Some(record)));
    Freezes(s1, t, record, s2);
    s' := AtPc(s2, t, Rendered).(renders := s2.renders + {Render(a.job, t, record)});
    RendersOnce(s2, t, s');
  }

  lemma RendersOf(s: Sys, j: JobId, t: Token, k: TakeId, record: Record) returns (s': Sys)
    requires Reachable(s) && Ready(s, j) && t !in s.issued && k !in s.takeIds
    ensures Reachable(s') && RenderedOnce(s, s', j, t, k, record)
  {
    hide Reachable;
    Claims(s, j, t);
    var s1 := AfterClaim(s, j, t, 0);
    var s2 := EntersToAllocate(s1, t);
    s' := AllocatesToRender(s2, t, k, record);
  }

  // ---- a retry, overtaken ----

  function FreshRow(intent: Intent, retryOf: Option<JobId>): (r: Row)
    ensures NewRow(r)
  {
    Row(0, Shaped, 0, None, 0, retryOf, None, Some(intent), Queued, None, None, None, 0, None, 0, false,
        None, None, None)
  }

  /** One project, one job in it. */
  lemma JobIsQueued(intent: Intent) returns (s: Sys)
    ensures Reachable(s) && Ready(s, 0)
    ensures s == INITIAL.(created := {0}, projects := map[0 := Project(map[], None)],
                          jobs := map[0 := FreshRow(intent, None)])
  {
    hide Reachable;
    Start();
    var s1 := INITIAL.(created := {0}, projects := map[0 := Project(map[], None)]);
    assert s1 == INITIAL.(created := INITIAL.created + {0}, projects := INITIAL.projects[0 := Project(map[], None)]);
    Extend(INITIAL, CreateProject(0), s1);
    s := SetRow(s1, 0, FreshRow(intent, None));
    Extend(s1, Enqueue(0, FreshRow(intent, None)), s);
  }

  /** The job, cancelled. */
  lemma JobIsCancelled(intent: Intent) returns (s: Sys)
    ensures Reachable(s)
    ensures s == INITIAL.(created := {0}, projects := map[0 := Project(map[], None)],
                          jobs := map[0 := CancelRequested(FreshRow(intent, None), 0)])
  {
    hide Reachable;
    var s1 := JobIsQueued(intent);
    s := SetRow(s1, 0, CancelRequested(FreshRow(intent, None), 0));
    Extend(s1, OnRow(0, RequestCancel, 0), s);
  }

  /** Its retry, between the two transactions. */
  lemma RetryIsEnqueued(intent: Intent) returns (s: Sys)
    ensures Reachable(s) && Ready(s, 1)
    ensures s.issued == map[] && s.takeIds == {} && 1 in s.copying
    ensures 1 in s.inherited && s.inherited[1].resolved.None?
    ensures s.jobs[1] == FreshRow(intent, Some(0))
  {
    hide Reachable;
    var s1 := JobIsCancelled(intent);
    var o := Original(0, Some(intent), None, true);
    var s2 := s1.(originals := {o});
    assert s2 == s1.(originals := s1.originals + {o});
    Extend(s1, ReadOriginal(o), s2);
    var row := FreshRow(intent, Some(0));
    s := SetRow(s2, 1, row).(copying := s2.copying + {1}, inherited := s2.inherited[1 := o]);
    Extend(s2, RetryEnqueue(1, row, o), s);
  }

  /** A rendered attempt is reclaimed, and then the copy lands: the frozen record is gone. */
  lemma CopyErasesRecord(s: Sys, j: JobId) returns (s': Sys)
    requires Reachable(s) && j in s.jobs && j in s.copying && j in s.inherited && s.inherited[j].resolved.None?
    requires s.jobs[j].status == Running && s.jobs[j].heartbeatAt == Some(0) && s.jobs[j].attempts == 1
    requires !s.jobs[j].cancelRequested && s.jobs[j].remoteHandle.None?
    ensures Reachable(s') && s'.issued == s.issued && s'.takeIds == s.takeIds && s'.renders == s.renders
    ensures s'.projects == s.projects && s'.tombstones == s.tombstones && j in s'.jobs
    ensures s'.jobs[j].resolved.None? && s'.jobs[j].status == Queued
    ensures s'.jobs[j].project == s.jobs[j].project && s'.jobs[j].kind == s.jobs[j].kind
    ensures s'.jobs[j].seed == s.jobs[j].seed && s'.jobs[j].stage == s.jobs[j].stage
    ensures (s.jobs[j].snapshot.Some? ==> s'.jobs[j].snapshot.Some?) && !s'.jobs[j].cancelRequested
  {
    hide Reachable;
    var now := STALE_AFTER + 1;
    var s1 := SetRow(s, j, Reclaimed(s.jobs[j], now));
    Extend(s, OnRow(j, Reclaim(STALE_AFTER), now), s1);
    var o := s.inherited[j];
    s' := SetRow(s1, j, WithCopiedRequest(s1.jobs[j], o.snapshot, o.resolved)).(copying := s1.copying - {j});
    Extend(s1, RetryCopy(j), s');
  }

  /** With a claim between a retry's two transactions, one job can render two different records:
      the exception made for `raced` jobs cannot be dropped. */
  lemma RacedRetryRendersTwice(intent: Intent, record: Record, record': Record)
    ensures exists s: Sys :: Reachable(s) && Render(1, 0, record) in s.renders && Render(1, 1, record') in s.renders
  {
    hide Reachable, IsRun;
    var s1 := RetryIsEnqueued(intent);
    var s2 := RendersOf(s1, 1, 0, 0, record);
    var s3 := CopyErasesRecord(s2, 1);
    var s4 := RendersOf(s3, 1, 1, 1, record');
    assert Reachable(s4) && Render(1, 0, record) in s4.renders && Render(1, 1, record') in s4.renders;
  }

  /** The row has what the retry read from its original. */
  predicate Copied(r: Row, o: Original) {
    (o.snapshot.Some? ==> r.snapshot == o.snapshot) && r.resolved == o.resolved
  }

  /** The second transaction of a retry gives it its original's snapshot and record, or takes away
      a record the original had not, if and only if it finds the row queued (or already so). */
  lemma CopyLandsOnlyIfQueued(s: Sys, j: JobId, s': Sys)
    requires RetryCopyStep(s, j, s')
    ensures Copied(s'.jobs[j], s.inherited[j]) <==> s.jobs[j].status == Queued || Copied(s.jobs[j], s.inherited[j])
    ensures s.jobs[j].status != Queued ==> s'.jobs == s.jobs
  {
  }
}
