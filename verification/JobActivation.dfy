/** The active take, over a run: once a worker has published and activated, its project plays. */
module JobActivation {
  import opened Common
  import opened CreationTypes
  import opened JobRows
  import opened JobProtocol
  import opened JobInvariant
  import opened JobMoves
  import opened JobSteps
  import opened JobHistory
  import opened JobTakes
  import opened JobTheorems
  import opened JobRenames

  /** An attempt about to activate has its take in its project, as far as files are left there. */
  ghost predicate ActivatingOk(s: Sys) {
    forall t | t in s.attempts && s.attempts[t].pc == AtActivate ::
      && s.attempts[t].take.Some?
      && Renamed(s, t, s.attempts[t].job, s.attempts[t].project, s.attempts[t].take.value, false)
  }

  lemma ActivatingAt(s: Sys, t: Token)
    requires ActivatingOk(s) && t in s.attempts && s.attempts[t].pc == AtActivate
    ensures s.attempts[t].take.Some?
    ensures Renamed(s, t, s.attempts[t].job, s.attempts[t].project, s.attempts[t].take.value, false)
  {
  }

  // ---- who comes to activate ----

  predicate NotActivating(s': Sys, t: Token) {
    t in s'.attempts ==> s'.attempts[t].pc != AtActivate
  }

  lemma EntryDoesNotActivate(s: Sys, t: Token, move: Move, s': Sys)
    requires AttemptNext(s, t, move, s') && IsEntry(move)
    ensures NotActivating(s', t)
  {
  }

  lemma MovedTo(s: Sys, t: Token, a: Attempt)
    requires a.pc != AtActivate
    ensures NotActivating(SetAttempt(s, t, a), t) && NotActivating(EndAttempt(s, t), t)
  {
  }

  lemma ResolveDoesNotActivate(s: Sys, t: Token, record: Record, now: Time, s': Sys)
    requires ResolveStep(s, t, record, now, s')
    ensures NotActivating(s', t)
  {
    hide Owns, Frozen, SetRow, Discard;
  }

  lemma HandleDoesNotActivate(s: Sys, t: Token, handle: Handle, now: Time, s': Sys)
    requires RecordHandleStep(s, t, handle, now, s')
    ensures NotActivating(s', t)
  {
    hide Owns, WithHandle, SetRow, Discard;
  }

  lemma BackendDoesNotActivate(s: Sys, t: Token, move: Move, s': Sys)
    requires AttemptNext(s, t, move, s') && IsBackend(move) && !move.Resolve? && !move.RecordHandle?
    ensures NotActivating(s', t)
  {
  }

  lemma CheckDoesNotActivate(s: Sys, t: Token, move: Move, s': Sys)
    requires AttemptNext(s, t, move, s') && (move.ThirdCheck? || move.WriteMeta? || move.Activate?)
    ensures NotActivating(s', t)
  {
  }

  lemma HandlerDoesNotActivate(s: Sys, t: Token, move: Move, s': Sys)
    requires AttemptNext(s, t, move, s') && (move.Raise? || move.HandleFailure? || move.WriteErrorTake?)
    ensures NotActivating(s', t)
  {
  }

  lemma EndDoesNotActivate(s: Sys, t: Token, move: Move, s': Sys)
    requires AttemptNext(s, t, move, s') && (move.MarkCancelled? || move.WriteErrorRow? || move.Crash?)
    ensures NotActivating(s', t)
  {
  }

  lemma BackendAnyDoesNotActivate(s: Sys, t: Token, move: Move, s': Sys)
    requires AttemptNext(s, t, move, s') && IsBackend(move)
    ensures NotActivating(s', t)
  {
    hide NotActivating;
    if move.Resolve? {
      hide ResolveStep;
      ResolveDoesNotActivate(s, t, move.record, move.now, s');
    } else if move.RecordHandle? {
      hide RecordHandleStep;
      HandleDoesNotActivate(s, t, move.handle, move.now, s');
    } else {
      hide AttemptNext;
      BackendDoesNotActivate(s, t, move, s');
    }
  }

  lemma OnlyCommitActivates(s: Sys, t: Token, move: Move, s': Sys)
    requires AttemptNext(s, t, move, s') && !move.Commit?
    ensures NotActivating(s', t)
  {
    hide AttemptNext, NotActivating;
    if IsEntry(move) {
      EntryDoesNotActivate(s, t, move, s');
    } else if IsBackend(move) {
      BackendAnyDoesNotActivate(s, t, move, s');
    } else if IsPublication(move) {
      CheckDoesNotActivate(s, t, move, s');
    } else if move.Raise? || move.HandleFailure? || move.WriteErrorTake? {
      HandlerDoesNotActivate(s, t, move, s');
    } else {
      EndDoesNotActivate(s, t, move, s');
    }
  }

  lemma RefuseDoesNotActivate(s: Sys, t: Token, s': Sys)
    requires RefuseStep(s, t, s')
    ensures NotActivating(s', t)
  {
    hide Owns, Discard;
  }

  lemma EarlierDoesNotActivate(s: Sys, t: Token, now: Time, s': Sys)
    requires FinishEarlierStep(s, t, now, s')
    ensures NotActivating(s', t)
  {
    hide Discard, SetRow;
  }

  lemma PublishDoesNotActivate(s: Sys, t: Token, outcome: CommitOutcome, now: Time, s': Sys)
    requires PublishStep(s, t, outcome, now, s') && outcome != Published
    ensures NotActivating(s', t)
  {
    hide Discard, PutTake;
  }

  /** A commit that leaves the attempt about to activate has renamed its take. */
  lemma CommitActivates(s: Sys, t: Token, outcome: CommitOutcome, now: Time, s': Sys)
    requires CommitStep(s, t, outcome, now, s') && !NotActivating(s', t)
    ensures PublishStep(s, t, Published, now, s') && NoneFound(s, s.attempts[t].project, s.attempts[t].job)
  {
    hide PublishStep, RefuseStep, FinishEarlierStep, NoneFound, MayCommit, NotActivating;
    if !MayCommit(s, t) {
      RefuseDoesNotActivate(s, t, s');
    } else if !NoneFound(s, s.attempts[t].project, s.attempts[t].job) {
      EarlierDoesNotActivate(s, t, now, s');
    } else if s.attempts[t].take.value !in s.staging || s.staging[s.attempts[t].take.value].meta.None? {
      MovedTo(Discard(s, s.attempts[t].take), t, s.attempts[t].(pc := AtFailure));
    } else if outcome != Published {
      PublishDoesNotActivate(s, t, outcome, now, s');
    }
  }

  lemma PublishedIsActivating(s: Sys, t: Token, now: Time, s': Sys)
    requires OwnStaging(s) && Attempts(s) && Created(s) && HasAttempt(s, t, AtCommit) && s.attempts[t].take.Some?
    requires PublishStep(s, t, Published, now, s') && NoneFound(s, s.attempts[t].project, s.attempts[t].job)
    ensures var a := s.attempts[t];
      && t in s'.attempts && s'.attempts[t] == a.(pc := AtActivate)
      && Renamed(s', t, a.job, a.project, a.take.value, false)
  {
    var a := s.attempts[t];
    assert StagedOk(a, t, s.staging[a.take.value]);
    assert !Found(s, a.project, a.job, a.take.value);
    assert Found(s', a.project, a.job, a.take.value);
    {
      hide OwnStaging, Attempts, Created, PublishStep, Renamed, NoneFound, Found;
      PublishedIsRenamed(s, t, Published, now, s', a.job, a.project, a.take.value);
    }
    hide Renamed, OwnStaging, Attempts, Created;
  }

  // ---- over a run ----

  lemma ClaimDoesNotActivate(s: Sys, j: JobId, t: Token, now: Time, s': Sys, t': Token)
    requires ClaimStep(s, j, t, now, s') && t' in s'.attempts && s'.attempts[t'].pc == AtActivate
    ensures t' in s.attempts && s'.attempts[t'] == s.attempts[t']
  {
  }

  lemma HasToken(s: Sys, t: Token)
    requires Attempts(s) && t in s.attempts
    ensures t in s.issued
  {
    assert AttemptOk(s.attempts[t], t, s.jobs, s.issued, s.takeIds);
  }

  /** Whoever is about to activate after a step of somebody else was so before. */
  lemma OthersStayActivating(s: Sys, step: Step, s': Sys, t: Token)
    requires Attempts(s) && Next(s, step, s') && !(step.OnAttempt? && step.t == t)
    requires t in s'.attempts && s'.attempts[t].pc == AtActivate
    ensures t in s.attempts && s'.attempts[t] == s.attempts[t]
  {
    hide Attempts;
    if step.OnAttempt? {
      hide AttemptNext;
      AttemptHolds(s, step.t, step.move, s');
    } else if step.Claim? {
      hide ClaimStep;
      ClaimDoesNotActivate(s, step.j, step.t, step.now, s', t);
    } else {
      hide Next;
      OtherSameAttempts(s, step, s');
    }
  }

  lemma OwnStepActivates(s: Sys, t: Token, move: Move, s': Sys)
    requires OwnStaging(s) && Attempts(s) && Created(s) && AttemptNext(s, t, move, s') && !NotActivating(s', t)
    ensures t in s'.attempts && s'.attempts[t].take.Some?
    ensures Renamed(s', t, s'.attempts[t].job, s'.attempts[t].project, s'.attempts[t].take.value, false)
  {
    hide OwnStaging, Attempts, Created, Renamed, NotActivating, AttemptNext, PublishStep, NoneFound;
    if move.Commit? {
      CommitMoves(s, t, move, s');
      CommitActivates(s, t, move.outcome, move.now, s');
      CommitHasTake(s, t, move.outcome, move.now, s');
      PublishedIsActivating(s, t, move.now, s');
    } else {
      OnlyCommitActivates(s, t, move, s');
    }
  }

  lemma CommitHasTake(s: Sys, t: Token, outcome: CommitOutcome, now: Time, s': Sys)
    requires CommitStep(s, t, outcome, now, s')
    ensures HasAttempt(s, t, AtCommit) && s.attempts[t].take.Some?
  {
    hide PublishStep, RefuseStep, FinishEarlierStep, NoneFound, MayCommit;
  }

  lemma StepKeepsActivating(s: Sys, step: Step, s': Sys)
    requires OwnStaging(s) && Attempts(s) && Created(s) && Next(s, step, s') && ActivatingOk(s)
    ensures ActivatingOk(s')
  {
    hide OwnStaging, Attempts, Created, Renamed, Next;
    forall t | t in s'.attempts && s'.attempts[t].pc == AtActivate
      ensures s'.attempts[t].take.Some?
      ensures Renamed(s', t, s'.attempts[t].job, s'.attempts[t].project, s'.attempts[t].take.value, false)
    {
      ActivatingAfter(s, step, s', t);
    }
  }

  lemma ActivatingAfter(s: Sys, step: Step, s': Sys, t: Token)
    requires OwnStaging(s) && Attempts(s) && Created(s) && Next(s, step, s') && ActivatingOk(s)
    requires t in s'.attempts && s'.attempts[t].pc == AtActivate
    ensures s'.attempts[t].take.Some?
    ensures Renamed(s', t, s'.attempts[t].job, s'.attempts[t].project, s'.attempts[t].take.value, false)
  {
    hide OwnStaging, Attempts, Created, Renamed, ActivatingOk;
    if step.OnAttempt? && step.t == t {
      hide AttemptNext;
      OwnStepActivates(s, t, step.move, s');
    } else {
      hide Next;
      OthersStayActivating(s, step, s', t);
      ActivatingAt(s, t);
      StepKeepsRenamed(s, step, s', t, s.attempts[t].job, s.attempts[t].project, s.attempts[t].take.value, false);
    }
  }

  lemma {:induction false} RunKeepsActivating(run: seq<Sys>, steps: seq<Step>, i: nat)
    requires IsRun(run, steps) && i < |run|
    ensures ActivatingOk(run[i])
  {
    hide Next, OwnStaging, Attempts, Created;
    if i > 0 {
      RunKeepsActivating(run, steps, i - 1);
      ReachableRenaming(run, steps, i - 1);
      hide ActivatingOk;
      StepKeepsActivating(run[i - 1], steps[i - 1], run[i]);
    }
  }

  lemma ActivationPlays(s: Sys, t: Token, s': Sys)
    requires ActivateStep(s, t, false, s')
    requires Renamed(s, t, s.attempts[t].job, s.attempts[t].project, s.attempts[t].take.value, false)
    ensures var p, k := s.attempts[t].project, s.attempts[t].take.value;
      && p in s.projects && p in s'.projects && s'.projects[p].takes == s.projects[p].takes
      && (p !in s'.damaged ==> Found(s', p, s.attempts[t].job, k) && Playable(s'.projects[p]))
      && s'.projects[p].active == if Playable(s.projects[p]) then s.projects[p].active else Some(k)
  {
  }

  /** After an activation that does not raise, the project has a take that plays: the one it had, or
      else the one just committed; unless a failed removal has taken files out of it. */
  lemma ActivateMakesPlayable(run: seq<Sys>, steps: seq<Step>, i: nat, t: Token)
    requires IsRun(run, steps) && i < |steps| && steps[i] == OnAttempt(t, Activate(false))
    ensures t in run[i].attempts && run[i].attempts[t].take.Some?
    ensures var p, k := run[i].attempts[t].project, run[i].attempts[t].take.value;
      && p in run[i].projects && p in run[i + 1].projects
      && (p !in run[i + 1].damaged ==>
            Found(run[i + 1], p, run[i].attempts[t].job, k) && Playable(run[i + 1].projects[p]))
      && run[i + 1].projects[p].active
         == if Playable(run[i].projects[p]) then run[i].projects[p].active else Some(k)
  {
    assert Next(run[i], steps[i], run[i + 1]);
    hide ActivatingOk, Renamed, Found, Playable;
    RunKeepsActivating(run, steps, i);
    ActivatingAt(run[i], t);
    ActivationPlays(run[i], t, run[i + 1]);
  }
}
