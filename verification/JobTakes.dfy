/** Who can publish a take, and what becomes of it. */
module JobTakes {
  import opened Common
  import opened CreationTypes
  import opened JobRows
  import opened JobProtocol
  import opened JobInvariant
  import opened JobMoves
  import opened JobHistory

  /** No good take appears. */
  ghost predicate NoNewTake(s: Sys, s': Sys) {
    forall p, j, k | Found(s', p, j, k) :: Found(s, p, j, k)
  }

  /** Step `t` commits take `k` of its own job, past all four checks, as that job's first. */
  ghost predicate Commits(s: Sys, t: Token, p: ProjectId, j: JobId, k: TakeId) {
    && HasAttempt(s, t, AtCommit) && s.attempts[t].job == j && s.attempts[t].project == p
    && s.attempts[t].take == Some(k)
    && MayCommit(s, t) && NoneFound(s, p, j)
  }

  ghost predicate OnlyNewTakeIs(s: Sys, s': Sys, p: ProjectId, j: JobId, k: TakeId) {
    forall p', j', k' | Found(s', p', j', k') :: Found(s, p', j', k') || (p' == p && j' == j && k' == k)
  }

  lemma SameProjectsNoNewTake(s: Sys, s': Sys)
    requires s'.projects == s.projects
    ensures NoNewTake(s, s')
  {
  }

  lemma ActivateNoNewTake(s: Sys, t: Token, raises: bool, s': Sys)
    requires ActivateStep(s, t, raises, s')
    ensures NoNewTake(s, s')
  {
  }

  lemma ErrorNoNewTake(s: Sys, t: Token, text: string, written: bool, s': Sys)
    requires WriteErrorTakeStep(s, t, text, written, s')
    ensures NoNewTake(s, s')
  {
  }

  lemma OtherNoNewTake(s: Sys, step: Step, s': Sys)
    requires Next(s, step, s') && !step.OnAttempt?
    ensures NoNewTake(s, s')
  {
    hide Next, NoNewTake;
    if IsDeletion(step) {
      DeletionNoNewTake(s, step, s');
    } else {
      RestNoNewTake(s, step, s');
    }
  }

  lemma DeletionNoNewTake(s: Sys, step: Step, s': Sys)
    requires Next(s, step, s') && IsDeletion(step)
    ensures NoNewTake(s, s')
  {
  }

  lemma RestNoNewTake(s: Sys, step: Step, s': Sys)
    requires Next(s, step, s') && !step.OnAttempt? && !IsDeletion(step)
    ensures NoNewTake(s, s')
  {
  }

  lemma PublishesOwnTake(s: Sys, t: Token, outcome: CommitOutcome, now: Time, s': Sys)
    requires OwnStaging(s) && HasAttempt(s, t, AtCommit) && PublishStep(s, t, outcome, now, s')
    ensures OnlyNewTakeIs(s, s', s.attempts[t].project, s.attempts[t].job, s.attempts[t].take.value)
  {
    assert StagedOk(s.attempts[t], t, s.staging[s.attempts[t].take.value]);
  }

  /** Only a commit publishes. */
  lemma AttemptPublishes(s: Sys, t: Token, move: Move, s': Sys)
    requires OwnStaging(s) && AttemptNext(s, t, move, s')
    ensures NoNewTake(s, s')
      || (move.Commit? && s.attempts[t].take.Some?
          && Commits(s, t, s.attempts[t].project, s.attempts[t].job, s.attempts[t].take.value)
          && OnlyNewTakeIs(s, s', s.attempts[t].project, s.attempts[t].job, s.attempts[t].take.value))
  {
    hide NoNewTake, OnlyNewTakeIs, Local;
    if IsLocal(move) {
      hide AttemptNext;
      LocalMoves(s, t, move, s');
      LocalNoNewTake(s, s');
    } else {
      hide ActivateStep, WriteErrorTakeStep, MayCommit, NoneFound, PublishStep;
      match move
      case Commit(outcome, now) =>
        CommitPublishes(s, t, outcome, now, s');
      case Activate(raises) => ActivateNoNewTake(s, t, raises, s');
      case WriteErrorTake(text, written) => ErrorNoNewTake(s, t, text, written, s');
      case Allocate(k) => SameProjectsNoNewTake(s, s');
      case RenderLocal => SameProjectsNoNewTake(s, s');
    }
  }

  lemma LocalNoNewTake(s: Sys, s': Sys)
    requires Local(s, s')
    ensures NoNewTake(s, s')
  {
  }

  lemma CommitPublishes(s: Sys, t: Token, outcome: CommitOutcome, now: Time, s': Sys)
    requires OwnStaging(s) && CommitStep(s, t, outcome, now, s')
    ensures NoNewTake(s, s')
      || (Commits(s, t, s.attempts[t].project, s.attempts[t].job, s.attempts[t].take.value)
          && OnlyNewTakeIs(s, s', s.attempts[t].project, s.attempts[t].job, s.attempts[t].take.value))
  {
    hide NoNewTake, OnlyNewTakeIs, Local, MayCommit, NoneFound, PublishStep;
    CommitIsLocalOrPublishes(s, t, outcome, now, s');
    if Local(s, s') {
      LocalNoNewTake(s, s');
    } else {
      PublishesOwnTake(s, t, outcome, now, s');
    }
  }

  /** A take that appears in a step was committed in it. */
  lemma OnlyCommitPublishes(s: Sys, step: Step, s': Sys, p: ProjectId, j: JobId, k: TakeId)
    requires OwnStaging(s) && Next(s, step, s') && Found(s', p, j, k) && !Found(s, p, j, k)
    ensures step.OnAttempt? && Commits(s, step.t, p, j, k)
  {
    hide Commits;
    if step.OnAttempt? {
      hide AttemptNext;
      AttemptPublishes(s, step.t, step.move, s');
    } else {
      hide Next;
      OtherNoNewTake(s, step, s');
    }
  }
}
