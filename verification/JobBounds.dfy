/** How often a job can run, and why it ends: bounded attempts, and a measure that every change
    of state spends. */
module JobBounds {
  import opened Common
  import opened CreationTypes
  import opened JobRows
  import opened JobProtocol
  import opened JobInvariant
  import opened JobMoves
  import opened JobSteps
  import opened JobHistory
  import opened JobTheorems

  /** A job is claimed at most three times, and a queued one can be claimed again: it has an
      attempt left, no cancel flag and no remote render of unknown outcome. */
  lemma AttemptsAreBounded(run: seq<Sys>, steps: seq<Step>, i: nat, j: JobId)
    requires IsRun(run, steps) && i < |run| && j in run[i].jobs
    ensures run[i].jobs[j].attempts == |ClaimsOf(run[i].issued, j)| <= MAX_ATTEMPTS
    ensures run[i].jobs[j].status == Queued ==> Fresh(run[i].jobs[j])
  {
    hide Next, Attempts, OwnStaging;
    ReachableStaging(run, steps, i);
    assert RowOk(j, run[i].jobs[j], run[i].issued, run[i].latest);
  }

  lemma SameSize(a: set<Token>, b: set<Token>)
    requires a <= b && |a| == |b|
    ensures a == b
  {
    if t :| t in b && t !in a {
      assert a <= b - {t};
      SubsetIsNoLarger(a, b - {t});
    }
  }

  lemma {:induction false} SubsetIsNoLarger(a: set<Token>, b: set<Token>)
    requires a <= b
    ensures |a| <= |b|
  {
    if t :| t in a {
      SubsetIsNoLarger(a - {t}, b - {t});
    }
  }

  /** Once a remote handle is recorded, or a cancel requested, no further token is ever issued
      for the job. */
  lemma NeverClaimedAgain(run: seq<Sys>, steps: seq<Step>, i: nat, m: nat, j: JobId)
    requires IsRun(run, steps) && i <= m < |run| && j in run[i].jobs
    requires run[i].jobs[j].remoteHandle.Some? || run[i].jobs[j].cancelRequested
    ensures j in run[m].jobs && run[m].jobs[j].attempts == run[i].jobs[j].attempts
    ensures ClaimsOf(run[m].issued, j) == ClaimsOf(run[i].issued, j)
  {
    hide Next;
    RunIsLater(run, steps, i, m);
    assert RowLater(run[i].jobs[j], run[m].jobs[j], run[i].issued);
    AttemptsAreBounded(run, steps, i, j);
    AttemptsAreBounded(run, steps, m, j);
    SameSize(ClaimsOf(run[i].issued, j), ClaimsOf(run[m].issued, j));
  }

  // ---- the measure ----

  function Rank(s: Status): nat {
    match s
    case Running => 2
    case Queued => 1
    case _ => 0
  }

  /** What a job has left to do: attempts, then its place in the life cycle, then the flag. */
  function Remaining(r: Row): nat {
    (if r.attempts <= MAX_ATTEMPTS then MAX_ATTEMPTS - r.attempts else 0) * 6
    + Rank(r.status) * 2 + (if r.cancelRequested then 0 else 1)
  }

  predicate SameState(r: Row, r': Row) {
    r'.status == r.status && r'.attempts == r.attempts && r'.cancelRequested == r.cancelRequested
  }

  /** A change of state spends some of what is left. */
  predicate Spends(r: Row, r': Row) {
    SameState(r, r') || Remaining(r') < Remaining(r)
  }

  lemma UpdateSpends(r: Row, u: RowUpdate, tombstones: set<ProjectId>, now: Time)
    requires Allowed(r, u, tombstones, now) && r.kind == Shaped
    ensures Spends(r, Updated(r, u, now))
  {
  }

  lemma FencedSpends(r: Row, r': Row, t: Token)
    requires FencedWrite(r, r', t)
    ensures Spends(r, r')
  {
  }

  lemma ClaimSpends(s: Sys, j: JobId, t: Token, now: Time, s': Sys, j': JobId)
    requires Rows(s) && ClaimStep(s, j, t, now, s') && j' in s.jobs && j' in s'.jobs
    ensures Spends(s.jobs[j'], s'.jobs[j'])
  {
    assert RowOk(j, s.jobs[j], s.issued, s.latest);
  }

  /** An aborted deletion gives back `j`, which it had cancelled. */
  predicate Revives(s: Sys, step: Step, j: JobId) {
    && step.AbortDeletion? && step.p in s.removals && j in s.removals[step.p].cancelled
    && j in s.jobs && s.jobs[j].status == Failed && s.jobs[j].error == Some(PROJECT_DELETED)
  }

  lemma DeletionSpends(s: Sys, step: Step, s': Sys, j: JobId)
    requires Next(s, step, s') && IsDeletion(step) && j in s.jobs && j in s'.jobs
    requires !Revives(s, step, j)
    ensures Spends(s.jobs[j], s'.jobs[j])
  {
  }

  lemma ClientSpendsNothing(s: Sys, step: Step, s': Sys, j: JobId)
    requires Next(s, step, s') && IsClient(step) && j in s.jobs && j in s'.jobs
    ensures SameState(s.jobs[j], s'.jobs[j])
  {
  }

  lemma CleanupSpendsNothing(s: Sys, step: Step, s': Sys, j: JobId)
    requires Next(s, step, s') && (step.Doom? || step.DiscardDoomed?)
    requires j in s.jobs && j in s'.jobs
    ensures SameState(s.jobs[j], s'.jobs[j])
  {
  }

  /** Claim, reclaim, expiry, the first cancel request and every finish bring a generate-shaped job
      strictly nearer to its end. Only a deletion's abort brings one back. */
  lemma StepSpends(s: Sys, step: Step, s': Sys, j: JobId)
    requires Inv(s) && Next(s, step, s') && j in s.jobs && s.jobs[j].kind == Shaped
    requires !Revives(s, step, j)
    ensures j in s'.jobs && Spends(s.jobs[j], s'.jobs[j])
  {
    hide Spends, FencedWrite, Rows, Attempts, Records, Later, Revives;
    StepIsLater(s, step, s');
    RowStays(s, s', j);
    if step.OnAttempt? {
      hide AttemptNext;
      AttemptWrites(s, step.t, step.move, s');
      if j == s.attempts[step.t].job {
        FencedSpends(s.jobs[j], s'.jobs[j], step.t);
      } else {
        SameStateSpends(s.jobs[j], s'.jobs[j]);
      }
    } else if step.OnRow? {
      if j == step.j {
        UpdateSpends(s.jobs[j], step.update, s.tombstones, step.now);
      } else {
        SameStateSpends(s.jobs[j], s'.jobs[j]);
      }
    } else if step.Claim? {
      ClaimSpends(s, step.j, step.t, step.now, s', j);
    } else {
      hide Next;
      if IsDeletion(step) {
        DeletionSpends(s, step, s', j);
      } else {
        if IsClient(step) {
          ClientSpendsNothing(s, step, s', j);
        } else {
          CleanupSpendsNothing(s, step, s', j);
        }
        SameStateSpends(s.jobs[j], s'.jobs[j]);
      }
    }
  }

  lemma RowStays(s: Sys, s': Sys, j: JobId)
    requires Later(s, s') && j in s.jobs
    ensures j in s'.jobs
  {
  }

  lemma SameStateSpends(r: Row, r': Row)
    requires SameState(r, r')
    ensures Spends(r, r')
  {
  }

  /** How often the state of `j` changes between `i` and `m`. */
  ghost function Changes(run: seq<Sys>, j: JobId, i: nat, m: nat): nat
    requires i <= m < |run| && forall n | i <= n <= m :: j in run[n].jobs
    decreases m - i
  {
    if i == m then 0
    else Changes(run, j, i, m - 1) + if SameState(run[m - 1].jobs[j], run[m].jobs[j]) then 0 else 1
  }

  /** No aborted deletion gives `j` back. */
  ghost predicate NotRevived(run: seq<Sys>, steps: seq<Step>, j: JobId, i: nat, m: nat) {
    i <= m <= |steps| < |run| && forall n | i <= n < m :: !Revives(run[n], steps[n], j)
  }

  /** In any run a job's state changes at most as often as its measure allows: 21 times from its
      insertion, unless an aborted deletion revives it. */
  lemma {:induction false} WorkIsBounded(run: seq<Sys>, steps: seq<Step>, i: nat, m: nat, j: JobId)
    requires IsRun(run, steps) && i <= m < |run| && j in run[i].jobs && run[i].jobs[j].kind == Shaped
    requires NotRevived(run, steps, j, i, m)
    ensures forall n | i <= n <= m :: j in run[n].jobs && run[n].jobs[j].kind == Shaped
    ensures Changes(run, j, i, m) + Remaining(run[m].jobs[j]) <= Remaining(run[i].jobs[j])
    decreases m - i
  {
    hide Inv, Next, Remaining, Revives;
    if i < m {
      WorkIsBounded(run, steps, i, m - 1, j);
      RunKeepsInv(run, steps, m - 1);
      RunIsLater(run, steps, i, m);
      assert RowLater(run[i].jobs[j], run[m].jobs[j], run[i].issued);
      StepSpends(run[m - 1], steps[m - 1], run[m], j);
      SameStateSameMeasure(run[m - 1].jobs[j], run[m].jobs[j]);
    }
  }

  lemma SameStateSameMeasure(r: Row, r': Row)
    ensures SameState(r, r') ==> Remaining(r') == Remaining(r)
    ensures Spends(r, r') && !SameState(r, r') ==> Remaining(r') < Remaining(r)
  {
  }
}
