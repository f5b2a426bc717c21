/** Jobs held for confirmation: those without a snapshot, in every reachable state. */
module JobHeld {
  import opened Common
  import opened CreationTypes
  import opened JobRows
  import opened JobProtocol
  import opened JobInvariant
  import opened JobMoves
  import opened JobSteps
  import opened JobHistory
  import opened JobRecords
  import opened JobTheorems

  predicate HeldRowOk(r: Row, retried: bool) {
    && (r.stage == Some(NeedsConfirmation) ==> Unsnapshotted(r))
    && (retried ==> !Unsnapshotted(r))
    && (r.attempts > 0 ==> !Unsnapshotted(r))
  }

  ghost predicate HeldOk(s: Sys) {
    forall j | j in s.jobs :: HeldRowOk(s.jobs[j], j in s.inherited)
  }

  lemma UpdateKeepsHeld(r: Row, u: RowUpdate, tombstones: set<ProjectId>, now: Time, retried: bool)
    requires Allowed(r, u, tombstones, now) && HeldRowOk(r, retried)
    ensures HeldRowOk(Updated(r, u, now), retried)
  {
  }

  lemma RowKeepsHeld(s: Sys, j: JobId, u: RowUpdate, now: Time)
    requires HeldOk(s) && j in s.jobs && Allowed(s.jobs[j], u, s.tombstones, now)
    ensures HeldOk(SetRow(s, j, Updated(s.jobs[j], u, now)))
  {
    UpdateKeepsHeld(s.jobs[j], u, s.tombstones, now, j in s.inherited);
    hide HeldRowOk, Allowed, Updated;
  }

  lemma FencedKeepsHeld(s: Sys, t: Token, s': Sys)
    requires HeldOk(s) && WritesOwnRow(s, t, s') && s'.inherited == s.inherited
    ensures HeldOk(s')
  {
  }

  lemma ClientKeepsHeld(s: Sys, step: Step, s': Sys)
    requires HeldOk(s) && Retries(s) && Next(s, step, s') && IsClient(step) && !step.RetryCopy?
    ensures HeldOk(s')
  {
    hide Next, HeldOk, Retries;
    if step.Enqueue? || step.LegacyRow? {
      SubmissionKeepsHeld(s, step, s');
    } else if step.RetryEnqueue? {
      RetryKeepsHeld(s, step, s');
    } else {
      ReadingKeepsHeld(s, step, s');
    }
  }

  lemma ReadingKeepsHeld(s: Sys, step: Step, s': Sys)
    requires HeldOk(s) && Next(s, step, s') && (step.CreateProject? || step.ReadOriginal? || step.SetActive?)
    ensures HeldOk(s')
  {
  }

  lemma SubmissionKeepsHeld(s: Sys, step: Step, s': Sys)
    requires HeldOk(s) && Retries(s) && Next(s, step, s') && (step.Enqueue? || step.LegacyRow?)
    ensures HeldOk(s')
  {
  }

  lemma RetryKeepsHeld(s: Sys, step: Step, s': Sys)
    requires HeldOk(s) && Next(s, step, s') && step.RetryEnqueue?
    ensures HeldOk(s')
  {
  }

  lemma CopyKeepsHeld(s: Sys, j: JobId, s': Sys)
    requires HeldOk(s) && RetryCopyStep(s, j, s')
    ensures HeldOk(s')
  {
  }

  lemma OtherKeepsHeld(s: Sys, step: Step, s': Sys)
    requires HeldOk(s) && Next(s, step, s') && !step.OnAttempt? && !step.OnRow? && !IsClient(step)
    ensures HeldOk(s')
  {
  }

  lemma StepKeepsHeld(s: Sys, step: Step, s': Sys)
    requires Inv(s) && HeldOk(s) && Next(s, step, s')
    ensures HeldOk(s')
  {
    hide HeldOk, Rows, Attempts, Records, Retries, WritesOwnRow;
    if step.OnAttempt? {
      hide AttemptNext;
      AttemptWrites(s, step.t, step.move, s');
      AttemptSameRetries(s, step.t, step.move, s');
      FencedKeepsHeld(s, step.t, s');
    } else if step.OnRow? {
      RowKeepsHeld(s, step.j, step.update, step.now);
    } else if step.RetryCopy? {
      hide RetryCopyStep;
      CopyKeepsHeld(s, step.j, s');
    } else {
      hide Next;
      if IsClient(step) {
        ClientKeepsHeld(s, step, s');
      } else {
        OtherKeepsHeld(s, step, s');
      }
    }
  }

  /** In every run a job is held for confirmation only while it has no snapshot. */
  lemma {:induction false} RunKeepsHeld(run: seq<Sys>, steps: seq<Step>, i: nat)
    requires IsRun(run, steps) && i < |run|
    ensures HeldOk(run[i])
  {
    hide Inv, Next;
    if i > 0 {
      RunKeepsHeld(run, steps, i - 1);
      RunKeepsInv(run, steps, i - 1);
      hide HeldOk;
      StepKeepsHeld(run[i - 1], steps[i - 1], run[i]);
    }
  }

  lemma HeldAt(s: Sys, j: JobId)
    requires HeldOk(s) && j in s.jobs
    ensures HeldRowOk(s.jobs[j], j in s.inherited)
  {
  }

  /** A queued job of a live project that has been claimed before can be claimed again, whatever stage
      it had reached: no reclaimed job is stranded. */
  lemma RequeuedCanBeClaimed(run: seq<Sys>, steps: seq<Step>, i: nat, j: JobId, t: Token, now: Time)
    requires IsRun(run, steps) && i < |run| && j in run[i].jobs && t !in run[i].issued
    requires run[i].jobs[j].status == Queued && run[i].jobs[j].attempts > 0
    requires run[i].jobs[j].project !in run[i].tombstones
    ensures var s, s' := run[i], AfterClaim(run[i], j, t, now);
      && Next(s, Claim(j, t, now), s')
      && s'.jobs == s.jobs[j := s.jobs[j].(status := Running, token := Some(t), heartbeatAt := Some(now),
                                            attempts := s.jobs[j].attempts + 1, updatedAt := now)]
  {
    {
      hide Next, HeldOk;
      RunKeepsHeld(run, steps, i);
      HeldAt(run[i], j);
    }
    ClaimIsEnabled(run[i], j, t, now);
    hide Next;
  }

  lemma ClaimIsEnabled(s: Sys, j: JobId, t: Token, now: Time)
    requires j in s.jobs && t !in s.issued && s.jobs[j].status == Queued && s.jobs[j].project !in s.tombstones
    requires s.jobs[j].stage != Some(NeedsConfirmation) && !Unsnapshotted(s.jobs[j])
    ensures Next(s, Claim(j, t, now), AfterClaim(s, j, t, now))
  {
  }

  /** In particular a job that a reclaim has just queued again. */
  lemma ReclaimedCanBeClaimed(run: seq<Sys>, steps: seq<Step>, i: nat, j: JobId, staleAfter: int, now: Time, t: Token, later: Time)
    requires IsRun(run, steps) && i < |steps| && steps[i] == OnRow(j, Reclaim(staleAfter), now)
    requires j in run[i + 1].jobs && run[i + 1].jobs[j].status == Queued
    requires run[i + 1].jobs[j].project !in run[i + 1].tombstones && t !in run[i + 1].issued
    ensures Next(run[i + 1], Claim(j, t, later), AfterClaim(run[i + 1], j, t, later))
  {
    ReclaimedHasRun(run, steps, i, j, staleAfter, now);
    hide Next;
    RequeuedCanBeClaimed(run, steps, i + 1, j, t, later);
  }

  lemma ReclaimedHasRun(run: seq<Sys>, steps: seq<Step>, i: nat, j: JobId, staleAfter: int, now: Time)
    requires IsRun(run, steps) && i < |steps| && steps[i] == OnRow(j, Reclaim(staleAfter), now)
    ensures j in run[i + 1].jobs && run[i + 1].jobs[j].attempts > 0
  {
    hide Next, Rows, Attempts, OwnStaging, Kepts, Doomeds;
    ReachableStaging(run, steps, i);
    ReclaimedRan(run[i], j, staleAfter, now, run[i + 1]);
  }

  lemma ReclaimedRan(s: Sys, j: JobId, staleAfter: int, now: Time, s': Sys)
    requires Rows(s) && Next(s, OnRow(j, Reclaim(staleAfter), now), s')
    ensures j in s'.jobs && s'.jobs[j].attempts > 0
  {
    assert j in s.jobs && s.jobs[j].status == Running;
    assert s'.jobs[j].attempts == s.jobs[j].attempts;
    RunningHasClaim(s, j);
  }

  lemma RunningHasClaim(s: Sys, j: JobId)
    requires Rows(s) && j in s.jobs && s.jobs[j].status == Running
    ensures s.jobs[j].attempts > 0
  {
    assert RowOk(j, s.jobs[j], s.issued, s.latest);
    assert s.latest[j] in ClaimsOf(s.issued, j);
  }
}
