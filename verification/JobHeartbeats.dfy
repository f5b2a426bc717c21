/** The heartbeat and the lease, over a run: a job whose heartbeats keep the loop's pace is never taken
    from its attempt. */
module JobHeartbeats {
  import opened Common
  import opened CreationTypes
  import opened JobRows
  import opened JobProtocol
  import opened JobInvariant
  import opened JobMoves
  import opened JobSteps
  import opened JobHistory
  import opened JobTheorems
  import opened Watchdog

  predicate Beats(step: Step, j: JobId) {
    step.OnRow? && step.j == j && step.update.Heartbeat?
  }

  predicate Reclaims(step: Step, j: JobId) {
    step.OnRow? && step.j == j && step.update.Reclaim?
  }

  /** Running under `t` with that heartbeat, or ended for good. */
  predicate HeldOrEnded(r: Row, t: Token, heartbeat: Option<Time>) {
    (Owns(r, t) && r.heartbeatAt == heartbeat) || Settled(r)
  }

  function BeatAfter(step: Step, j: JobId, heartbeat: Option<Time>): Option<Time> {
    if Beats(step, j) then Some(step.now) else heartbeat
  }

  // ---- one step ----

  lemma UpdateHolds(r: Row, u: RowUpdate, tombstones: set<ProjectId>, now: Time, j: JobId, t: Token)
    requires Allowed(r, u, tombstones, now) && Owns(r, t) && r.kind == Shaped && !u.Reclaim?
    ensures HeldOrEnded(Updated(r, u, now), t, BeatAfter(OnRow(j, u, now), j, r.heartbeatAt))
  {
  }

  lemma FencedHoldsRow(r: Row, r': Row, u: Token, t: Token)
    requires FencedWrite(r, r', u) && Owns(r, t) && r.kind == Shaped
    ensures HeldOrEnded(r', t, r.heartbeatAt)
  {
  }

  lemma AttemptHoldsRow(s: Sys, u: Token, s': Sys, j: JobId, t: Token)
    requires WritesOwnRow(s, u, s') && j in s.jobs && Owns(s.jobs[j], t) && s.jobs[j].kind == Shaped
    ensures j in s'.jobs && HeldOrEnded(s'.jobs[j], t, s.jobs[j].heartbeatAt)
  {
    if s.attempts[u].job == j {
      hide FencedWrite, HeldOrEnded;
      FencedHoldsRow(s.jobs[j], s'.jobs[j], u, t);
    }
  }

  lemma ClientHoldsRow(s: Sys, step: Step, s': Sys, j: JobId, t: Token)
    requires Next(s, step, s') && IsClient(step) && j in s.jobs && Owns(s.jobs[j], t)
    ensures j in s'.jobs && s'.jobs[j] == s.jobs[j]
  {
  }

  lemma OtherHoldsRow(s: Sys, step: Step, s': Sys, j: JobId, t: Token)
    requires Next(s, step, s') && !step.OnAttempt? && !step.OnRow? && !IsClient(step)
    requires j in s.jobs && Owns(s.jobs[j], t)
    ensures j in s'.jobs && s'.jobs[j] == s.jobs[j]
  {
  }

  lemma StepHoldsRow(s: Sys, step: Step, s': Sys, j: JobId, t: Token)
    requires Inv(s) && Next(s, step, s') && j in s.jobs && Owns(s.jobs[j], t) && s.jobs[j].kind == Shaped
    requires !Reclaims(step, j)
    ensures j in s'.jobs && HeldOrEnded(s'.jobs[j], t, BeatAfter(step, j, s.jobs[j].heartbeatAt))
  {
    hide Rows, Attempts, Records, WritesOwnRow, Allowed, Updated;
    if step.OnAttempt? {
      hide AttemptNext, HeldOrEnded;
      AttemptWrites(s, step.t, step.move, s');
      AttemptHoldsRow(s, step.t, s', j, t);
    } else if step.OnRow? {
      if step.j == j {
        UpdateHolds(s.jobs[j], step.update, s.tombstones, step.now, j, t);
      }
    } else {
      hide Next;
      if IsClient(step) {
        ClientHoldsRow(s, step, s', j, t);
      } else {
        OtherHoldsRow(s, step, s', j, t);
      }
    }
  }

  // ---- a run ----

  /** The heartbeats of `j` in the steps from `i` on, before `m`, since `claimed`. */
  function BeatsOf(steps: seq<Step>, j: JobId, claimed: Time, i: nat, m: nat): seq<Time>
    requires i <= m <= |steps|
    decreases m - i
  {
    if i == m then []
    else BeatsOf(steps, j, claimed, i, m - 1) + if Beats(steps[m - 1], j) then [steps[m - 1].now - claimed] else []
  }

  lemma LastBeatAfter(steps: seq<Step>, j: JobId, claimed: Time, i: nat, m: nat)
    requires i < m <= |steps|
    ensures Some(claimed + LastBeat(BeatsOf(steps, j, claimed, i, m)))
      == BeatAfter(steps[m - 1], j, Some(claimed + LastBeat(BeatsOf(steps, j, claimed, i, m - 1))))
  {
  }

  /** Whoever looks for stale jobs allows them at least an interval (the default is twelve), and looks
      within an interval of the last heartbeat: the loop is on time. */
  ghost predicate OnTime(steps: seq<Step>, j: JobId, claimed: Time, i: nat, m: nat) {
    i <= m <= |steps| && forall n | i <= n < m && Reclaims(steps[n], j) ::
      && steps[n].update.staleAfter >= HEARTBEAT_INTERVAL
      && steps[n].now <= claimed + LastBeat(BeatsOf(steps, j, claimed, i, n)) + HEARTBEAT_INTERVAL
  }

  lemma OnTimeLast(steps: seq<Step>, j: JobId, claimed: Time, i: nat, m: nat)
    requires i < m && OnTime(steps, j, claimed, i, m)
    ensures OnTime(steps, j, claimed, i, m - 1)
    ensures Reclaims(steps[m - 1], j) ==>
      && steps[m - 1].update.staleAfter >= HEARTBEAT_INTERVAL
      && steps[m - 1].now <= claimed + LastBeat(BeatsOf(steps, j, claimed, i, m - 1)) + HEARTBEAT_INTERVAL
  {
  }

  lemma NoBeatYet(steps: seq<Step>, j: JobId, claimed: Time, i: nat)
    requires i <= |steps|
    ensures LastBeat(BeatsOf(steps, j, claimed, i, i)) == 0
  {
  }

  lemma OnTimeIsNotReclaimed(s: Sys, step: Step, s': Sys, j: JobId, beat: Time)
    requires Next(s, step, s') && Reclaims(step, j) && step.update.staleAfter >= HEARTBEAT_INTERVAL
    requires j in s.jobs && s.jobs[j].heartbeatAt == Some(beat)
    ensures step.now > beat + HEARTBEAT_INTERVAL
  {
  }

  lemma ClaimStartsLease(s: Sys, j: JobId, t: Token, claimed: Time, s': Sys)
    requires Next(s, Claim(j, t, claimed), s') && j in s.jobs && s.jobs[j].kind == Shaped
    ensures j in s'.jobs && s'.jobs[j].kind == Shaped && HeldOrEnded(s'.jobs[j], t, Some(claimed))
  {
  }

  /** From its claim on, a generate-shaped job whose heartbeats keep the loop's pace stays with its
      attempt until it ends: no reclaim ever takes it or queues it again, and its row carries the
      loop's last heartbeat. */
  lemma {:induction false} BeatingKeepsLease(run: seq<Sys>, steps: seq<Step>, i: nat, m: nat, j: JobId, t: Token, claimed: Time)
    requires IsRun(run, steps) && i < m < |run| && steps[i] == Claim(j, t, claimed)
    requires j in run[i].jobs && run[i].jobs[j].kind == Shaped && OnTime(steps, j, claimed, i + 1, m)
    ensures j in run[m].jobs && run[m].jobs[j].kind == Shaped
    ensures HeldOrEnded(run[m].jobs[j], t, Some(claimed + LastBeat(BeatsOf(steps, j, claimed, i + 1, m))))
    decreases m - i
  {
    hide Inv, Next, HeldOrEnded, Reclaims, BeatAfter, Later, OnTime, BeatsOf, LastBeat;
    if m == i + 1 {
      ClaimStartsLease(run[i], j, t, claimed, run[m]);
      NoBeatYet(steps, j, claimed, m);
    } else {
      OnTimeLast(steps, j, claimed, i + 1, m);
      BeatingKeepsLease(run, steps, i, m - 1, j, t, claimed);
      RunKeepsInv(run, steps, m - 1);
      LastBeatAfter(steps, j, claimed, i + 1, m);
      RunIsLater(run, steps, m - 1, m);
      LeaseStep(run[m - 1], steps[m - 1], run[m], j, t, claimed + LastBeat(BeatsOf(steps, j, claimed, i + 1, m - 1)));
    }
  }

  lemma LeaseStep(s: Sys, step: Step, s': Sys, j: JobId, t: Token, beat: Time)
    requires Inv(s) && Next(s, step, s') && Later(s, s') && j in s.jobs && s.jobs[j].kind == Shaped
    requires HeldOrEnded(s.jobs[j], t, Some(beat))
    requires Reclaims(step, j) ==> step.update.staleAfter >= HEARTBEAT_INTERVAL && step.now <= beat + HEARTBEAT_INTERVAL
    ensures j in s'.jobs && s'.jobs[j].kind == Shaped && HeldOrEnded(s'.jobs[j], t, BeatAfter(step, j, Some(beat)))
  {
    assert RowLater(s.jobs[j], s'.jobs[j], s.issued);
    hide Inv, Next;
    if Owns(s.jobs[j], t) && s.jobs[j].heartbeatAt == Some(beat) {
      if Reclaims(step, j) {
        OnTimeIsNotReclaimed(s, step, s', j, beat);
      } else {
        StepHoldsRow(s, step, s', j, t);
      }
    }
  }
}
