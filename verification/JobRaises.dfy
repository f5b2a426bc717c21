/** An exception after the rename runs the failure handler with the take id still set: what becomes of
    the take and of the job then. */
module JobRaises {
  import opened Common
  import opened CreationTypes
  import opened JobRows
  import opened JobProtocol
  import opened JobInvariant
  import opened JobMoves
  import opened JobSteps
  import opened JobHistory
  import opened JobTakes
  import opened JobTheorems
  import opened JobRenames

  // ---- a done job has no cancel flag ----

  ghost predicate DonesUnflagged(jobs: Jobs) {
    forall j | j in jobs && jobs[j].status == Done :: !jobs[j].cancelRequested
  }

  lemma UpdateKeepsUnflagged(r: Row, u: RowUpdate, tombstones: set<ProjectId>, now: Time)
    requires Allowed(r, u, tombstones, now) && (r.status == Done ==> !r.cancelRequested)
    ensures var r' := Updated(r, u, now); r'.status == Done ==> !r'.cancelRequested
  {
  }

  lemma OneRowUnflagged(jobs: Jobs, j: JobId, r': Row)
    requires DonesUnflagged(jobs) && (r'.status == Done ==> !r'.cancelRequested)
    ensures DonesUnflagged(jobs[j := r'])
  {
  }

  lemma ClientKeepsUnflagged(s: Sys, step: Step, s': Sys)
    requires DonesUnflagged(s.jobs) && Next(s, step, s') && IsClient(step)
    ensures DonesUnflagged(s'.jobs)
  {
    hide NewRow, Unsnapshotted;
    if step.Enqueue? || step.LegacyRow? || step.RetryEnqueue? {
      assert NewRow(step.row) || NewRow(step.row.(kind := TrainLora)) by {
        hide Unsnapshotted;
      }
      NewIsUnflagged(s.jobs, step.j, step.row);
    } else if step.RetryCopy? {
      hide DonesUnflagged;
      CopyIsUnflagged(s, step.j, s');
    }
  }

  lemma NewIsUnflagged(jobs: Jobs, j: JobId, row: Row)
    requires DonesUnflagged(jobs) && (NewRow(row) || NewRow(row.(kind := TrainLora)))
    ensures DonesUnflagged(jobs[j := row])
  {
  }

  lemma CopyIsUnflagged(s: Sys, j: JobId, s': Sys)
    requires DonesUnflagged(s.jobs) && RetryCopyStep(s, j, s')
    ensures DonesUnflagged(s'.jobs)
  {
  }

  lemma OtherKeepsUnflagged(s: Sys, step: Step, s': Sys)
    requires DonesUnflagged(s.jobs) && Next(s, step, s')
    requires !step.OnAttempt? && !step.OnRow? && !IsClient(step)
    ensures DonesUnflagged(s'.jobs)
  {
  }

  lemma FencedKeepsUnflagged(s: Sys, t: Token, s': Sys)
    requires DonesUnflagged(s.jobs) && WritesOwnRow(s, t, s')
    ensures DonesUnflagged(s'.jobs)
  {
  }

  lemma StepKeepsUnflagged(s: Sys, step: Step, s': Sys)
    requires Inv(s) && DonesUnflagged(s.jobs) && Next(s, step, s')
    ensures DonesUnflagged(s'.jobs)
  {
    hide DonesUnflagged, Rows, Attempts, Records, WritesOwnRow;
    if step.OnAttempt? {
      hide AttemptNext;
      AttemptWrites(s, step.t, step.move, s');
      FencedKeepsUnflagged(s, step.t, s');
    } else if step.OnRow? {
      RowKeepsUnflagged(s, step.j, step.update, step.now);
    } else {
      hide Next;
      if IsClient(step) {
        ClientKeepsUnflagged(s, step, s');
      } else {
        OtherKeepsUnflagged(s, step, s');
      }
    }
  }

  lemma RowKeepsUnflagged(s: Sys, j: JobId, u: RowUpdate, now: Time)
    requires DonesUnflagged(s.jobs) && j in s.jobs && Allowed(s.jobs[j], u, s.tombstones, now)
    ensures DonesUnflagged(s.jobs[j := Updated(s.jobs[j], u, now)])
  {
    UpdateKeepsUnflagged(s.jobs[j], u, s.tombstones, now);
    OneRowUnflagged(s.jobs, j, Updated(s.jobs[j], u, now));
  }

  /** In every run a done job has no cancel flag: a cancel before the commit prevents it, and one
      after it is not recorded. */
  lemma {:induction false} DoneIsUnflagged(run: seq<Sys>, steps: seq<Step>, i: nat)
    requires IsRun(run, steps) && i < |run|
    ensures DonesUnflagged(run[i].jobs)
  {
    hide Inv, Next;
    if i > 0 {
      DoneIsUnflagged(run, steps, i - 1);
      RunKeepsInv(run, steps, i - 1);
      hide DonesUnflagged;
      StepKeepsUnflagged(run[i - 1], steps[i - 1], run[i]);
    }
  }

  /** Once the SQL half of the commit is done too, nothing rewrites the row: it stays done, names the
      take, and no later cancel is recorded on it, so none can keep the handler from the take. */
  lemma CommittedRowStands(run: seq<Sys>, steps: seq<Step>, i: nat, m: nat, t: Token, j: JobId, p: ProjectId, k: TakeId,
                           now: Time)
    requires Renames(run, steps, i, t, j, p, k) && i < m < |run| && i < |steps|
    requires steps[i] == OnAttempt(t, Commit(Published, now))
    ensures j in run[i + 1].jobs && j in run[m].jobs && run[m].jobs[j] == run[i + 1].jobs[j]
    ensures run[m].jobs[j].status == Done && run[m].jobs[j].takeId == Some(k) && !run[m].jobs[j].cancelRequested
  {
    hide Renames, Next, Inv, DonesUnflagged;
    RenamesIsRun(run, steps, i, t, j, p, k);
    CommitsIn(run, steps, i, t, j, p, k, now);
    SettledForGood(run, steps, i + 1, m, j);
    DoneIsUnflagged(run, steps, m);
    UnflaggedAt(run[m].jobs, j);
  }

  lemma UnflaggedAt(jobs: Jobs, j: JobId)
    requires DonesUnflagged(jobs) && j in jobs && jobs[j].status == Done
    ensures !jobs[j].cancelRequested
  {
  }

  lemma CommitsIn(run: seq<Sys>, steps: seq<Step>, i: nat, t: Token, j: JobId, p: ProjectId, k: TakeId, now: Time)
    requires Renames(run, steps, i, t, j, p, k) && i < |steps| < |run|
    requires steps[i] == OnAttempt(t, Commit(Published, now))
    ensures j in run[i + 1].jobs && Settled(run[i + 1].jobs[j])
    ensures run[i + 1].jobs[j].status == Done && run[i + 1].jobs[j].takeId == Some(k)
  {
    assert Next(run[i], steps[i], run[i + 1]);
    hide OwnStaging, Attempts, Created, AttemptNext, PublishStep, MayCommit, NoneFound, Found;
    ReachableRenaming(run, steps, i);
    RenamingPublishes(run[i], t, steps[i].move, run[i + 1], j, p, k);
    PublishedIsDone(run[i], t, now, run[i + 1]);
  }

  lemma PublishedIsDone(s: Sys, t: Token, now: Time, s': Sys)
    requires Attempts(s) && HasAttempt(s, t, AtCommit) && s.attempts[t].take.Some?
    requires PublishStep(s, t, Published, now, s')
    ensures var j := s.attempts[t].job;
      && j in s'.jobs && Settled(s'.jobs[j])
      && s'.jobs[j].status == Done && s'.jobs[j].takeId == s.attempts[t].take
  {
    assert AttemptOk(s.attempts[t], t, s.jobs, s.issued, s.takeIds);
  }

  // ---- the handler's end ----

  ghost predicate OnCourse(s: Sys, t: Token, j: JobId, flagged: bool) {
    && j in s.jobs && (flagged ==> s.jobs[j].cancelRequested)
    && (t in s.attempts ==> Course(s.attempts[t], flagged))
  }

  lemma HandlerSetsCourse(s: Sys, t: Token, s': Sys, j: JobId, p: ProjectId, k: TakeId, written: bool)
    requires HandleFailureStep(s, t, s') && Renamed(s, t, j, p, k, written)
    ensures j in s.jobs && OnCourse(s', t, j, s.jobs[j].cancelRequested)
  {
    FailureMovesOn(s, t, s');
    FailureKeepsRows(s, t, s');
  }

  lemma FailureKeepsRows(s: Sys, t: Token, s': Sys)
    requires HandleFailureStep(s, t, s')
    ensures s'.jobs == s.jobs
  {
  }

  lemma HandlerCourse(run: seq<Sys>, steps: seq<Step>, i: nat, h: nat, t: Token, j: JobId, p: ProjectId, k: TakeId)
    requires Renames(run, steps, i, t, j, p, k) && i < h < |steps| && steps[h] == OnAttempt(t, HandleFailure)
    ensures j in run[h].jobs && OnCourse(run[h + 1], t, j, run[h].jobs[j].cancelRequested)
  {
    assert Next(run[h], steps[h], run[h + 1]);
    hide Renames, ErrorWritten, OnCourse, Renamed, HandleFailureStep;
    RenamedOver(run, steps, i, h, t, j, p, k);
    HandlerSetsCourse(run[h], t, run[h + 1], j, p, k, ErrorWritten(steps, t, i + 1, h));
  }

  lemma OwnMoveStaysOnCourse(s: Sys, t: Token, move: Move, s': Sys, j: JobId, p: ProjectId, k: TakeId,
                             written: bool, flagged: bool)
    requires Attempts(s) && AttemptNext(s, t, move, s') && t in s.attempts
    requires Behind(s.attempts[t], j, p, k, written) && OnCourse(s, t, j, flagged)
    ensures t in s'.attempts ==> Course(s'.attempts[t], flagged)
  {
    hide Attempts, AttemptNext;
    OwnMoveStaysBehind(s, t, move, s', j, p, k, written);
  }

  lemma {:induction false} StaysOnCourse(run: seq<Sys>, steps: seq<Step>, i: nat, h: nat, m: nat, t: Token, j: JobId,
                                         p: ProjectId, k: TakeId, flagged: bool)
    requires Renames(run, steps, i, t, j, p, k) && i < h <= m < |run| && OnCourse(run[h], t, j, flagged)
    ensures OnCourse(run[m], t, j, flagged)
    decreases m - h
  {
    hide Renames, Next, Attempts, OwnStaging, Created, ErrorWritten, Course;
    if h < m {
      StaysOnCourse(run, steps, i, h, m - 1, t, j, p, k, flagged);
      RenamesIsRun(run, steps, i, t, j, p, k);
      RenamedOver(run, steps, i, m - 1, t, j, p, k);
      ReachableRenaming(run, steps, m - 1);
      RunIsLater(run, steps, m - 1, m);
      assert RowLater(run[m - 1].jobs[j], run[m].jobs[j], run[m - 1].issued);
      CourseStep(run[m - 1], steps[m - 1], run[m], t, j, p, k, ErrorWritten(steps, t, i + 1, m - 1), flagged);
    }
  }

  lemma CourseStep(s: Sys, step: Step, s': Sys, t: Token, j: JobId, p: ProjectId, k: TakeId, written: bool, flagged: bool)
    requires Attempts(s) && Next(s, step, s') && Renamed(s, t, j, p, k, written) && OnCourse(s, t, j, flagged)
    ensures t in s'.attempts ==> Course(s'.attempts[t], flagged)
  {
    hide Attempts, Course;
    if step.OnAttempt? && step.t == t {
      hide AttemptNext;
      MoverIsThere(s, t, step.move, s');
      OwnMoveStaysOnCourse(s, t, step.move, s', j, p, k, written, flagged);
    } else if t in s'.attempts {
      hide Next;
      OthersLeaveAttempt(s, step, s', t);
    }
  }

  predicate Ends(step: Step, t: Token) {
    step.OnAttempt? && step.t == t && (step.move.MarkCancelled? || step.move.WriteErrorRow?)
  }

  /** What the handler's last write makes of the row, when the attempt still owns it. */
  predicate Ended(r: Row, r': Row, t: Token, k: TakeId, flagged: bool, written: bool) {
    if !Owns(r, t) then r' == r
    else if flagged then r'.status == Cancelled && r'.takeId == None
    else r'.status == Failed && r'.takeId == if written then Some(k) else None
  }

  lemma LastWrite(s: Sys, step: Step, s': Sys, t: Token, j: JobId, p: ProjectId, k: TakeId, written: bool, flagged: bool)
    requires Rows(s) && Attempts(s) && Records(s) && Next(s, step, s') && Ends(step, t)
    requires Renamed(s, t, j, p, k, written) && OnCourse(s, t, j, flagged)
    ensures j in s.jobs && j in s'.jobs && Ended(s.jobs[j], s'.jobs[j], t, k, flagged, written)
    ensures flagged ==> !written
  {
    hide Rows, Attempts, Records, AttemptNext, SoleHolder, TakeIs;
    MoverIsThere(s, t, step.move, s');
    AttemptWrites(s, t, step.move, s');
    OwnMoveStaysBehind(s, t, step.move, s', j, p, k, written);
    if Owns(RowOf(s, t), t) {
      LastRow(s, t, step.move, s');
    }
  }

  lemma LastRow(s: Sys, t: Token, move: Move, s': Sys)
    requires AttemptNext(s, t, move, s') && t in s.attempts && s.attempts[t].job in s.jobs && Owns(RowOf(s, t), t)
    requires move.MarkCancelled? || move.WriteErrorRow?
    ensures s.attempts[t].job in s'.jobs
    ensures var r' := s'.jobs[s.attempts[t].job];
      if move.MarkCancelled? then r'.status == Cancelled && r'.takeId == None
      else r'.status == Failed && r'.takeId == s.attempts[t].take
  {
  }

  /** Any exception after the rename, whether the SQL commit went through or not: the failure handler
      looks at the cancel flag once (step `h`) and then ends the attempt (step `m`). The take is lost
      if and only if it found no flag and could write the error take. If the attempt still owned the
      row, the job ends cancelled with its take standing when flagged, and failed when not, naming
      the error take if there is one; if not, the row stands. */
  lemma RaiseAfterRename(run: seq<Sys>, steps: seq<Step>, i: nat, h: nat, m: nat, t: Token, j: JobId, p: ProjectId, k: TakeId)
    requires Renames(run, steps, i, t, j, p, k) && i < h < m < |steps|
    requires steps[h] == OnAttempt(t, HandleFailure) && Ends(steps[m], t)
    ensures j in run[h].jobs && j in run[m].jobs && j in run[m + 1].jobs
    ensures var flagged, written := run[h].jobs[j].cancelRequested, ErrorWritten(steps, t, i + 1, m);
      && (flagged ==> !written)
      && (p in run[m + 1].projects && p !in run[m + 1].damaged ==> (Found(run[m + 1], p, j, k) <==> flagged || !written))
      && Ended(run[m].jobs[j], run[m + 1].jobs[j], t, k, flagged, written)
  {
    hide Renames, Next, Attempts, Rows, Records, ErrorWritten, OnCourse, Renamed, Ended, Renders, OwnStaging, Found;
    RenamesIsRun(run, steps, i, t, j, p, k);
    HandlerCourse(run, steps, i, h, t, j, p, k);
    var flagged, written := run[h].jobs[j].cancelRequested, ErrorWritten(steps, t, i + 1, m);
    StaysOnCourse(run, steps, i, h + 1, m, t, j, p, k, flagged);
    RenamedOver(run, steps, i, m, t, j, p, k);
    ReachableRecords(run, steps, m);
    LastWrite(run[m], steps[m], run[m + 1], t, j, p, k, written, flagged);
    WrittenExtends(steps, t, i + 1, m);
    if p in run[m + 1].projects && p !in run[m + 1].damaged {
      TakeLostIffErrorWritten(run, steps, i, m + 1, t, j, p, k);
    }
  }
}
