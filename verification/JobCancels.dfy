/** A cancel that comes before an attempt has begun to work: the attempt sees it and renders nothing. */
module JobCancels {
  import opened Common
  import opened CreationTypes
  import opened JobRows
  import opened JobProtocol
  import opened JobInvariant
  import opened JobMoves
  import opened JobSteps
  import opened JobHistory
  import opened JobTheorems
  import opened JobRenames
  import opened JobLate

  /** Not past the second check, or past the work for good. */
  predicate HeldBack(a: Attempt) {
    && a.take.None?
    && match a.pc
       case AtFirstCheck | AtLookup | AtEarlyFinish | AtSecondCheck | AtCancel | AtFailure | AtErrorRow => true
       case _ => false
  }

  predicate BackMove(move: Move) {
    LateMove(move) || move.SecondCheck?
  }

  lemma OnlyBackMoves(s: Sys, t: Token, move: Move, s': Sys)
    requires AttemptNext(s, t, move, s') && t in s.attempts && HeldBack(s.attempts[t])
    ensures BackMove(move)
  {
    hide NoneFound, Found, AtPc, SetAttempt, SetRow, EndAttempt, Discard, PutTake, Owns, Fenced;
  }

  predicate StaysBack(s': Sys, t: Token) {
    t in s'.attempts ==> HeldBack(s'.attempts[t])
  }

  lemma CheckStaysBack(s: Sys, t: Token, at: Pc, onward: Pc, s': Sys)
    requires CheckStep(s, t, at, onward, s') && HeldBack(s.attempts[t]) && RowOf(s, t).cancelRequested
    ensures StaysBack(s', t)
  {
  }

  lemma LookupStaysBack(s: Sys, t: Token, earlier: Option<TakeId>, s': Sys)
    requires LookupStep(s, t, earlier, s') && HeldBack(s.attempts[t])
    ensures StaysBack(s', t)
  {
    hide NoneFound, Found;
  }

  lemma EntryStaysBack(s: Sys, t: Token, move: Move, s': Sys)
    requires AttemptNext(s, t, move, s') && t in s.attempts && HeldBack(s.attempts[t])
    requires s.attempts[t].job in s.jobs && RowOf(s, t).cancelRequested
    requires move.FirstCheck? || move.SecondCheck? || move.Lookup?
    ensures StaysBack(s', t)
  {
    hide StaysBack, LookupStep, CheckStep, HeldBack;
    match move
    case FirstCheck => CheckStaysBack(s, t, AtFirstCheck, AtLookup, s');
    case SecondCheck => CheckStaysBack(s, t, AtSecondCheck, AtAllocate, s');
    case Lookup(earlier) => LookupStaysBack(s, t, earlier, s');
  }

  lemma HandlerStaysBack(s: Sys, t: Token, move: Move, s': Sys)
    requires AttemptNext(s, t, move, s') && t in s.attempts && HeldBack(s.attempts[t])
    requires move.Raise? || move.HandleFailure?
    ensures StaysBack(s', t)
  {
  }

  lemma EndStaysBack(s: Sys, t: Token, move: Move, s': Sys)
    requires AttemptNext(s, t, move, s')
    requires move.EarlyFinish? || move.MarkCancelled? || move.WriteErrorRow? || move.Crash?
    ensures StaysBack(s', t)
  {
  }

  lemma OwnMoveStaysBack(s: Sys, t: Token, move: Move, s': Sys)
    requires AttemptNext(s, t, move, s') && t in s.attempts && HeldBack(s.attempts[t])
    requires s.attempts[t].job in s.jobs && RowOf(s, t).cancelRequested
    ensures StaysBack(s', t) && !move.RenderLocal?
  {
    hide AttemptNext, StaysBack, HeldBack;
    OnlyBackMoves(s, t, move, s');
    if move.FirstCheck? || move.SecondCheck? || move.Lookup? {
      EntryStaysBack(s, t, move, s');
    } else if move.Raise? || move.HandleFailure? {
      HandlerStaysBack(s, t, move, s');
    } else {
      EndStaysBack(s, t, move, s');
    }
  }

  // ---- over a run ----

  /** Attempt `t` of the flagged job `j` is held back, or gone. */
  ghost predicate Stopped(s: Sys, t: Token, j: JobId) {
    && j in s.jobs && s.jobs[j].cancelRequested && t in s.issued
    && (t in s.attempts ==> s.attempts[t].job == j && HeldBack(s.attempts[t]))
  }

  lemma StepStaysStopped(s: Sys, step: Step, s': Sys, t: Token, j: JobId)
    requires Attempts(s) && Next(s, step, s') && Stopped(s, t, j)
    ensures t in s'.attempts ==> s'.attempts[t].job == j && HeldBack(s'.attempts[t])
    ensures forall e | e in s'.renders && e.token == t :: e in s.renders
  {
    hide Attempts, HeldBack;
    if step.OnAttempt? {
      hide AttemptNext;
      MoverIsThere(s, step.t, step.move, s');
      AttemptSameRenders(s, step.t, step.move, s');
      AttemptHolds(s, step.t, step.move, s');
      if step.t == t {
        OwnMoveStaysBack(s, t, step.move, s');
      }
    } else {
      hide Next;
      OtherSameRenders(s, step, s');
      if t in s'.attempts {
        OthersLeaveAttempt(s, step, s', t);
      }
    }
  }

  /** A cancel that lands before an attempt's second check keeps that attempt from its work: it never
      holds a staging directory and never renders. */
  lemma {:induction false} EarlyCancelStopsWork(run: seq<Sys>, steps: seq<Step>, i: nat, m: nat, t: Token, j: JobId)
    requires IsRun(run, steps) && i <= m < |run| && Stopped(run[i], t, j)
    ensures Stopped(run[m], t, j)
    ensures forall e | e in run[m].renders && e.token == t :: e in run[i].renders
    decreases m - i
  {
    hide Inv, Next, Attempts, OwnStaging, Created, HeldBack;
    if i < m {
      EarlyCancelStopsWork(run, steps, i, m - 1, t, j);
      ReachableRenaming(run, steps, m - 1);
      RunIsLater(run, steps, m - 1, m);
      assert RowLater(run[m - 1].jobs[j], run[m].jobs[j], run[m - 1].issued);
      StepStaysStopped(run[m - 1], steps[m - 1], run[m], t, j);
    }
  }
}
