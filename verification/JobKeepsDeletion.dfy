/** Creating and removing projects, and the staging cleanup. */
module JobKeepsDeletion {
  import opened Common
  import opened CreationTypes
  import opened JobRows
  import opened JobProtocol
  import opened JobInvariant
  import opened JobKeeps

  // ---- creation ----

  function WithNewProject(s: Sys, p: ProjectId): Sys {
    s.(created := s.created + {p}, projects := s.projects[p := Project(map[], None)])
  }

  lemma CreateKeepsTakes(s: Sys, p: ProjectId)
    requires Takes(s) && Created(s) && p !in s.created
    ensures Takes(WithNewProject(s, p)) && Created(WithNewProject(s, p))
  {
  }

  lemma CreateKeepsOwn(s: Sys, p: ProjectId)
    requires OwnTakes(s) && Created(s) && Attempts(s) && Earliers(s) && p !in s.created
    ensures OwnTakes(WithNewProject(s, p)) && Earliers(WithNewProject(s, p))
  {
  }

  lemma CreateKeepsDones(s: Sys, p: ProjectId)
    requires Dones(s) && Created(s) && p !in s.created
    ensures Dones(WithNewProject(s, p))
  {
  }

  lemma KeepCreate(s: Sys, p: ProjectId)
    requires Inv(s) && p !in s.created
    ensures Inv(WithNewProject(s, p))
  {
    CreateKeepsTakes(s, p);
    CreateKeepsOwn(s, p);
    CreateKeepsDones(s, p);
  }

  // ---- loss of a directory, or of some of its takes ----

  function WithoutProject(s: Sys, p: ProjectId): Sys {
    s.(projects := s.projects - {p})
  }

  lemma KeepWithoutProject(s: Sys, p: ProjectId)
    requires Inv(s)
    ensures Inv(WithoutProject(s, p))
  {
    WithoutKeepsTakes(s, p);
    WithoutKeepsDones(s, p);
  }

  lemma WithoutKeepsTakes(s: Sys, p: ProjectId)
    requires Takes(s) && Created(s) && OwnTakes(s) && Earliers(s)
    ensures Takes(WithoutProject(s, p)) && Created(WithoutProject(s, p))
    ensures OwnTakes(WithoutProject(s, p)) && Earliers(WithoutProject(s, p))
  {
  }

  lemma WithoutKeepsDones(s: Sys, p: ProjectId)
    requires Dones(s)
    ensures Dones(WithoutProject(s, p))
  {
  }

  /** A project that lost all takes but `kept`. */
  function WithTakesLost(s: Sys, p: ProjectId, kept: set<TakeId>): Sys
    requires p in s.projects
  {
    s.(damaged := s.damaged + {p},
       projects := s.projects[p := s.projects[p].(takes := map k | k in s.projects[p].takes && k in kept
                                                   :: s.projects[p].takes[k])])
  }

  lemma LostKeepsTakes(s: Sys, p: ProjectId, kept: set<TakeId>)
    requires Takes(s) && Created(s) && p in s.projects
    ensures Takes(WithTakesLost(s, p, kept)) && Created(WithTakesLost(s, p, kept))
  {
  }

  lemma LostKeepsOwn(s: Sys, p: ProjectId, kept: set<TakeId>)
    requires OwnTakes(s) && Earliers(s) && p in s.projects
    ensures OwnTakes(WithTakesLost(s, p, kept)) && Earliers(WithTakesLost(s, p, kept))
  {
  }

  lemma LostKeepsDones(s: Sys, p: ProjectId, kept: set<TakeId>)
    requires Dones(s) && p in s.projects
    ensures Dones(WithTakesLost(s, p, kept))
  {
  }

  lemma KeepTakesLost(s: Sys, p: ProjectId, kept: set<TakeId>)
    requires Inv(s) && p in s.projects
    ensures Inv(WithTakesLost(s, p, kept))
  {
    LostKeepsTakes(s, p, kept);
    LostKeepsOwn(s, p, kept);
    LostKeepsDones(s, p, kept);
  }

  lemma DamageKeepsDones(s: Sys, p: ProjectId)
    requires Dones(s) && Earliers(s)
    ensures Dones(s.(damaged := s.damaged + {p})) && Earliers(s.(damaged := s.damaged + {p}))
  {
  }

  lemma KeepDamaged(s: Sys, p: ProjectId)
    requires Inv(s)
    ensures Inv(s.(damaged := s.damaged + {p}))
  {
    DamageKeepsDones(s, p);
  }

  // ---- the tombstone ----

  lemma BeginIsQuiet(jobs: Jobs, p: ProjectId, now: Time)
    requires forall j :: j in jobs && jobs[j].status == Queued ==> Fresh(jobs[j])
    ensures var jobs' := DeletionCancelledAll(jobs, p, now);
      && AllQuiet(jobs, jobs') && AllSameRecord(jobs, jobs')
      && AllSameOutcome(jobs, jobs') && AllStayFailed(jobs, jobs')
  {
  }

  lemma QueuedAreFresh(s: Sys)
    requires Rows(s)
    ensures forall j :: j in s.jobs && s.jobs[j].status == Queued ==> Fresh(s.jobs[j])
  {
  }

  lemma BeginKeepsRemovals(s: Sys, p: ProjectId, now: Time, s': Sys)
    requires Removals(s) && BeginDeletionStep(s, p, now, s')
    requires forall j :: j in s.jobs && s.jobs[j].status == Queued ==> Fresh(s.jobs[j])
    ensures Removals(s')
  {
  }

  lemma KeepBegin(s: Sys, p: ProjectId, now: Time, s': Sys)
    requires Inv(s) && BeginDeletionStep(s, p, now, s')
    ensures Inv(s')
  {
    QueuedAreFresh(s);
    BeginIsQuiet(s.jobs, p, now);
    KeepJobs(s, DeletionCancelledAll(s.jobs, p, now));
    BeginKeepsRemovals(s, p, now, s');
  }

  lemma AbortIsQuiet(s: Sys, p: ProjectId, now: Time)
    requires Rows(s) && Removals(s) && p in s.removals
    ensures var jobs' := DeletionRestoredAll(s.jobs, s.removals[p].cancelled, now);
      && AllQuiet(s.jobs, jobs') && AllSameRecord(s.jobs, jobs') && AllSameOutcome(s.jobs, jobs')
  {
  }

  lemma AbortKeepsRemovals(s: Sys, p: ProjectId, now: Time, s': Sys)
    requires Removals(s) && AbortDeletionStep(s, p, now, s')
    ensures Removals(s')
  {
  }

  lemma KeepAbort(s: Sys, p: ProjectId, now: Time, s': Sys)
    requires Inv(s) && AbortDeletionStep(s, p, now, s')
    ensures Inv(s')
  {
    AbortIsQuiet(s, p, now);
    AbortKeepsRemovals(s, p, now, s');
    JobsKeepRows(s, s'.jobs);
    JobsKeepAttempts(s, s'.jobs);
    JobsKeepTakes(s, s'.jobs);
    JobsKeepStaging(s, s'.jobs);
    JobsKeepDones(s, s'.jobs);
    JobsKeepRecords(s, s'.jobs);
  }

  lemma ClosingKeepsRemovals(s: Sys, p: ProjectId)
    requires Removals(s)
    ensures Removals(s.(removals := s.removals - {p}))
  {
  }

  lemma KeepClosing(s: Sys, p: ProjectId)
    requires Inv(s)
    ensures Inv(s.(removals := s.removals - {p}))
  {
    ClosingKeepsRemovals(s, p);
  }

  lemma FailingKeepsRemovals(s: Sys, p: ProjectId)
    requires Removals(s) && p in s.removals
    ensures Removals(s.(removals := s.removals[p := s.removals[p].(failed := true)]))
  {
  }

  lemma KeepRemovalFails(s: Sys, p: ProjectId, kept: Option<set<TakeId>>, s': Sys)
    requires Inv(s) && RemovalFailsStep(s, p, kept, s')
    ensures Inv(s')
  {
    var s1 := s.(removals := s.removals[p := s.removals[p].(failed := true)]);
    FailingKeepsRemovals(s, p);
    if kept.Some? && p in s.projects {
      KeepTakesLost(s1, p, kept.value);
    } else {
      KeepDamaged(s1, p);
      KeepWithoutProject(s1.(damaged := s.damaged + {p}), p);
      assert p !in s.projects ==> s.projects - {p} == s.projects;
    }
  }

  // ---- the cleanup ----

  lemma DoomKeepsStaging(s: Sys, k: TakeId)
    requires Kepts(s) && Doomeds(s) && OwnStaging(s) && k in s.staging && !OwnerAlive(s.jobs, s.staging[k].owner)
    ensures Kepts(s.(doomed := s.doomed + {k})) && Doomeds(s.(doomed := s.doomed + {k}))
  {
  }

  lemma KeepDoom(s: Sys, k: TakeId)
    requires Inv(s) && k in s.staging && !OwnerAlive(s.jobs, s.staging[k].owner)
    ensures Inv(s.(doomed := s.doomed + {k}))
  {
    DoomKeepsStaging(s, k);
  }

  lemma DoomedDiscardKeepsStaging(s: Sys, k: TakeId)
    requires Kepts(s) && Doomeds(s) && OwnStaging(s) && k in s.doomed
    ensures var s' := s.(doomed := s.doomed - {k}, staging := s.staging - {k});
      Kepts(s') && Doomeds(s') && OwnStaging(s')
  {
  }

  lemma KeepDiscardDoomed(s: Sys, k: TakeId)
    requires Inv(s) && k in s.doomed
    ensures Inv(s.(doomed := s.doomed - {k}, staging := s.staging - {k}))
  {
    DoomedDiscardKeepsStaging(s, k);
  }
}
