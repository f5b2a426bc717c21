/** Whole runs of one project's draft: client writes, preset applications conditional on the
    revision they read, submissions, and merges of the planned renders that come back. */
module CreationRuns {
  import opened Common
  import opened CreationTypes
  import opened CreationText
  import opened CreationBrief
  import opened CreationPlanner
  import opened CreationDrafts

  // ---- the state machine ----

  /** A queued or running job: its frozen intent, and the plan it was submitted from. */
  datatype Submission = Submission(intent: Intent, source: Plan, override: Option<Mode>)

  /** `history` is every plan that was ever on disk, by revision; `seen` those a client holds. */
  datatype Draft = Draft(plan: Plan, history: map<nat, Plan>, seen: set<Plan>, jobs: map<nat, Submission>)

  datatype DraftStep =
    | Write(body: Body, expected: Option<nat>)
    | Replace(plan: Plan)
    | ReadPlan
    | SavePreset(read: Plan, preset: PresetSpec)
    | Submit(job: nat, override: Option<Mode>)
    | Land(job: nat, sample: Values, planner: string)

  function Saved(s: Draft, p: Plan): Draft {
    s.(plan := p, history := s.history[p.revision := p])
  }

  /** A write conditional on `expected` and on well-typed values; refused, it writes nothing. */
  predicate Accepts(s: Draft, body: Body, expected: Option<nat>) {
    WellTyped(Sent(body)) && (expected.Some? ==> expected.value == s.plan.revision)
  }

  /** The body a preset application sends: the whole proposal. */
  function PresetBody(read: Plan, preset: PresetSpec): Body {
    Echo(WithPreset(read, preset))
  }

  /** Whether a merge lands: the draft is still at the revision the job was submitted from. */
  predicate Lands(s: Draft, job: nat) {
    job in s.jobs && RequestOf(s.jobs[job].intent).Some? && s.jobs[job].intent.planRevision == s.plan.revision
  }

  function MergedPlan(s: Draft, job: nat, sample: Values, planner: string): Plan
    requires job in s.jobs
  {
    Merged(s.plan, PatchOf(Planned(s.jobs[job].intent, sample, planner), job).value)
  }

  predicate DraftNext(s: Draft, step: DraftStep, s': Draft) {
    match step
    case Write(body, expected) => s' == if Accepts(s, body, expected) then Saved(s, Written(s.plan, body)) else s
    case Replace(plan) => s' == Saved(s, plan.(revision := s.plan.revision + 1))
    case ReadPlan => s' == s.(seen := s.seen + {s.plan})
    case SavePreset(read, preset) =>
      && read in s.seen
      && s' == if Accepts(s, PresetBody(read, preset), Some(read.revision))
               then Saved(s, Written(s.plan, PresetBody(read, preset))) else s
    case Submit(job, override) =>
      && job !in s.jobs
      && var v := Validated(CreationInput(s.plan, Generate, override));
      && s' == if v.Ok? then s.(jobs := s.jobs[job := Submission(v.value, s.plan, override)]) else s
    case Land(job, sample, planner) =>
      && job in s.jobs
      && s' == if Lands(s, job) then Saved(s, MergedPlan(s, job, sample, planner)) else s
  }

  ghost predicate IsDraftRun(run: seq<Draft>, steps: seq<DraftStep>) {
    && |run| == |steps| + 1
    && run[0].history == map[run[0].plan.revision := run[0].plan] && run[0].seen == {} && run[0].jobs == map[]
    && forall n :: 0 <= n < |steps| ==> DraftNext(run[n], steps[n], run[n + 1])
  }

  // ---- revisions ----

  ghost predicate HistoryOk(s: Draft) {
    && s.plan.revision in s.history && s.history[s.plan.revision] == s.plan
    && (forall r :: r in s.history ==> r <= s.plan.revision && s.history[r].revision == r)
  }

  ghost predicate HoldersOk(s: Draft) {
    && (forall p :: p in s.seen ==> p.revision in s.history && s.history[p.revision] == p)
    && (forall j :: j in s.jobs ==> SubmissionOk(s.jobs[j], s.history))
  }

  ghost predicate SubmissionOk(e: Submission, history: map<nat, Plan>) {
    && e.source.revision in history && history[e.source.revision] == e.source
    && Validated(CreationInput(e.source, Generate, e.override)) == Ok(e.intent)
  }

  /** Every write raises the revision by exactly one, and no history is rewritten. */
  ghost predicate Grows(s: Draft, s': Draft) {
    && s.plan.revision <= s'.plan.revision
    && (forall r :: r in s.history ==> r in s'.history && s'.history[r] == s.history[r])
    && (forall j :: j in s.jobs ==> j in s'.jobs && s'.jobs[j] == s.jobs[j])
  }

  lemma StepRevision(s: Draft, step: DraftStep, s': Draft)
    requires DraftNext(s, step, s')
    ensures s'.plan == s.plan || s'.plan.revision == s.plan.revision + 1
    ensures s'.plan == s.plan ==> s'.history == s.history || s' == Saved(s, s.plan)
  {
    hide Validated, CreationInput, PatchOf, Planned, WithPreset, Accepts;
  }

  lemma SavedKeepsHistory(s: Draft, p: Plan)
    requires HistoryOk(s) && HoldersOk(s) && p.revision == s.plan.revision + 1
    ensures HistoryOk(Saved(s, p)) && HoldersOk(Saved(s, p)) && Grows(s, Saved(s, p))
  {
    hide Validated, CreationInput;
  }

  lemma ReadKeepsHistory(s: Draft)
    requires HistoryOk(s) && HoldersOk(s)
    ensures var s' := s.(seen := s.seen + {s.plan}); HistoryOk(s') && HoldersOk(s') && Grows(s, s')
  {
    hide Validated, CreationInput;
  }

  lemma SubmitKeepsHistory(s: Draft, job: nat, e: Submission)
    requires HistoryOk(s) && HoldersOk(s) && job !in s.jobs && e.source == s.plan
    requires Validated(CreationInput(s.plan, Generate, e.override)) == Ok(e.intent)
    ensures var s' := s.(jobs := s.jobs[job := e]); HistoryOk(s') && HoldersOk(s') && Grows(s, s')
  {
    hide Validated, CreationInput;
  }

  lemma NothingGrows(s: Draft)
    ensures Grows(s, s)
  {
  }

  lemma StepKeepsHistory(s: Draft, step: DraftStep, s': Draft)
    requires HistoryOk(s) && HoldersOk(s) && DraftNext(s, step, s')
    ensures HistoryOk(s') && HoldersOk(s') && Grows(s, s')
  {
    hide Validated, CreationInput, PatchOf, Planned, WithPreset, Accepts, Lands, Overlay, WrittenOrigins, Sent;
    hide HistoryOk, HoldersOk, Grows, PresetBody;
    NothingGrows(s);
    match step
    case Write(body, expected) =>
      if Accepts(s, body, expected) {
        SavedKeepsHistory(s, Written(s.plan, body));
      }
    case Replace(plan) => SavedKeepsHistory(s, plan.(revision := s.plan.revision + 1));
    case ReadPlan => ReadKeepsHistory(s);
    case SavePreset(read, preset) =>
      if Accepts(s, PresetBody(read, preset), Some(read.revision)) {
        SavedKeepsHistory(s, Written(s.plan, PresetBody(read, preset)));
      }
    case Submit(job, override) =>
      var v := Validated(CreationInput(s.plan, Generate, override));
      if v.Ok? {
        SubmitKeepsHistory(s, job, Submission(v.value, s.plan, override));
      }
    case Land(job, sample, planner) =>
      if Lands(s, job) {
        SavedKeepsHistory(s, MergedPlan(s, job, sample, planner));
      }
  }

  lemma {:induction false} RunKeepsHistory(run: seq<Draft>, steps: seq<DraftStep>, i: nat)
    requires IsDraftRun(run, steps) && i < |run|
    ensures HistoryOk(run[i]) && HoldersOk(run[i])
  {
    if i > 0 {
      RunKeepsHistory(run, steps, i - 1);
      hide HistoryOk, HoldersOk, DraftNext;
      StepKeepsHistory(run[i - 1], steps[i - 1], run[i]);
    }
  }

  lemma {:induction false} RunGrows(run: seq<Draft>, steps: seq<DraftStep>, i: nat, m: nat)
    requires IsDraftRun(run, steps) && i <= m < |run|
    ensures Grows(run[i], run[m])
    decreases m - i
  {
    if i < m {
      RunGrows(run, steps, i, m - 1);
      RunKeepsHistory(run, steps, m - 1);
      hide HistoryOk, HoldersOk, DraftNext;
      StepKeepsHistory(run[m - 1], steps[m - 1], run[m]);
    }
  }

  /** Equal revisions mean equal plans, anywhere in a run. */
  lemma EqualRevisionsEqualPlans(run: seq<Draft>, steps: seq<DraftStep>, i: nat, m: nat)
    requires IsDraftRun(run, steps) && i <= m < |run| && run[i].plan.revision == run[m].plan.revision
    ensures run[i].plan == run[m].plan
  {
    hide DraftNext;
    RunGrows(run, steps, i, m);
    RunKeepsHistory(run, steps, i);
    RunKeepsHistory(run, steps, m);
  }

  /** A merge lands only on the exact plan its job was submitted from, so no edit made since is
      lost to it. */
  lemma MergeLandsOnItsSource(run: seq<Draft>, steps: seq<DraftStep>, i: nat, job: nat)
    requires IsDraftRun(run, steps) && i < |run| && Lands(run[i], job)
    ensures run[i].plan == run[i].jobs[job].source
  {
    hide DraftNext, RequestOf, Canonical, NormalizedLines, Conflicts;
    RunKeepsHistory(run, steps, i);
    assert SubmissionOk(run[i].jobs[job], run[i].history);
  }

  /** Of the jobs submitted from one revision, at most one merges. */
  lemma OneMergePerRevision(run: seq<Draft>, steps: seq<DraftStep>, i: nat, m: nat, job: nat, job': nat,
                            sample: Values, planner: string)
    requires IsDraftRun(run, steps) && i < m < |run|
    requires steps[i] == Land(job, sample, planner) && Lands(run[i], job) && job' in run[i].jobs
    requires run[i].jobs[job'].intent.planRevision == run[i].jobs[job].intent.planRevision
    ensures !Lands(run[m], job')
  {
    assert DraftNext(run[i], steps[i], run[i + 1]);
    RunGrows(run, steps, i, m);
    RunGrows(run, steps, i + 1, m);
    hide DraftNext, RequestOf, PatchOf, Planned, Overlay;
  }
}
