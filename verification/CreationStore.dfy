/** The plan file of a project: every change is a read-modify-write under the project's lock. */
module CreationStore {
  import opened Common
  import opened CreationTypes
  import opened CreationPlanner
  import opened CreationDrafts

  datatype PlanError = ProjectNotFound | RevisionConflict | InvalidField

  class PlanFile {
    /** The project's `project.json` is there. */
    var present: bool
    var plan: Plan

    constructor (initial: Plan)
      ensures present && plan == initial
    {
      present, plan := true, initial;
    }

    /** `save_plan`: conditional on the revision, then on the body's types; refused, it writes
        nothing. */
    method SavePlan(body: Body, expected: Option<nat>) returns (r: Result<Plan, PlanError>)
      modifies this`plan
      ensures r == if !present then Err(ProjectNotFound)
                   else if expected.Some? && expected.value != old(plan).revision then Err(RevisionConflict)
                   else if !WellTyped(Sent(body)) then Err(InvalidField)
                   else Ok(Written(old(plan), body))
      ensures r == Err(InvalidField) <==>
        && present && (expected.Some? ==> expected.value == old(plan).revision)
        && var v := Sent(body);
        !(v.caption.Text? && v.lyrics.Text? && v.vocalLanguage.Text? && v.timesignature.Text?
          && (v.bpm.Null? || v.bpm.Whole?) && (v.keyscale.Null? || v.keyscale.Text?)
          && (v.durationSec.Null? || v.durationSec.Whole? || v.durationSec.Frac?))
      ensures plan == if r.Ok? then r.value else old(plan)
      ensures r.Ok? ==> plan.revision == old(plan).revision + 1
    {
      if !present {
        return Err(ProjectNotFound);
      }
      if expected.Some? && expected.value != plan.revision {
        return Err(RevisionConflict);
      }
      if !WellTyped(Sent(body)) {
        return Err(InvalidField);
      }
      plan := ApplyWriteSemantics(plan, body);
      return Ok(plan);
    }

    /** `merge_plan_patch`: a draft that moved on since `expected` is left alone. */
    method MergePlanPatch(patch: Patch, expected: Option<nat>) returns (r: Result<Option<Plan>, PlanError>)
      modifies this`plan
      ensures !present ==> r == Err(ProjectNotFound)
      ensures present ==>
        r == Ok(if expected.Some? && expected.value != old(plan).revision then None else Some(Merged(old(plan), patch)))
      ensures plan == if r.Ok? && r.value.Some? then r.value.value else old(plan)
    {
      if !present {
        return Err(ProjectNotFound);
      }
      var skipped := expected.Some? && expected.value != plan.revision;
      if skipped {
        return Ok(None);
      }
      plan := Merged(plan, patch);
      return Ok(Some(plan));
    }

    /** `replace_plan`: no validation, but the revision still advances. */
    method ReplacePlan(snapshot: Plan) returns (r: Result<Plan, PlanError>)
      modifies this`plan
      ensures r == if present then Ok(snapshot.(revision := old(plan).revision + 1)) else Err(ProjectNotFound)
      ensures plan == if present then r.value else old(plan)
    {
      if !present {
        return Err(ProjectNotFound);
      }
      plan := snapshot.(revision := plan.revision + 1);
      return Ok(plan);
    }

    /** `preset_on_project`: `read` is the plan its unlocked load returned, if the project was there;
        the draft may have moved on since. A preview writes nothing, and an application is an ordinary
        write of the whole proposal over what the draft is by then. */
    method PresetOnProject(read: Option<Plan>, preset: PresetSpec, apply: bool, expected: Option<nat>)
      returns (r: Result<Plan, PlanError>)
      modifies this`plan
      ensures read.None? || (apply && !present) ==> r == Err(ProjectNotFound)
      ensures read.Some? && !apply ==> r == Ok(WithPreset(read.value, preset))
      ensures !apply || r.Err? ==> plan == old(plan)
      ensures read.Some? && apply && present ==>
        r == if expected.Some? && expected.value != old(plan).revision then Err(RevisionConflict)
             else if !WellTyped(WithPreset(read.value, preset).values) then Err(InvalidField)
             else Ok(plan)
      ensures apply && r.Ok? ==>
        plan == Written(old(plan), Echo(WithPreset(read.value, preset))) && plan.revision == old(plan).revision + 1
    {
      if read.None? {
        return Err(ProjectNotFound);
      }
      var proposed := ApplyPreset(read.value, preset);
      if !apply {
        return Ok(proposed);
      }
      r := SavePlan(Echo(proposed), expected);
    }
  }
}
