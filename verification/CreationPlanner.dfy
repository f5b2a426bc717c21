/** Planning: what the planner is asked, how its answer is merged by precedence, what is rendered,
    and what goes back into the draft. */
module CreationPlanner {
  import opened Common
  import opened CreationTypes
  import opened CreationText
  import opened CreationBrief

  // ---- the request ----

  /** `_user_text`: the caption or lyrics that planning must keep. */
  function UserText(i: Intent, f: Field): string {
    var text := OrEmpty(i.values.Get(f));
    if i.origins.Get(f) == Planner || i.origins.Get(f) == Default then ""
    else if f == Lyrics && IsPlaceholder(text) then ""
    else if IsBlank(text) then "" else text
  }

  predicate IsKept(o: Origin) {
    o == User || o == Preset
  }

  /** A meta that a user or a preset chose. */
  predicate IsExplicit(i: Intent, f: Field) {
    f != Caption && f != Lyrics && IsKept(i.origins.Get(f)) && !IsUnset(f, i.values.Get(f))
  }

  /** `planner_request`; `None` means no planning. */
  function RequestOf(i: Intent): Option<PlannerRequest> {
    if i.action != Generate || i.mode != FromIdea then None
    else
      var lyrics := UserText(i, Lyrics);
      if lyrics != "" then
        var caption := UserText(i, Caption);
        Some(FormatSample(if caption != "" then caption else i.query, lyrics,
                          map f: Field | IsExplicit(i, f) :: i.values.Get(f)))
      else
        Some(CreateSample(i.query, i.instrumental,
                          if IsUnset(VocalLanguage, i.values.vocalLanguage) then None
                          else Some(i.values.vocalLanguage)))
  }

  // ---- the merge by precedence ----

  /** The planner may not touch the field. */
  predicate Locked(i: Intent, f: Field) {
    if f == Caption || f == Lyrics then UserText(i, f) != "" else IsExplicit(i, f)
  }

  /** One field of the resolved brief, and its origin. */
  function PlannedField(i: Intent, sample: Values, f: Field): (Value, Origin) {
    if Locked(i, f) then (i.values.Get(f), i.origins.Get(f))
    else if f == Lyrics && i.instrumental then (Text(INSTRUMENTAL_LYRICS), Default)
    else if !IsUnset(f, sample.Get(f)) then (sample.Get(f), Planner)
    else (i.values.Get(f), i.origins.Get(f))
  }

  function PlannedValues(i: Intent, sample: Values): Values {
    PerField(PlannedField(i, sample, Caption).0, PlannedField(i, sample, Lyrics).0,
             PlannedField(i, sample, VocalLanguage).0, PlannedField(i, sample, Bpm).0,
             PlannedField(i, sample, Keyscale).0, PlannedField(i, sample, Timesignature).0,
             PlannedField(i, sample, DurationSec).0)
  }

  function PlannedOrigins(i: Intent, sample: Values): Origins {
    PerField(PlannedField(i, sample, Caption).1, PlannedField(i, sample, Lyrics).1,
             PlannedField(i, sample, VocalLanguage).1, PlannedField(i, sample, Bpm).1,
             PlannedField(i, sample, Keyscale).1, PlannedField(i, sample, Timesignature).1,
             PlannedField(i, sample, DurationSec).1)
  }

  /** `_brief_record`. */
  function BriefRecord(i: Intent, values: Values, origins: Origins, planner: Option<string>): Brief {
    var lyrics :=
      if i.instrumental && IsBlank(OrEmpty(values.lyrics)) then Text(INSTRUMENTAL_LYRICS) else values.lyrics;
    Brief(i.mode, i.query, values.(lyrics := lyrics), i.instrumental, i.captionRewrite, origins, planner,
          i.preset, i.lyricsOriginal)
  }

  /** `brief_without_planning`. */
  function Unplanned(i: Intent): Brief {
    BriefRecord(i, i.values, i.origins, None)
  }

  function Planned(i: Intent, sample: Values, planner: string): (b: Brief)
    ensures b.planner == Some(planner)
  {
    BriefRecord(i, PlannedValues(i, sample), PlannedOrigins(i, sample), Some(planner))
  }

  /** The first `n` tracked fields are merged, the others still the intent's. */
  ghost predicate PlannedUpTo(i: Intent, sample: Values, values: Values, origins: Origins, n: nat) {
    forall m | 0 <= m < |TRACKED_FIELDS| ::
      (values.Get(TRACKED_FIELDS[m]), origins.Get(TRACKED_FIELDS[m]))
      == if m < n then PlannedField(i, sample, TRACKED_FIELDS[m])
         else (i.values.Get(TRACKED_FIELDS[m]), i.origins.Get(TRACKED_FIELDS[m]))
  }

  lemma PlansOne(i: Intent, sample: Values, values: Values, origins: Origins, n: nat, value: Value, origin: Origin)
    requires n < |TRACKED_FIELDS| && PlannedUpTo(i, sample, values, origins, n)
    requires (value, origin) == PlannedField(i, sample, TRACKED_FIELDS[n])
    ensures PlannedUpTo(i, sample, Put(values, TRACKED_FIELDS[n], value), Put(origins, TRACKED_FIELDS[n], origin), n + 1)
  {
    hide PlannedField;
    var f := TRACKED_FIELDS[n];
    forall m | 0 <= m < |TRACKED_FIELDS|
      ensures m != n ==> TRACKED_FIELDS[m] != f
    {
      if m != n {
        TrackedOnce(m, n);
      }
    }
  }

  lemma TrackedOnce(m: nat, n: nat)
    requires m < |TRACKED_FIELDS| && n < |TRACKED_FIELDS| && m != n
    ensures TRACKED_FIELDS[m] != TRACKED_FIELDS[n]
  {
    assert TRACKED_FIELDS[0] == Caption && TRACKED_FIELDS[1] == Lyrics && TRACKED_FIELDS[2] == VocalLanguage;
    assert TRACKED_FIELDS[3] == Bpm && TRACKED_FIELDS[4] == Keyscale && TRACKED_FIELDS[5] == Timesignature;
  }

  predicate IsMeta(f: Field) {
    f != Caption && f != Lyrics
  }

  /** Precedence, by origin and value. A meta that a user or a preset has set stands; any other takes
      what the planner says, if it says something. */
  predicate MetaByPrecedence(i: Intent, sample: Values, b: Brief, f: Field) {
    var value, origin := i.values.Get(f), i.origins.Get(f);
    if (origin == User || origin == Preset) && !IsUnset(f, value) then
      b.values.Get(f) == value && b.origins.Get(f) == origin
    else if !IsUnset(f, sample.Get(f)) then
      b.values.Get(f) == sample.Get(f) && b.origins.Get(f) == Planner
    else
      b.values.Get(f) == value && b.origins.Get(f) == origin
  }

  /** Words that neither a planner nor a default put there stand; the placeholder is not words, and an
      instrumental has it for lyrics; any others take what the planner says, if it says something. */
  predicate WordsByPrecedence(i: Intent, sample: Values, b: Brief, f: Field) {
    var value, origin := i.values.Get(f), i.origins.Get(f);
    if (origin == User || origin == Preset || origin == Unknown) && !IsBlank(OrEmpty(value))
       && !(f == Lyrics && Lower(Strip(OrEmpty(value))) == "[instrumental]")
    then
      b.values.Get(f) == value && b.origins.Get(f) == origin
    else if f == Lyrics && i.instrumental then
      b.values.Get(f) == Text("[Instrumental]") && b.origins.Get(f) == Default
    else if !IsUnset(f, sample.Get(f)) then
      b.values.Get(f) == sample.Get(f) && b.origins.Get(f) == Planner
    else
      b.values.Get(f) == value && b.origins.Get(f) == origin
  }

  lemma PlaceholderIsNotBlank()
    ensures !IsBlank(INSTRUMENTAL_LYRICS)
  {
    BlankMeansAllSpace(INSTRUMENTAL_LYRICS);
    assert INSTRUMENTAL_LYRICS[0] == '[';
  }

  lemma PlannedMeta(i: Intent, sample: Values, planner: string, f: Field)
    requires IsMeta(f)
    ensures MetaByPrecedence(i, sample, Planned(i, sample, planner), f)
  {
    hide IsUnset, IsBlank, IsPlaceholder, UserText;
  }

  lemma PlannedWords(i: Intent, sample: Values, planner: string, f: Field)
    requires !IsMeta(f)
    ensures WordsByPrecedence(i, sample, Planned(i, sample, planner), f)
  {
    PlaceholderInLower();
    PlaceholderIsNotBlank();
    BlankMeansAllSpace("");
    hide IsUnset, IsBlank, Lower, Strip;
  }

  /** `apply_planner`, over the tracked fields in turn. */
  method ApplyPlanner(i: Intent, sample: Values, planner: string) returns (brief: Brief)
    ensures brief == Planned(i, sample, planner)
    ensures forall f: Field | IsMeta(f) :: MetaByPrecedence(i, sample, brief, f)
    ensures WordsByPrecedence(i, sample, brief, Caption) && WordsByPrecedence(i, sample, brief, Lyrics)
    ensures brief.mode == i.mode && brief.query == i.query && brief.planner == Some(planner) && brief.preset == i.preset
    ensures brief.instrumental == i.instrumental && brief.captionRewrite == i.captionRewrite
    ensures brief.lyricsOriginal == i.lyricsOriginal
  {
    forall f: Field | IsMeta(f) {
      PlannedMeta(i, sample, planner, f);
    }
    PlannedWords(i, sample, planner, Caption);
    PlannedWords(i, sample, planner, Lyrics);
    hide MetaByPrecedence, WordsByPrecedence;
    hide UserText, IsExplicit, IsUnset, PlannedUpTo;
    var values, origins := i.values, i.origins;
    PlannedNone(i, sample);
    for n := 0 to |TRACKED_FIELDS|
      invariant PlannedUpTo(i, sample, values, origins, n)
    {
      var f := TRACKED_FIELDS[n];
      var value, origin := i.values.Get(f), i.origins.Get(f);
      if (f == Caption || f == Lyrics) && UserText(i, f) != "" {
      } else if f == Lyrics && i.instrumental {
        value, origin := Text(INSTRUMENTAL_LYRICS), Default;
      } else if f != Caption && f != Lyrics && IsExplicit(i, f) {
      } else if !IsUnset(f, sample.Get(f)) {
        value, origin := sample.Get(f), Planner;
      }
      PlansOne(i, sample, values, origins, n, value, origin);
      values, origins := Put(values, f, value), Put(origins, f, origin);
    }
    AllFields(i, sample, values, origins);
    brief := BriefRecord(i, values, origins, Some(planner));
  }

  lemma PlannedNone(i: Intent, sample: Values)
    ensures PlannedUpTo(i, sample, i.values, i.origins, 0)
  {
  }

  lemma AllFields(i: Intent, sample: Values, values: Values, origins: Origins)
    requires PlannedUpTo(i, sample, values, origins, |TRACKED_FIELDS|)
    ensures values == PlannedValues(i, sample) && origins == PlannedOrigins(i, sample)
  {
    hide PlannedField;
    assert TRACKED_FIELDS[0] == Caption && TRACKED_FIELDS[1] == Lyrics && TRACKED_FIELDS[2] == VocalLanguage;
    assert TRACKED_FIELDS[3] == Bpm && TRACKED_FIELDS[4] == Keyscale && TRACKED_FIELDS[5] == Timesignature;
    assert TRACKED_FIELDS[6] == DurationSec;
  }

  // ---- rendering ----

  /** `render_flags` of a generate. */
  function FlagsOf(b: Brief): RenderFlags {
    var planned := b.planner.Some? || b.origins.caption == Planner || b.origins.lyrics == Planner;
    var captionEmpty := IsBlank(OrEmpty(b.values.caption));
    RenderFlags(
      b.mode == FromIdea || planned || b.captionRewrite,
      captionEmpty || (b.captionRewrite && b.origins.caption != Planner),
      IsUnset(VocalLanguage, b.values.vocalLanguage) && !b.instrumental,
      IsUnset(Bpm, b.values.bpm) || IsUnset(Keyscale, b.values.keyscale)
      || IsUnset(Timesignature, b.values.timesignature) || IsUnset(DurationSec, b.values.durationSec))
  }

  /** The creative part of `generation_fields`. */
  function CreativeOf(b: Brief): Creative {
    Creative(
      OrEmpty(b.values.caption), OrEmpty(b.values.lyrics),
      if IsUnset(Bpm, b.values.bpm) then Null else b.values.bpm,
      if IsUnset(Keyscale, b.values.keyscale) then Text("") else b.values.keyscale,
      if IsUnset(DurationSec, b.values.durationSec) then Null else b.values.durationSec,
      b.instrumental,
      if IsUnset(VocalLanguage, b.values.vocalLanguage) then Text("unknown") else b.values.vocalLanguage,
      if IsUnset(Timesignature, b.values.timesignature) then Text("")
      else Text(Show(b.values.timesignature)))
  }

  // ---- back into the draft ----

  function ContentOf(b: Brief): Content {
    Content(b.values, b.instrumental, b.captionRewrite, b.origins, b.mode, b.planner.Some?)
  }

  /** The fields a planned brief gives the draft: those the planner filled, and the instrumental
      placeholder. */
  predicate Filled(b: Brief, f: Field) {
    b.origins.Get(f) == Planner
    || (f == Lyrics && b.instrumental && b.origins.lyrics == Default && IsPlaceholder(OrEmpty(b.values.lyrics)))
  }

  /** `plan_patch_from_brief`. */
  function PatchOf(b: Brief, job: nat): Option<Patch> {
    match b.planner
    case None => None
    case Some(planner) =>
      Some(Patch(map f: Field | Filled(b, f) :: b.values.Get(f), map f: Field | Filled(b, f) :: b.origins.Get(f),
                 PlanBrief(b.query, planner, ContentOf(b), job)))
  }

  function Overlay<T>(base: PerField<T>, patch: map<Field, T>): PerField<T> {
    PerField(
      if Caption in patch then patch[Caption] else base.caption,
      if Lyrics in patch then patch[Lyrics] else base.lyrics,
      if VocalLanguage in patch then patch[VocalLanguage] else base.vocalLanguage,
      if Bpm in patch then patch[Bpm] else base.bpm,
      if Keyscale in patch then patch[Keyscale] else base.keyscale,
      if Timesignature in patch then patch[Timesignature] else base.timesignature,
      if DurationSec in patch then patch[DurationSec] else base.durationSec)
  }

  lemma OverlayGets<T>(base: PerField<T>, patch: map<Field, T>, f: Field)
    ensures Overlay(base, patch).Get(f) == if f in patch then patch[f] else base.Get(f)
  {
  }

  /** What `merge_plan_patch` writes. */
  function Merged(plan: Plan, patch: Patch): Plan {
    plan.(values := Overlay(plan.values, patch.values), origins := Overlay(plan.origins, patch.origins),
          mode := FromBrief, brief := Some(patch.brief), revision := plan.revision + 1)
  }

  // ---- precedence ----

  /** A lyrics text that planning keeps is what `format_sample` is given, and every meta it is
      constrained by is what is rendered, under its own origin. */
  lemma PlannerIsToldTheTruth(i: Intent, sample: Values, planner: string)
    requires RequestOf(i).Some? && RequestOf(i).value.FormatSample?
    ensures var q, b := RequestOf(i).value, Planned(i, sample, planner);
      && OrEmpty(b.values.lyrics) == q.lyrics && b.origins.lyrics == i.origins.lyrics
      && forall f | f in q.metadata :: b.values.Get(f) == q.metadata[f] && b.origins.Get(f) == i.origins.Get(f)
  {
    hide IsBlank, IsPlaceholder, NormalizedLines, Canonical;
  }
}
