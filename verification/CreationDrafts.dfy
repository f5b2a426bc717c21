/** Writes to the editable draft: client edits, presets and the merge of a planned render. */
module CreationDrafts {
  import opened Common
  import opened CreationTypes
  import opened CreationText
  import opened CreationBrief
  import opened CreationPlanner

  // ---- Python's equality ----

  function AsNumber(v: Value): Option<real> {
    match v
    case Whole(n) => Some(n as real)
    case Frac(x, _) => Some(x)
    case Flag(b) => Some(if b then 1.0 else 0.0)
    case _ => None
  }

  /** `a == b`: numbers compare across their types. */
  predicate PyEq(a: Value, b: Value) {
    if AsNumber(a).Some? || AsNumber(b).Some? then AsNumber(a) == AsNumber(b) else a == b
  }

  /** Texts are equal as texts, numbers by value whatever their type, null only to null. */
  lemma PyEqMeans(a: Value, b: Value)
    ensures a.Text? || b.Text? || a.Null? || b.Null? ==> (PyEq(a, b) <==> a == b)
    ensures a.Whole? && b.Whole? ==> (PyEq(a, b) <==> a.n == b.n)
    ensures a.Frac? && b.Frac? ==> (PyEq(a, b) <==> a.x == b.x)
    ensures a.Whole? && b.Frac? ==> (PyEq(a, b) <==> a.n as real == b.x) && (PyEq(b, a) <==> PyEq(a, b))
    ensures a.Flag? ==> (PyEq(a, b) <==> PyEq(Whole(if a.b then 1 else 0), b))
  {
  }

  // ---- a client's body ----

  /** The body of a plan write: what it sends of each key. */
  datatype Body = Body(
    query: Option<string>, values: PerField<Option<Value>>, instrumental: Option<bool>,
    captionRewrite: Option<bool>, mode: Option<Mode>, origins: PerField<Option<Origin>>,
    preset: Option<PresetRef>)

  const DEFAULT_VALUES: Values :=
    PerField(Text(""), Text(""), Text("en"), Null, Null, Text("4/4"), Whole(120))

  /** A missing key takes the default plan's value. */
  function Sent(body: Body): Values {
    PerField(
      body.values.caption.GetOr(DEFAULT_VALUES.caption), body.values.lyrics.GetOr(DEFAULT_VALUES.lyrics),
      body.values.vocalLanguage.GetOr(DEFAULT_VALUES.vocalLanguage), body.values.bpm.GetOr(DEFAULT_VALUES.bpm),
      body.values.keyscale.GetOr(DEFAULT_VALUES.keyscale),
      body.values.timesignature.GetOr(DEFAULT_VALUES.timesignature),
      body.values.durationSec.GetOr(DEFAULT_VALUES.durationSec))
  }

  /** The types `validate_plan` enforces on the tracked fields. */
  predicate WellTyped(v: Values) {
    && v.caption.Text? && v.lyrics.Text? && v.vocalLanguage.Text? && v.timesignature.Text?
    && (v.bpm.Null? || v.bpm.Whole?) && (v.keyscale.Null? || v.keyscale.Text?)
    && (v.durationSec.Null? || v.durationSec.Whole? || v.durationSec.Frac?)
  }

  /** The body that sends back a whole plan. */
  function Echo(p: Plan): Body {
    var v, o := p.values, p.origins;
    Body(Some(p.query),
         PerField(Some(v.caption), Some(v.lyrics), Some(v.vocalLanguage), Some(v.bpm), Some(v.keyscale),
                  Some(v.timesignature), Some(v.durationSec)),
         Some(p.instrumental), Some(p.captionRewrite), Some(p.mode),
         PerField(Some(o.caption), Some(o.lyrics), Some(o.vocalLanguage), Some(o.bpm), Some(o.keyscale),
                  Some(o.timesignature), Some(o.durationSec)),
         p.preset)
  }

  // ---- origins on write ----

  /** A claimed origin that differs counts; otherwise a changed value becomes the user's. */
  function WrittenOrigin(current: Plan, body: Body, f: Field): Origin {
    var before, claim, value := current.origins.Get(f), body.origins.Get(f), Sent(body).Get(f);
    if claim.Some? && claim.value != before then claim.value
    else if !PyEq(value, current.values.Get(f)) then (if IsUnset(f, value) then Default else User)
    else before
  }

  function WrittenOrigins(current: Plan, body: Body): Origins {
    PerField(WrittenOrigin(current, body, Caption), WrittenOrigin(current, body, Lyrics),
             WrittenOrigin(current, body, VocalLanguage), WrittenOrigin(current, body, Bpm),
             WrittenOrigin(current, body, Keyscale), WrittenOrigin(current, body, Timesignature),
             WrittenOrigin(current, body, DurationSec))
  }

  /** The plan a client write stores. */
  function Written(current: Plan, body: Body): Plan {
    var query := body.query.GetOr("");
    Plan(query, Sent(body), body.instrumental.GetOr(false), body.captionRewrite.GetOr(false),
         if body.mode.Some? && body.mode.value != current.mode then body.mode.value
         else if query != current.query then FromIdea else current.mode,
         WrittenOrigins(current, body), current.revision + 1, current.brief, body.preset)
  }

  /** What a write leaves of field `f`: the value sent, or else a new plan's; and as origin the one the
      body names, if it is not the one on disk, or else the user's or the default's if the value is
      another. */
  predicate FieldWritten(current: Plan, body: Body, f: Field, p': Plan) {
    var before, claim, value := current.origins.Get(f), body.origins.Get(f), p'.values.Get(f);
    && (body.values.Get(f).Some? ==> value == body.values.Get(f).value)
    && (body.values.Get(f).None? ==> value == match f
          case Caption | Lyrics => Text("")
          case VocalLanguage => Text("en")
          case Bpm | Keyscale => Null
          case Timesignature => Text("4/4")
          case DurationSec => Whole(120))
    && p'.origins.Get(f) ==
         if claim.Some? && claim.value != before then claim.value
         else if PyEq(value, current.values.Get(f)) then before
         else if IsUnset(f, value) then Default else User
  }

  /** And of the rest: the mode the body names, if it is not the one on disk, or else `from_idea` for
      another idea; the rest as sent, or else a new plan's; the brief as it was. */
  predicate RestWritten(current: Plan, body: Body, p': Plan) {
    && p'.query == (if body.query.Some? then body.query.value else "")
    && p'.instrumental == (body.instrumental.Some? && body.instrumental.value)
    && p'.captionRewrite == (body.captionRewrite.Some? && body.captionRewrite.value)
    && p'.preset == body.preset && p'.brief == current.brief && p'.revision == current.revision + 1
    && p'.mode ==
         if body.mode.Some? && body.mode.value != current.mode then body.mode.value
         else if p'.query == current.query then current.mode else FromIdea
  }

  lemma WrittenMeans(current: Plan, body: Body, f: Field)
    ensures FieldWritten(current, body, f, Written(current, body)) && RestWritten(current, body, Written(current, body))
  {
    assert Written(current, body).origins.Get(f) == WrittenOrigin(current, body, f) by {
      hide WrittenOrigin;
    }
    hide WrittenOrigins, IsUnset, PyEq;
  }

  /** The first `n` origins are written. */
  ghost predicate WrittenUpTo(current: Plan, body: Body, origins: Origins, n: nat) {
    forall m | 0 <= m < n && m < |TRACKED_FIELDS| ::
      origins.Get(TRACKED_FIELDS[m]) == WrittenOrigin(current, body, TRACKED_FIELDS[m])
  }

  lemma WritesOne(current: Plan, body: Body, origins: Origins, n: nat)
    requires n < |TRACKED_FIELDS| && WrittenUpTo(current, body, origins, n)
    ensures var f := TRACKED_FIELDS[n];
      WrittenUpTo(current, body, Put(origins, f, WrittenOrigin(current, body, f)), n + 1)
  {
    hide WrittenOrigin;
    forall m | 0 <= m < n
      ensures TRACKED_FIELDS[m] != TRACKED_FIELDS[n]
    {
      TrackedOnce(m, n);
    }
  }

  lemma WritesAll(current: Plan, body: Body, origins: Origins)
    requires WrittenUpTo(current, body, origins, |TRACKED_FIELDS|)
    ensures origins == WrittenOrigins(current, body)
  {
    hide WrittenOrigin;
    assert TRACKED_FIELDS[0] == Caption && TRACKED_FIELDS[1] == Lyrics && TRACKED_FIELDS[2] == VocalLanguage;
    assert TRACKED_FIELDS[3] == Bpm && TRACKED_FIELDS[4] == Keyscale && TRACKED_FIELDS[5] == Timesignature;
    assert TRACKED_FIELDS[6] == DurationSec;
  }

  /** `apply_write_semantics`, over the tracked fields in turn. */
  method ApplyWriteSemantics(current: Plan, body: Body) returns (plan: Plan)
    ensures plan == Written(current, body)
    ensures RestWritten(current, body, plan) && forall f: Field :: FieldWritten(current, body, f, plan)
  {
    forall f: Field {
      WrittenMeans(current, body, f);
    }
    WrittenMeans(current, body, Caption);
    hide WrittenUpTo, IsUnset, PyEq, FieldWritten, RestWritten;
    var sent := Sent(body);
    var origins := current.origins;
    assert WrittenUpTo(current, body, origins, 0) by {
      NothingWritten(current, body, origins);
    }
    for n := 0 to |TRACKED_FIELDS|
      invariant WrittenUpTo(current, body, origins, n)
    {
      var f := TRACKED_FIELDS[n];
      var before, claim := current.origins.Get(f), body.origins.Get(f);
      var origin := before;
      if claim.Some? && claim.value != before {
        origin := claim.value;
      } else if !PyEq(sent.Get(f), current.values.Get(f)) {
        origin := if IsUnset(f, sent.Get(f)) then Default else User;
      }
      WritesOne(current, body, origins, n);
      origins := Put(origins, f, origin);
    }
    WritesAll(current, body, origins);
    var query := body.query.GetOr("");
    var mode := current.mode;
    if body.mode.Some? && body.mode.value != current.mode {
      mode := body.mode.value;
    } else if query != current.query {
      mode := FromIdea;
    }
    plan := Plan(query, sent, body.instrumental.GetOr(false), body.captionRewrite.GetOr(false), mode, origins,
                 current.revision + 1, current.brief, body.preset);
  }

  lemma NothingWritten(current: Plan, body: Body, origins: Origins)
    ensures WrittenUpTo(current, body, origins, 0)
  {
  }

  /** Writing back the plan one has read changes nothing but the revision. */
  lemma EchoChangesOnlyRevision(p: Plan)
    ensures Written(p, Echo(p)) == p.(revision := p.revision + 1)
  {
    forall f: Field
      ensures Sent(Echo(p)).Get(f) == p.values.Get(f) && Echo(p).origins.Get(f) == Some(p.origins.Get(f))
    {
    }
    hide Echo, IsUnset;
  }

  // ---- presets ----

  /** A preset: a caption, a recommendation, and values for some of `PRESET_FIELDS`. */
  datatype PresetSpec = PresetSpec(
    id: string, version: nat, caption: string, instrumental: bool, fields: map<Field, Value>)

  const PRESET_FIELDS: seq<Field> := [Bpm, Keyscale, Timesignature, DurationSec]

  /** The value a preset would give field `f`. */
  function PresetValue(preset: PresetSpec, f: Field): Option<Value> {
    if f == Caption then Some(Text(preset.caption))
    else if f in PRESET_FIELDS && f in preset.fields then Some(preset.fields[f])
    else None
  }

  /** A field that the user has set keeps its value. */
  predicate KeptFromPreset(p: Plan, f: Field) {
    p.origins.Get(f) == User
    && if f == Caption then !IsBlank(OrEmpty(p.values.caption)) else !IsUnset(f, p.values.Get(f))
  }

  predicate PresetChanges(p: Plan, preset: PresetSpec, f: Field) {
    PresetValue(preset, f).Some? && !KeptFromPreset(p, f)
    && !PyEq(p.values.Get(f), PresetValue(preset, f).value)
  }

  function PresetField(p: Plan, preset: PresetSpec, f: Field): (Value, Origin) {
    if PresetChanges(p, preset, f) then (PresetValue(preset, f).value, Preset)
    else (p.values.Get(f), p.origins.Get(f))
  }

  predicate HasOwnLyrics(p: Plan) {
    !IsBlank(OrEmpty(p.values.lyrics)) && !IsPlaceholder(OrEmpty(p.values.lyrics))
  }

  /** What `apply_preset` proposes. */
  function WithPreset(p: Plan, preset: PresetSpec): Plan {
    p.(values := PerField(PresetField(p, preset, Caption).0, p.values.lyrics, p.values.vocalLanguage,
                          PresetField(p, preset, Bpm).0, PresetField(p, preset, Keyscale).0,
                          PresetField(p, preset, Timesignature).0, PresetField(p, preset, DurationSec).0),
       origins := PerField(PresetField(p, preset, Caption).1, p.origins.lyrics, p.origins.vocalLanguage,
                           PresetField(p, preset, Bpm).1, PresetField(p, preset, Keyscale).1,
                           PresetField(p, preset, Timesignature).1, PresetField(p, preset, DurationSec).1),
       instrumental := if preset.instrumental && HasOwnLyrics(p) then p.instrumental else preset.instrumental,
       preset := Some(PresetRef(preset.id, preset.version)))
  }

  /** Field `f` of the proposal, given the preset's value for it, if it has one: a value the user has
      set stands, and so does an equal one; any other gives way. */
  predicate FieldProposed(p: Plan, f: Field, kept: bool, value: Option<Value>, p': Plan) {
    if value.Some? && !kept && !PyEq(p.values.Get(f), value.value)
    then p'.values.Get(f) == value.value && p'.origins.Get(f) == Preset
    else p'.values.Get(f) == p.values.Get(f) && p'.origins.Get(f) == p.origins.Get(f)
  }

  predicate HasPresetField(f: Field) {
    f == Bpm || f == Keyscale || f == Timesignature || f == DurationSec
  }

  /** The proposal: caption and metas as the preset has them, words and language untouched, and its
      Instrumental, unless that would silence lyrics that are words. */
  ghost predicate ProposedBy(p: Plan, preset: PresetSpec, p': Plan) {
    && FieldProposed(p, Caption, p.origins.caption == User && !IsBlank(OrEmpty(p.values.caption)),
                     Some(Text(preset.caption)), p')
    && (forall f: Field | HasPresetField(f) ::
          FieldProposed(p, f, p.origins.Get(f) == User && !IsUnset(f, p.values.Get(f)),
                        if f in preset.fields then Some(preset.fields[f]) else None, p'))
    && p'.values.lyrics == p.values.lyrics && p'.origins.lyrics == p.origins.lyrics
    && p'.values.vocalLanguage == p.values.vocalLanguage && p'.origins.vocalLanguage == p.origins.vocalLanguage
    && p'.instrumental == (preset.instrumental
         && (p.instrumental || IsBlank(OrEmpty(p.values.lyrics))
             || Lower(Strip(OrEmpty(p.values.lyrics))) == "[instrumental]"))
    && p'.query == p.query && p'.captionRewrite == p.captionRewrite && p'.mode == p.mode
    && p'.revision == p.revision && p'.brief == p.brief && p'.preset == Some(PresetRef(preset.id, preset.version))
  }

  lemma ProposalOf(p: Plan, preset: PresetSpec, f: Field)
    requires HasPresetField(f)
    ensures var p' := WithPreset(p, preset);
      FieldProposed(p, f, p.origins.Get(f) == User && !IsUnset(f, p.values.Get(f)),
                    if f in preset.fields then Some(preset.fields[f]) else None, p')
  {
    assert PRESET_FIELDS[0] == Bpm && PRESET_FIELDS[1] == Keyscale;
    assert PRESET_FIELDS[2] == Timesignature && PRESET_FIELDS[3] == DurationSec;
    hide IsUnset, IsBlank, PyEq, HasOwnLyrics;
  }

  lemma ProposalMeans(p: Plan, preset: PresetSpec)
    ensures ProposedBy(p, preset, WithPreset(p, preset))
  {
    PlaceholderInLower();
    forall f: Field | HasPresetField(f) {
      ProposalOf(p, preset, f);
    }
    hide IsUnset, IsBlank, PyEq, Lower, Strip, OrEmpty;
  }

  /** `apply_preset`: a copy of the plan, changed field by field. */
  method ApplyPreset(p: Plan, preset: PresetSpec) returns (proposed: Plan)
    ensures proposed == WithPreset(p, preset)
    ensures ProposedBy(p, preset, proposed)
  {
    ProposalMeans(p, preset);
    hide ProposedBy, PresetUpTo, PresetField, KeptFromPreset, PyEq, HasOwnLyrics;
    proposed := p;
    if !KeptFromPreset(p, Caption) && !PyEq(p.values.caption, Text(preset.caption)) {
      proposed := proposed.(values := Put(proposed.values, Caption, Text(preset.caption)),
                            origins := Put(proposed.origins, Caption, Preset));
    }
    PresetsCaption(p, preset);
    for n := 0 to |PRESET_FIELDS|
      invariant proposed == p.(values := proposed.values, origins := proposed.origins)
      invariant PresetUpTo(p, preset, proposed, n)
    {
      var f := PRESET_FIELDS[n];
      PresetsOne(p, preset, proposed, n);
      if f in preset.fields && !KeptFromPreset(p, f) && !PyEq(proposed.values.Get(f), preset.fields[f]) {
        proposed := proposed.(values := Put(proposed.values, f, preset.fields[f]),
                              origins := Put(proposed.origins, f, Preset));
      }
    }
    PresetsAll(p, preset, proposed);
    if !(preset.instrumental && HasOwnLyrics(p)) {
      proposed := proposed.(instrumental := preset.instrumental);
    }
    proposed := proposed.(preset := Some(PresetRef(preset.id, preset.version)));
  }

  lemma PresetsCaption(p: Plan, preset: PresetSpec)
    ensures PresetUpTo(p, preset,
      if !KeptFromPreset(p, Caption) && !PyEq(p.values.caption, Text(preset.caption))
      then p.(values := Put(p.values, Caption, Text(preset.caption)), origins := Put(p.origins, Caption, Preset)) else p, 0)
  {
    hide KeptFromPreset, PyEq;
  }

  lemma PresetsOne(p: Plan, preset: PresetSpec, proposed: Plan, n: nat)
    requires n < |PRESET_FIELDS| && PresetUpTo(p, preset, proposed, n)
    ensures var f := PRESET_FIELDS[n];
      PresetUpTo(p, preset,
        if f in preset.fields && !KeptFromPreset(p, f) && !PyEq(proposed.values.Get(f), preset.fields[f])
        then proposed.(values := Put(proposed.values, f, preset.fields[f]), origins := Put(proposed.origins, f, Preset))
        else proposed, n + 1)
  {
    assert PRESET_FIELDS[0] == Bpm && PRESET_FIELDS[1] == Keyscale;
    assert PRESET_FIELDS[2] == Timesignature && PRESET_FIELDS[3] == DurationSec;
    hide KeptFromPreset, PyEq;
  }

  lemma PresetsAll(p: Plan, preset: PresetSpec, proposed: Plan)
    requires PresetUpTo(p, preset, proposed, |PRESET_FIELDS|)
    ensures proposed.values == WithPreset(p, preset).values && proposed.origins == WithPreset(p, preset).origins
  {
    hide PresetField, HasOwnLyrics;
  }

  /** The caption and the first `n` preset fields are done. */
  predicate PresetUpTo(p: Plan, preset: PresetSpec, proposed: Plan, n: nat) {
    && (proposed.values.caption, proposed.origins.caption) == PresetField(p, preset, Caption)
    && (proposed.values.lyrics, proposed.origins.lyrics) == (p.values.lyrics, p.origins.lyrics)
    && (proposed.values.vocalLanguage, proposed.origins.vocalLanguage) == (p.values.vocalLanguage, p.origins.vocalLanguage)
    && (proposed.values.bpm, proposed.origins.bpm)
       == (if n > 0 then PresetField(p, preset, Bpm) else (p.values.bpm, p.origins.bpm))
    && (proposed.values.keyscale, proposed.origins.keyscale)
       == (if n > 1 then PresetField(p, preset, Keyscale) else (p.values.keyscale, p.origins.keyscale))
    && (proposed.values.timesignature, proposed.origins.timesignature)
       == (if n > 2 then PresetField(p, preset, Timesignature) else (p.values.timesignature, p.origins.timesignature))
    && (proposed.values.durationSec, proposed.origins.durationSec)
       == (if n > 3 then PresetField(p, preset, DurationSec) else (p.values.durationSec, p.origins.durationSec))
  }

  /** Applying a preset twice is applying it once. */
  lemma PresetIsIdempotent(p: Plan, preset: PresetSpec)
    ensures WithPreset(WithPreset(p, preset), preset) == WithPreset(p, preset)
  {
    forall f: Field
      ensures PresetField(WithPreset(p, preset), preset, f) == PresetField(p, preset, f)
    {
      PresetFieldStays(p, preset, f);
    }
    hide PresetField, IsBlank, IsPlaceholder;
  }

  lemma PresetFieldStays(p: Plan, preset: PresetSpec, f: Field)
    ensures PresetField(WithPreset(p, preset), preset, f) == PresetField(p, preset, f)
  {
    hide IsBlank, IsUnset;
    var p' := WithPreset(p, preset);
    assert f != Lyrics && f != VocalLanguage ==>
      (p'.values.Get(f), p'.origins.Get(f)) == PresetField(p, preset, f);
  }
}
