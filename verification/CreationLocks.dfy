/** A field that the user has set keeps its value and its origin until a client write changes
    either: under presets, planned renders and merges, in any order. */
module CreationLocks {
  import opened Common
  import opened CreationTypes
  import opened CreationText
  import opened CreationBrief
  import opened CreationPlanner
  import opened CreationDrafts
  import opened CreationRuns

  /** The user has set the field: the instrumental placeholder is not words of theirs. Words and a
      language are texts, as every plan write requires. */
  predicate IsLocked(p: Plan, f: Field) {
    var v := p.values.Get(f);
    && p.origins.Get(f) == User
    && match f
       case Caption => v.Text? && !IsBlank(v.text)
       case Lyrics => v.Text? && !IsBlank(v.text) && !IsPlaceholder(v.text)
       case VocalLanguage => v.Text? && !IsUnset(f, v)
       case _ => !IsUnset(f, v)
  }

  /** The field has the value and the origin it had. */
  predicate KeepsField(p: Plan, p': Plan, f: Field) {
    p'.origins.Get(f) == p.origins.Get(f) && PyEq(p'.values.Get(f), p.values.Get(f))
  }

  /** A client write that sets the field, to another value or another origin. */
  predicate Touches(p: Plan, body: Body, f: Field) {
    || !PyEq(Sent(body).Get(f), p.values.Get(f))
    || (body.origins.Get(f).Some? && body.origins.Get(f).value != p.origins.Get(f))
  }

  lemma PyEqIsEquivalence(a: Value, b: Value, c: Value)
    ensures PyEq(a, a) && (PyEq(a, b) ==> PyEq(b, a)) && (PyEq(a, b) && PyEq(b, c) ==> PyEq(a, c))
  {
  }

  /** A lock depends only on what `KeepsField` keeps. */
  lemma KeptStaysLocked(p: Plan, p': Plan, f: Field)
    requires IsLocked(p, f) && KeepsField(p, p', f)
    ensures IsLocked(p', f)
  {
    hide IsBlank, IsPlaceholder;
  }

  // ---- client writes ----

  lemma WrittenFields(current: Plan, body: Body, f: Field)
    ensures Written(current, body).values.Get(f) == Sent(body).Get(f)
    ensures Written(current, body).origins.Get(f) == WrittenOrigin(current, body, f)
  {
    hide WrittenOrigin;
  }

  /** A client write keeps a field if and only if it does not touch it. */
  lemma WriteKeepsUntouched(p: Plan, body: Body, f: Field)
    ensures KeepsField(p, Written(p, body), f) <==> !Touches(p, body, f)
  {
    WrittenFields(p, body, f);
    hide Written, IsUnset, Sent;
  }

  // ---- presets ----

  lemma PresetBodyFields(read: Plan, preset: PresetSpec, f: Field)
    ensures Sent(PresetBody(read, preset)).Get(f) == WithPreset(read, preset).values.Get(f)
    ensures PresetBody(read, preset).origins.Get(f) == Some(WithPreset(read, preset).origins.Get(f))
  {
    hide WithPreset;
  }

  lemma WithPresetFields(p: Plan, preset: PresetSpec, f: Field)
    ensures (WithPreset(p, preset).values.Get(f), WithPreset(p, preset).origins.Get(f)) == PresetField(p, preset, f)
  {
    if f == Lyrics || f == VocalLanguage {
      PresetSetsNoWords(preset, f);
      UntouchedByPreset(p, preset, f);
    }
    hide PresetField, HasOwnLyrics;
    match f
    case _ =>
  }

  lemma UntouchedByPreset(p: Plan, preset: PresetSpec, f: Field)
    requires PresetValue(preset, f).None?
    ensures PresetField(p, preset, f) == (p.values.Get(f), p.origins.Get(f))
  {
    hide KeptFromPreset, PyEq, PresetValue;
  }

  lemma PresetSetsNoWords(preset: PresetSpec, f: Field)
    requires f == Lyrics || f == VocalLanguage
    ensures PresetValue(preset, f).None?
  {
    assert PRESET_FIELDS[0] == Bpm && PRESET_FIELDS[1] == Keyscale;
    assert PRESET_FIELDS[2] == Timesignature && PRESET_FIELDS[3] == DurationSec;
  }

  lemma LockIsKeptFromPreset(p: Plan, f: Field)
    requires IsLocked(p, f) && f != Lyrics && f != VocalLanguage
    ensures KeptFromPreset(p, f)
  {
    hide IsUnset, IsBlank;
  }

  lemma PresetKeepsLock(p: Plan, preset: PresetSpec, f: Field)
    requires IsLocked(p, f)
    ensures PresetField(p, preset, f) == (p.values.Get(f), User)
  {
    if f == Lyrics || f == VocalLanguage {
      PresetSetsNoWords(preset, f);
    } else {
      LockIsKeptFromPreset(p, f);
    }
    LockIsUsers(p, f);
    hide IsLocked, PyEq, PresetValue, KeptFromPreset;
  }

  lemma LockIsUsers(p: Plan, f: Field)
    requires IsLocked(p, f)
    ensures p.origins.Get(f) == User
  {
  }

  /** Saving a proposal made from `read` over the plan `p` keeps a lock of `p` if and only if
      `read` had that lock on the same value already. A conditional save has `read == p`. */
  lemma StalePresetKeepsLockIff(read: Plan, preset: PresetSpec, p: Plan, f: Field)
    requires IsLocked(p, f)
    ensures KeepsField(p, Written(p, PresetBody(read, preset)), f)
      <==> PresetField(read, preset, f).1 == User && PyEq(PresetField(read, preset, f).0, p.values.Get(f))
    ensures read == p ==> KeepsField(p, Written(p, PresetBody(read, preset)), f)
  {
    PresetBodyFields(read, preset, f);
    WithPresetFields(read, preset, f);
    WriteKeepsUntouched(p, PresetBody(read, preset), f);
    if read == p {
      PresetKeepsLock(p, preset, f);
    }
    hide IsLocked, WithPreset, PresetField, Written, PresetBody, Sent, KeepsField;
    PyEqIsEquivalence(p.values.Get(f), p.values.Get(f), p.values.Get(f));
  }

  /** Without the condition on the revision a lock can be lost: a caption written between the
      preview and the save. */
  lemma UnconditionalPresetLosesLock(read: Plan, preset: PresetSpec, body: Body)
    requires read.values.caption == Text("") && read.origins.caption == Default && !IsBlank(preset.caption)
    requires Sent(body).caption.Text? && !IsBlank(Sent(body).caption.text) && body.origins.caption == None
    ensures var p := Written(read, body);
      IsLocked(p, Caption) && !KeepsField(p, Written(p, PresetBody(read, preset)), Caption)
  {
    var p := Written(read, body);
    CaptionIsLocked(read, body);
    hide Written, PresetBody, Sent, IsLocked, KeepsField, PresetField, IsBlank;
    StalePresetKeepsLockIff(read, preset, p, Caption);
    PresetTakesCaption(read, preset);
  }

  lemma CaptionIsLocked(read: Plan, body: Body)
    requires read.values.caption == Text("") && read.origins.caption == Default
    requires Sent(body).caption.Text? && !IsBlank(Sent(body).caption.text) && body.origins.caption == None
    ensures IsLocked(Written(read, body), Caption)
  {
    WrittenFields(read, body, Caption);
    EmptyIsBlank();
    hide Written, Sent, IsBlank;
  }

  lemma EmptyIsBlank()
    ensures IsBlank("")
  {
  }

  lemma PresetTakesCaption(read: Plan, preset: PresetSpec)
    requires read.values.caption == Text("") && read.origins.caption == Default && !IsBlank(preset.caption)
    ensures PresetField(read, preset, Caption) == (Text(preset.caption), Preset)
  {
    EmptyIsBlank();
    hide IsBlank;
  }

  /** A field a preset has a value for ends with that value, unless the user has set it: then it
      stands. Every other field stands. */
  lemma PresetTakesEffect(p: Plan, preset: PresetSpec, f: Field)
    ensures var p' := WithPreset(p, preset);
      if PresetValue(preset, f).Some? && !KeptFromPreset(p, f) then
        && PyEq(p'.values.Get(f), PresetValue(preset, f).value)
        && (p'.origins.Get(f) == Preset || (p'.origins.Get(f) == p.origins.Get(f) && p'.values.Get(f) == p.values.Get(f)))
      else p'.values.Get(f) == p.values.Get(f) && p'.origins.Get(f) == p.origins.Get(f)
  {
    WithPresetFields(p, preset, f);
    if PresetValue(preset, f).Some? {
      PyEqIsEquivalence(PresetValue(preset, f).value, p.values.Get(f), PresetValue(preset, f).value);
      PyEqIsEquivalence(p.values.Get(f), PresetValue(preset, f).value, p.values.Get(f));
    }
    hide WithPreset, KeptFromPreset, PresetValue, PyEq;
  }

  // ---- planned renders ----

  /** Normalizing line endings does not make or unmake the placeholder. */
  lemma NormalizedPlaceholder(s: string)
    ensures IsPlaceholder(NormalizedLines(s)) <==> IsPlaceholder(s)
  {
    NormalizationCommutesWithStrip(s);
    var core := Strip(s);
    NormalizationKeepsLines(core);
    if '\r' in core {
      var k :| 0 <= k < |core| && core[k] == '\r';
      NormalizedDiffers(core);
      NoPlaceholderWithBreak(core, '\r');
      NoPlaceholderWithBreak(NormalizedLines(core), '\n');
    }
    hide NormalizedLines, Lower, Strip, INSTRUMENTAL_LYRICS;
  }

  /** A preset never makes a submission fail for lyrics under Instrumental that did not fail
      before. */
  lemma PresetNeverConflicts(p: Plan, preset: PresetSpec)
    requires !Conflicts(CreationInput(p, Generate, None))
    ensures !Conflicts(CreationInput(WithPreset(p, preset), Generate, None))
  {
    PresetTakesEffect(p, preset, Lyrics);
    PresetSetsNoWords(preset, Lyrics);
    var text := OrEmpty(p.values.lyrics);
    NormalizationKeepsBlank(text);
    NormalizedPlaceholder(text);
    hide NormalizedLines, IsBlank, IsPlaceholder, EffectiveMode, PresetField, OrEmpty;
    SubmittedLyrics(p);
    SubmittedLyrics(WithPreset(p, preset));
  }

  lemma SubmittedLyrics(p: Plan)
    ensures OrEmpty(CreationInput(p, Generate, None).values.lyrics) == OrEmpty(p.values.lyrics)
  {
  }

  lemma {:induction false} NormalizedDiffers(s: string)
    requires '\r' in s
    ensures '\n' in NormalizedLines(s)
    decreases |s|
  {
    NormalizesHead(s);
    HeadIsPositive(s);
    if s[0] != '\r' {
      assert s == [s[0]] + s[1..];
      NormalizedDiffers(s[1..]);
    }
  }

  lemma NoPlaceholderWithBreak(core: string, c: char)
    requires c in core && (c == '\r' || c == '\n')
    ensures Lower(core) != Lower(INSTRUMENTAL_LYRICS)
  {
    var k :| 0 <= k < |core| && core[k] == c;
    var placeholder := INSTRUMENTAL_LYRICS;
    assert Lower(core)[k] == c;
    if |core| == |placeholder| {
      assert Lower(placeholder)[k] == LowerChar(placeholder[k]) != c;
    }
  }

  lemma KeyStaysSet(v: Value)
    requires ParseKeyscale(Show(v)).Some?
    ensures !IsBlank(ParseKeyscale(Show(v)).value)
  {
    ParsedIsKey(Show(v));
    hide ParseKeyscale, Strip;
    KeyIsNotBlank(ParseKeyscale(Show(v)).value);
  }

  lemma MeterStaysSet(v: Value)
    requires Strip(Show(v)) in TIME_SIGNATURES
    ensures !IsBlank(Strip(Show(v)))
  {
    hide Strip, TIME_SIGNATURES;
    MetersAreNotBlank(Strip(Show(v)));
  }

  lemma LanguageStaysSet(s: string)
    requires !IsBlank(s) && Lower(Strip(s)) != "unknown"
    ensures var code := Lower(Strip(s)); !IsBlank(code) && Lower(Strip(code)) != "unknown"
  {
    StripStrips(s);
    hide Strip;
    LowerKeepsStripped(Strip(s));
    LowerIsIdempotent(Strip(s));
  }

  /** A set meta stays set when it is rewritten to its canonical form. */
  lemma CanonicalStaysSet(f: Field, v: Value, v': Value)
    requires f != Caption && f != Lyrics && !IsUnset(f, v) && Canonical(f, v) == Some(v')
    requires f == VocalLanguage ==> v.Text?
    ensures !IsUnset(f, v')
  {
    hide Strip, ParseKeyscale, Lower, TIME_SIGNATURES, VALID_LANGUAGES, Show;
    match f
    case Keyscale => KeyStaysSet(v);
    case Timesignature => MeterStaysSet(v);
    case VocalLanguage =>
      ShowsText(v);
      LanguageStaysSet(v.text);
    case _ =>
  }

  lemma ShowsText(v: Value)
    requires v.Text?
    ensures Show(v) == v.text
  {
  }

  lemma KeyIsNotBlank(k: string)
    requires IsKey(k)
    ensures !IsBlank(k)
  {
    hide Strip;
    BlankMeansAllSpace(k);
    assert !IsSpace(k[0]);
  }

  lemma MetersAreNotBlank(s: string)
    requires s in TIME_SIGNATURES
    ensures !IsBlank(s)
  {
    hide Strip;
    BlankMeansAllSpace(s);
    assert s != "" && !IsSpace(s[0]);
  }

  lemma BlankIsNotText(s: string)
    requires !IsBlank(s)
    ensures s != ""
  {
  }

  lemma WordsLockIsSet(p: Plan, f: Field)
    requires IsLocked(p, f) && (f == Caption || f == Lyrics)
    ensures var v := p.values.Get(f);
      && p.origins.Get(f) == User && v.Text? && OrEmpty(v) == v.text && !IsBlank(v.text)
      && (f == Lyrics ==> !IsPlaceholder(v.text))
  {
    hide IsBlank, IsPlaceholder;
  }

  lemma UserWordsAreKept(i: Intent, f: Field, text: string)
    requires (f == Caption || f == Lyrics) && i.origins.Get(f) == User && i.values.Get(f) == Text(text)
    requires !IsBlank(text) && (f == Lyrics ==> !IsPlaceholder(text))
    ensures Locked(i, f)
  {
    BlankIsNotText(text);
    hide IsBlank, IsPlaceholder;
  }

  lemma CaptionLockHolds(p: Plan, i: Intent)
    requires IsLocked(p, Caption) && i.origins == p.origins && i.values.caption == Text(OrEmpty(p.values.caption))
    ensures Locked(i, Caption)
  {
    WordsLockIsSet(p, Caption);
    hide IsLocked, IsBlank, Locked, OrEmpty;
    UserWordsAreKept(i, Caption, p.values.caption.text);
  }

  lemma LyricsLockHolds(p: Plan, i: Intent)
    requires IsLocked(p, Lyrics) && i.origins == p.origins
    requires i.values.lyrics == Text(NormalizedLines(OrEmpty(p.values.lyrics)))
    ensures Locked(i, Lyrics)
  {
    WordsLockIsSet(p, Lyrics);
    hide IsLocked, IsBlank, IsPlaceholder, Locked, OrEmpty, NormalizedLines;
    var text := p.values.lyrics.text;
    NormalizationKeepsBlank(text);
    NormalizedPlaceholder(text);
    UserWordsAreKept(i, Lyrics, NormalizedLines(text));
  }

  lemma MetaLockHolds(p: Plan, i: Intent, f: Field)
    requires IsLocked(p, f) && f != Caption && f != Lyrics && i.origins == p.origins
    requires Canonical(f, p.values.Get(f)) == Some(i.values.Get(f))
    ensures Locked(i, f)
  {
    MetaLockIsSet(p, f);
    CanonicalStaysSet(f, p.values.Get(f), i.values.Get(f));
    hide Canonical, IsUnset, IsLocked;
  }

  lemma MetaLockIsSet(p: Plan, f: Field)
    requires IsLocked(p, f) && f != Caption && f != Lyrics
    ensures !IsUnset(f, p.values.Get(f)) && p.origins.Get(f) == User && (f == VocalLanguage ==> p.values.Get(f).Text?)
  {
    hide IsUnset;
  }

  /** The planner may not touch a field its job's source had locked. */
  lemma LockReachesPlanner(p: Plan, override: Option<Mode>, i: Intent, f: Field)
    requires IsLocked(p, f) && Validated(CreationInput(p, Generate, override)) == Ok(i)
    ensures Locked(i, f) && i.origins.Get(f) == User
  {
    AcceptedField(p, override, i, f);
    LockIsUsers(p, f);
    hide IsLocked, Locked, Validated, CreationInput, CanonicalMeta, IsUnset, NormalizedLines, OrEmpty;
    match f
    case Caption => CaptionLockHolds(p, i);
    case Lyrics => LyricsLockHolds(p, i);
    case _ => MetaLockHolds(p, i, f);
  }

  /** A merge into the plan its job came from leaves its locks alone. */
  lemma MergeKeepsLock(p: Plan, override: Option<Mode>, i: Intent, sample: Values, planner: string, job: nat, f: Field)
    requires IsLocked(p, f) && Validated(CreationInput(p, Generate, override)) == Ok(i)
    ensures var p' := Merged(p, PatchOf(Planned(i, sample, planner), job).value);
      p'.values.Get(f) == p.values.Get(f) && p'.origins.Get(f) == p.origins.Get(f)
  {
    var b := Planned(i, sample, planner);
    LockReachesPlanner(p, override, i, f);
    assert b.origins.Get(f) == PlannedField(i, sample, f).1;
    assert !Filled(b, f);
    hide Planned, Filled, Validated, CreationInput, IsLocked, Locked, Overlay;
    var patch := PatchOf(b, job).value;
    OverlayKeeps(p.values, patch.values, f);
    OverlayKeeps(p.origins, patch.origins, f);
  }

  lemma OverlayKeeps<T>(base: PerField<T>, patch: map<Field, T>, f: Field)
    requires f !in patch
    ensures Overlay(base, patch).Get(f) == base.Get(f)
  {
  }

  // ---- whole runs ----

  /** A client's own write, accepted, that sets the field; or a wholesale replacement. */
  predicate ClientSets(s: Draft, step: DraftStep, f: Field) {
    match step
    case Write(body, expected) => Accepts(s, body, expected) && Touches(s.plan, body, f)
    case Replace(plan) => !KeepsField(s.plan, plan, f)
    case _ => false
  }

  lemma LandKeepsLock(s: Draft, job: nat, sample: Values, planner: string, f: Field)
    requires HistoryOk(s) && HoldersOk(s) && Lands(s, job) && IsLocked(s.plan, f)
    ensures KeepsField(s.plan, MergedPlan(s, job, sample, planner), f)
  {
    SourceIsPlan(s, job);
    hide HistoryOk, HoldersOk, Lands;
    MergeKeepsLock(s.plan, s.jobs[job].override, s.jobs[job].intent, sample, planner, job, f);
    PyEqIsEquivalence(s.plan.values.Get(f), s.plan.values.Get(f), s.plan.values.Get(f));
    hide IsLocked, Merged, PatchOf, Planned, PyEq;
  }

  lemma WriteStepKeepsLock(s: Draft, body: Body, expected: Option<nat>, f: Field)
    requires !ClientSets(s, Write(body, expected), f) && Accepts(s, body, expected)
    ensures KeepsField(s.plan, Written(s.plan, body), f)
  {
    WriteKeepsUntouched(s.plan, body, f);
    hide KeepsField, Written, Touches, Accepts;
  }

  lemma PresetStepKeepsLock(s: Draft, read: Plan, preset: PresetSpec, f: Field)
    requires HistoryOk(s) && HoldersOk(s) && read in s.seen && read.revision == s.plan.revision && IsLocked(s.plan, f)
    ensures KeepsField(s.plan, Written(s.plan, PresetBody(read, preset)), f)
  {
    SeenAtRevision(s, read);
    hide HistoryOk, HoldersOk, IsLocked, KeepsField, Written, PresetBody, PresetField, PyEq;
    StalePresetKeepsLockIff(read, preset, s.plan, f);
  }

  lemma NothingTouched(p: Plan, f: Field)
    ensures KeepsField(p, p, f)
  {
  }

  lemma StepKeepsLock(s: Draft, step: DraftStep, s': Draft, f: Field)
    requires HistoryOk(s) && HoldersOk(s) && DraftNext(s, step, s')
    requires IsLocked(s.plan, f) && !ClientSets(s, step, f)
    ensures KeepsField(s.plan, s'.plan, f)
  {
    hide HistoryOk, HoldersOk, IsLocked, Written, MergedPlan, Lands, PresetBody, Validated, CreationInput, WellTyped;
    NothingTouched(s.plan, f);
    match step
    case Write(body, expected) =>
      if Accepts(s, body, expected) {
        WriteStepKeepsLock(s, body, expected, f);
      }
    case SavePreset(read, preset) =>
      if Accepts(s, PresetBody(read, preset), Some(read.revision)) {
        PresetStepKeepsLock(s, read, preset, f);
      }
    case Land(job, sample, planner) =>
      if Lands(s, job) {
        LandKeepsLock(s, job, sample, planner, f);
      }
    case _ =>
  }

  /** A plan read at the current revision is the current plan. */
  lemma SeenAtRevision(s: Draft, read: Plan)
    requires HistoryOk(s) && HoldersOk(s) && read in s.seen
    ensures read.revision == s.plan.revision ==> read == s.plan
  {
  }

  lemma SourceIsPlan(s: Draft, job: nat)
    requires HistoryOk(s) && HoldersOk(s) && Lands(s, job)
    ensures s.jobs[job].source == s.plan
    ensures Validated(CreationInput(s.plan, Generate, s.jobs[job].override)) == Ok(s.jobs[job].intent)
  {
    assert SubmissionOk(s.jobs[job], s.history);
    hide RequestOf, Canonical, NormalizedLines, Conflicts;
  }

  /** A lock outlasts every run in which no client write sets its field. */
  lemma {:induction false} LocksSurviveRuns(run: seq<Draft>, steps: seq<DraftStep>, i: nat, m: nat, f: Field)
    requires IsDraftRun(run, steps) && i <= m < |run| && IsLocked(run[i].plan, f)
    requires forall n | i <= n < m :: !ClientSets(run[n], steps[n], f)
    ensures KeepsField(run[i].plan, run[m].plan, f) && IsLocked(run[m].plan, f)
    decreases m - i
  {
    hide DraftNext, ClientSets, IsLocked, HistoryOk, HoldersOk;
    if i < m {
      LocksSurviveRuns(run, steps, i, m - 1, f);
      RunKeepsHistory(run, steps, m - 1);
      StepKeepsLock(run[m - 1], steps[m - 1], run[m], f);
    }
    PyEqIsEquivalence(run[m].plan.values.Get(f), run[if i < m then m - 1 else m].plan.values.Get(f), run[i].plan.values.Get(f));
    KeptStaysLocked(run[i].plan, run[m].plan, f);
  }
}
