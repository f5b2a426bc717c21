/** The round trip of a planned render: the brief that was rendered, merged into the draft and
    submitted again, renders the same words and metas. */
module CreationRoundTrip {
  import opened Common
  import opened CreationTypes
  import opened CreationText
  import opened CreationBrief
  import opened CreationPlanner

  /** Some caption or lyrics to render from. */
  predicate HasWords(b: Brief) {
    !IsBlank(OrEmpty(b.values.caption)) || !IsBlank(OrEmpty(b.values.lyrics))
  }

  /** What the planner filled needs no correction. */
  ghost predicate FillsCanonical(b: Brief) {
    forall f: Field | Filled(b, f) :: Canonical(f, b.values.Get(f)) == Some(b.values.Get(f))
  }

  /** The submission of a draft that planned into `i`. */
  predicate PlansFrom(p: Plan, override: Option<Mode>, i: Intent) {
    Validated(CreationInput(p, Generate, override)) == Ok(i) && i.mode == FromIdea
  }

  lemma IntentIsRendered(p: Plan, override: Option<Mode>, i: Intent, f: Field)
    requires PlansFrom(p, override, i)
    ensures Canonical(f, p.values.Get(f)) == Some(i.values.Get(f))
    ensures i.origins == p.origins && i.query == p.query && i.instrumental == p.instrumental && !IsBlank(i.query)
    ensures !Conflicts(CreationInput(p, Generate, override))
  {
    AcceptedField(p, override, i, f);
    hide Canonical, NormalizedLines, Conflicts, EffectiveMode, FirstInvalid, Rendered;
  }

  /** Instrumental and accepted: the planned lyrics are the placeholder, as a default. */
  lemma InstrumentalPlansPlaceholder(p: Plan, override: Option<Mode>, i: Intent, sample: Values)
    requires PlansFrom(p, override, i) && i.instrumental
    ensures PlannedField(i, sample, Lyrics) == (Text(INSTRUMENTAL_LYRICS), Default)
  {
    IntentIsRendered(p, override, i, Lyrics);
    hide PlansFrom, CreationInput, UserText, Conflicts, NormalizedLines, OrEmpty, IsUnset;
    InputLyrics(p, override);
    NoWordsUnderInstrumental(p, override, i);
  }

  lemma InputLyrics(p: Plan, override: Option<Mode>)
    ensures var raw := CreationInput(p, Generate, override);
      OrEmpty(raw.values.lyrics) == OrEmpty(p.values.lyrics) && raw.instrumental == p.instrumental
  {
    hide EffectiveMode, Show;
  }

  /** What an instrumental was accepted with leaves no words to keep. */
  lemma NoWordsUnderInstrumental(p: Plan, override: Option<Mode>, i: Intent)
    requires !Conflicts(CreationInput(p, Generate, override)) && p.instrumental
    requires OrEmpty(CreationInput(p, Generate, override).values.lyrics) == OrEmpty(p.values.lyrics)
    requires CreationInput(p, Generate, override).instrumental
    requires i.values.lyrics == Text(NormalizedLines(OrEmpty(p.values.lyrics)))
    ensures UserText(i, Lyrics) == ""
  {
    hide CreationInput, NormalizedLines, IsBlank, IsPlaceholder;
  }

  lemma PlaceholderText()
    ensures IsPlaceholder(INSTRUMENTAL_LYRICS) && !IsBlank(INSTRUMENTAL_LYRICS)
    ensures NormalizedLines(INSTRUMENTAL_LYRICS) == INSTRUMENTAL_LYRICS
  {
    hide Strip, NormalizedLines, Lower;
    var s := INSTRUMENTAL_LYRICS;
    assert s[0] == '[' && s[|s| - 1] == ']';
    StripStrips(s);
    NormalizationKeepsLines(s);
  }

  lemma PlannedAsIs(p: Plan, override: Option<Mode>, i: Intent, sample: Values, planner: string, f: Field)
    requires PlansFrom(p, override, i)
    ensures var b := Planned(i, sample, planner);
      (b.values.Get(f), b.origins.Get(f)) == PlannedField(i, sample, f)
  {
    hide PlansFrom, PlannedField, IsBlank;
    PlaceholderText();
    if i.instrumental {
      InstrumentalPlansPlaceholder(p, override, i, sample);
    }
  }

  lemma PlannedFieldCases(i: Intent, sample: Values, f: Field)
    ensures PlannedField(i, sample, f) == (i.values.Get(f), i.origins.Get(f))
      || PlannedField(i, sample, f).1 == Planner || (f == Lyrics && i.instrumental)
  {
    hide Locked, IsUnset;
  }

  lemma InstrumentalIsFilled(p: Plan, override: Option<Mode>, i: Intent, sample: Values, planner: string)
    requires PlansFrom(p, override, i) && i.instrumental
    ensures Filled(Planned(i, sample, planner), Lyrics)
  {
    PlannedAsIs(p, override, i, sample, planner, Lyrics);
    InstrumentalPlansPlaceholder(p, override, i, sample);
    PlaceholderText();
    hide PlansFrom, IsPlaceholder, PlannedField, IsBlank, PlannedValues, PlannedOrigins;
  }

  lemma UnfilledIsIntents(p: Plan, override: Option<Mode>, i: Intent, sample: Values, planner: string, f: Field)
    requires PlansFrom(p, override, i) && !Filled(Planned(i, sample, planner), f)
    ensures var b := Planned(i, sample, planner);
      b.values.Get(f) == i.values.Get(f) && b.origins.Get(f) == i.origins.Get(f)
  {
    PlannedAsIs(p, override, i, sample, planner, f);
    PlannedFieldCases(i, sample, f);
    if i.instrumental {
      InstrumentalIsFilled(p, override, i, sample, planner);
    }
    hide PlansFrom, IsPlaceholder, PlannedField, Planned;
  }

  /** The draft after the merge. */
  function Redrafted(p: Plan, b: Brief, job: nat): Plan
    requires b.planner.Some?
  {
    Merged(p, PatchOf(b, job).value)
  }

  lemma RedraftedFields(p: Plan, override: Option<Mode>, i: Intent, sample: Values, planner: string, job: nat, f: Field)
    requires PlansFrom(p, override, i)
    ensures var b := Planned(i, sample, planner);
      && Redrafted(p, b, job).values.Get(f) == (if Filled(b, f) then b.values.Get(f) else p.values.Get(f))
      && Redrafted(p, b, job).origins.Get(f) == b.origins.Get(f)
  {
    var b := Planned(i, sample, planner);
    IntentIsRendered(p, override, i, f);
    if !Filled(b, f) {
      UnfilledIsIntents(p, override, i, sample, planner, f);
    }
    hide PlansFrom, Planned, Filled, Canonical;
    MergedFields(p, b, job, f);
  }

  lemma MergedFields(p: Plan, b: Brief, job: nat, f: Field)
    requires b.planner.Some?
    ensures Redrafted(p, b, job).values.Get(f) == (if Filled(b, f) then b.values.Get(f) else p.values.Get(f))
    ensures Redrafted(p, b, job).origins.Get(f) == (if Filled(b, f) then b.origins.Get(f) else p.origins.Get(f))
  {
    hide Filled, Overlay;
    var patch := PatchOf(b, job).value;
    OverlayGets(p.values, patch.values, f);
    OverlayGets(p.origins, patch.origins, f);
  }

  /** A field of the redrafted plan renders as it did, if and only if what the planner put there
      needs no correction. */
  lemma RedraftRenders(p: Plan, override: Option<Mode>, i: Intent, sample: Values, planner: string, job: nat, f: Field)
    requires PlansFrom(p, override, i)
    ensures var b := Planned(i, sample, planner);
      Canonical(f, Redrafted(p, b, job).values.Get(f)) == Some(b.values.Get(f))
      <==> (Filled(b, f) ==> Canonical(f, b.values.Get(f)) == Some(b.values.Get(f)))
  {
    var b := Planned(i, sample, planner);
    RedraftedFields(p, override, i, sample, planner, job, f);
    IntentIsRendered(p, override, i, f);
    if !Filled(b, f) {
      UnfilledIsIntents(p, override, i, sample, planner, f);
    }
  }

  /** The redrafted plan has words exactly when the brief had. */
  lemma RedraftHasWords(p: Plan, override: Option<Mode>, i: Intent, sample: Values, planner: string, job: nat)
    requires PlansFrom(p, override, i)
    ensures var b := Planned(i, sample, planner);
      HasWords(b) <==> (!IsBlank(OrEmpty(Redrafted(p, b, job).values.caption))
                        || !IsBlank(OrEmpty(Redrafted(p, b, job).values.lyrics)))
  {
    var b := Planned(i, sample, planner);
    RedraftedFields(p, override, i, sample, planner, job, Caption);
    RedraftedFields(p, override, i, sample, planner, job, Lyrics);
    IntentIsRendered(p, override, i, Caption);
    IntentIsRendered(p, override, i, Lyrics);
    NormalizationKeepsBlank(OrEmpty(p.values.lyrics));
    if !Filled(b, Caption) {
      UnfilledIsIntents(p, override, i, sample, planner, Caption);
    }
    if !Filled(b, Lyrics) {
      UnfilledIsIntents(p, override, i, sample, planner, Lyrics);
    }
    hide PlansFrom, Planned, Filled, IsBlank, NormalizedLines, Redrafted;
  }

  lemma RedraftDoesNotConflict(p: Plan, override: Option<Mode>, i: Intent, sample: Values, planner: string, job: nat)
    requires PlansFrom(p, override, i)
    ensures var p' := Redrafted(p, Planned(i, sample, planner), job);
      && p'.query == p.query && p'.instrumental == i.instrumental && p'.mode == FromBrief
      && !Conflicts(CreationInput(p', Generate, None))
  {
    var b := Planned(i, sample, planner);
    IntentIsRendered(p, override, i, Lyrics);
    if i.instrumental {
      PlannedAsIs(p, override, i, sample, planner, Lyrics);
      InstrumentalPlansPlaceholder(p, override, i, sample);
      InstrumentalIsFilled(p, override, i, sample, planner);
      RedraftedFields(p, override, i, sample, planner, job, Lyrics);
      PlaceholderText();
    }
    hide PlansFrom, Planned, Filled, IsBlank, NormalizedLines, IsPlaceholder, EffectiveMode, Overlay, Canonical;
  }

  /** The same seven values, origins and creative parameters. */
  predicate SameSong(b: Brief, b': Brief) {
    b'.values == b.values && b'.origins == b.origins && CreativeOf(b') == CreativeOf(b)
  }

  /** What a second submission of the redrafted plan renders, if it is accepted. */
  function Resubmitted(p: Plan, b: Brief, job: nat): Result<Intent, BriefError>
    requires b.planner.Some?
  {
    Validated(CreationInput(Redrafted(p, b, job), Generate, None))
  }

  predicate RoundTrips(p: Plan, b: Brief, job: nat)
    requires b.planner.Some?
  {
    var again := Resubmitted(p, b, job);
    again.Ok? && again.value.mode == FromBrief && SameSong(b, Unplanned(again.value))
  }

  lemma FieldRenders(p: Plan, override: Option<Mode>, i: Intent, sample: Values, planner: string, job: nat, f: Field)
    requires PlansFrom(p, override, i)
    ensures var b := Planned(i, sample, planner); var raw := CreationInput(Redrafted(p, b, job), Generate, None);
      Canonical(f, raw.values.Get(f)) == Some(b.values.Get(f))
      <==> (Filled(b, f) ==> Canonical(f, b.values.Get(f)) == Some(b.values.Get(f)))
  {
    hide PlansFrom, Planned, Redrafted, CreationInput, Canonical, Filled;
    InputRenders(Redrafted(p, Planned(i, sample, planner), job), Generate, None, f);
    RedraftRenders(p, override, i, sample, planner, job, f);
  }

  lemma FillsOrRenders(b: Brief, values: Values)
    requires forall f: Field ::
      (Canonical(f, values.Get(f)) == Some(b.values.Get(f))
       <==> (Filled(b, f) ==> Canonical(f, b.values.Get(f)) == Some(b.values.Get(f))))
    ensures FillsCanonical(b) <==> FirstInvalid(values).None? && Rendered(values) == b.values
  {
    hide Canonical, Filled, FirstInvalid, Rendered;
    RendersTo(values, b.values);
  }

  lemma ResubmissionRenders(p: Plan, override: Option<Mode>, i: Intent, sample: Values, planner: string, job: nat)
    requires PlansFrom(p, override, i)
    ensures var b := Planned(i, sample, planner); var raw := CreationInput(Redrafted(p, b, job), Generate, None);
      FillsCanonical(b) <==> FirstInvalid(raw.values).None? && Rendered(raw.values) == b.values
  {
    hide PlansFrom, Planned, Redrafted, CreationInput, Canonical, Filled, FirstInvalid, Rendered, FillsCanonical;
    var b := Planned(i, sample, planner);
    var raw := CreationInput(Redrafted(p, b, job), Generate, None);
    forall f: Field
      ensures Canonical(f, raw.values.Get(f)) == Some(b.values.Get(f))
        <==> (Filled(b, f) ==> Canonical(f, b.values.Get(f)) == Some(b.values.Get(f)))
    {
      FieldRenders(p, override, i, sample, planner, job, f);
    }
    FillsOrRenders(b, raw.values);
  }

  lemma RendersTo(values: Values, wanted: Values)
    ensures (forall f: Field :: Canonical(f, values.Get(f)) == Some(wanted.Get(f)))
      <==> FirstInvalid(values).None? && Rendered(values) == wanted
  {
    hide Canonical;
    if FirstInvalid(values).None? && Rendered(values) == wanted {
      forall f: Field
        ensures Canonical(f, values.Get(f)) == Some(wanted.Get(f))
      {
        assert Canonical(Caption, values.caption).Some? && Canonical(Lyrics, values.lyrics).Some? by {
          CaptionsRender(values);
        }
        assert Renders(f, values);
        assert Rendered(values).Get(f) == Render(f, values);
      }
    }
    if forall f: Field :: Canonical(f, values.Get(f)) == Some(wanted.Get(f)) {
      assert forall f: Field :: Renders(f, values) && Render(f, values) == wanted.Get(f);
    }
  }

  lemma CaptionsRender(values: Values)
    ensures Canonical(Caption, values.caption).Some? && Canonical(Lyrics, values.lyrics).Some?
  {
  }

  /** An instrumental brief has the placeholder for lyrics, before and after. */
  lemma InstrumentalLyricsStay(p: Plan, override: Option<Mode>, i: Intent, sample: Values, planner: string, job: nat)
    requires PlansFrom(p, override, i) && i.instrumental
    ensures var b := Planned(i, sample, planner); var raw := CreationInput(Redrafted(p, b, job), Generate, None);
      Canonical(Lyrics, raw.values.lyrics) == Some(b.values.lyrics) && !IsBlank(OrEmpty(b.values.lyrics))
  {
    var b := Planned(i, sample, planner);
    PlannedAsIs(p, override, i, sample, planner, Lyrics);
    InstrumentalPlansPlaceholder(p, override, i, sample);
    PlaceholderText();
    InputRenders(Redrafted(p, b, job), Generate, None, Lyrics);
    RedraftRenders(p, override, i, sample, planner, job, Lyrics);
    hide PlansFrom, Planned, Redrafted, Filled, IsBlank, IsPlaceholder;
  }

  lemma RedraftOrigins(p: Plan, override: Option<Mode>, i: Intent, sample: Values, planner: string, job: nat)
    requires PlansFrom(p, override, i)
    ensures var b := Planned(i, sample, planner); Redrafted(p, b, job).origins == b.origins
  {
    hide PlansFrom, Planned, Redrafted, Filled;
    var b := Planned(i, sample, planner);
    forall f: Field
      ensures Redrafted(p, b, job).origins.Get(f) == b.origins.Get(f)
    {
      RedraftedFields(p, override, i, sample, planner, job, f);
    }
    SameEverywhere(Redrafted(p, b, job).origins, b.origins);
  }

  lemma SameEverywhere<T>(a: PerField<T>, b: PerField<T>)
    requires forall f: Field :: a.Get(f) == b.Get(f)
    ensures a == b
  {
    assert a.Get(Caption) == b.Get(Caption) && a.Get(Lyrics) == b.Get(Lyrics);
    assert a.Get(VocalLanguage) == b.Get(VocalLanguage) && a.Get(Bpm) == b.Get(Bpm);
    assert a.Get(Keyscale) == b.Get(Keyscale) && a.Get(Timesignature) == b.Get(Timesignature);
    assert a.Get(DurationSec) == b.Get(DurationSec);
  }

  /** What the redrafted plan `p'` and its submission are known to satisfy. */
  ghost predicate Redraft(b: Brief, p': Plan) {
    var raw := CreationInput(p', Generate, None);
    && p'.origins == b.origins && p'.mode == FromBrief && !IsBlank(p'.query) && p'.instrumental == b.instrumental
    && !Conflicts(raw)
    && (HasWords(b) <==> !IsBlank(OrEmpty(p'.values.caption)) || !IsBlank(OrEmpty(p'.values.lyrics)))
    && (b.instrumental ==>
          Canonical(Lyrics, raw.values.lyrics) == Some(b.values.lyrics) && !IsBlank(OrEmpty(b.values.lyrics)))
  }

  lemma RedraftIsOne(p: Plan, override: Option<Mode>, i: Intent, sample: Values, planner: string, job: nat)
    requires PlansFrom(p, override, i)
    ensures Redraft(Planned(i, sample, planner), Redrafted(p, Planned(i, sample, planner), job))
  {
    RedraftDoesNotConflict(p, override, i, sample, planner, job);
    RedraftHasWords(p, override, i, sample, planner, job);
    RedraftOrigins(p, override, i, sample, planner, job);
    IntentIsRendered(p, override, i, Caption);
    if i.instrumental {
      InstrumentalLyricsStay(p, override, i, sample, planner, job);
    }
    hide PlansFrom, Redrafted, HasWords, Conflicts, CreationInput, Canonical, IsBlank, PlannedValues, PlannedOrigins;
  }

  lemma ResubmissionMode(b: Brief, p': Plan)
    requires Redraft(b, p')
    ensures CreationInput(p', Generate, None).mode == (if HasWords(b) then FromBrief else FromIdea)
  {
    hide HasWords, IsBlank, Conflicts, Canonical;
  }

  lemma ResubmissionSings(b: Brief, p': Plan)
    requires Redraft(b, p')
    ensures var raw := CreationInput(p', Generate, None);
      FirstInvalid(raw.values).None? && Rendered(raw.values) == b.values && HasWords(b)
      <==> Validated(raw).Ok? && Validated(raw).value.mode == FromBrief && SameSong(b, Unplanned(Validated(raw).value))
  {
    hide HasWords, IsBlank, Conflicts, Canonical, FirstInvalid, CreativeOf, NormalizedLines;
    ResubmissionMode(b, p');
    var raw := CreationInput(p', Generate, None);
    var v := Validated(raw);
    if b.instrumental {
      assert Rendered(raw.values).lyrics == b.values.lyrics;
    }
    if v.Ok? {
      assert v.value.values == Rendered(raw.values) && v.value.mode == raw.mode && v.value.origins == b.origins;
      assert Unplanned(v.value).values == Rendered(raw.values);
      SameValuesSing(b, Unplanned(v.value));
    }
  }

  lemma SameValuesSing(b: Brief, b': Brief)
    ensures b'.values == b.values && b'.instrumental == b.instrumental ==> CreativeOf(b') == CreativeOf(b)
  {
  }

  /** Merging a planned brief into its draft and submitting that again gives a `from_brief` job
      that renders the same seven values under the same origins, if and only if the brief has a
      caption or lyrics and every value the planner filled is one that validation would not have
      to correct. */
  lemma PlannedBriefRoundTrips(p: Plan, override: Option<Mode>, i: Intent, sample: Values, planner: string, job: nat)
    requires PlansFrom(p, override, i)
    ensures var b := Planned(i, sample, planner);
      RoundTrips(p, b, job) <==> HasWords(b) && FillsCanonical(b)
  {
    RedraftIsOne(p, override, i, sample, planner, job);
    ResubmissionRenders(p, override, i, sample, planner, job);
    hide Redraft, FillsCanonical, HasWords, SameSong, Validated, Rendered, FirstInvalid, Redrafted, PlannedValues, PlannedOrigins;
    ResubmissionSings(Planned(i, sample, planner), Redrafted(p, Planned(i, sample, planner), job));
  }

  /** A draft with an idea and nothing else. */
  const IDEA := Plan("a", All(Null), false, false, FromIdea, All(Default), 0, None, None)

  const IDEA_INTENT := Intent(
    Generate, FromIdea, "a", All(Null).(caption := Text(""), lyrics := Text("")), false, false, All(Default), 0, None, None)

  lemma Blanks()
    ensures !IsBlank("a") && IsBlank("") && NormalizedLines("") == ""
  {
    hide NormalizedLines, Strip;
    StripStrips("a");
    StripStrips("");
    NormalizationKeepsLines("");
    assert Strip("") == "";
  }

  lemma IdeaIsSubmitted()
    ensures CreationInput(IDEA, Generate, None) == IDEA_INTENT
  {
    hide IsBlank;
    Blanks();
  }

  lemma IdeaIsCanonical()
    ensures IsCanonical(IDEA_INTENT)
  {
    hide IsBlank, NormalizedLines, IsPlaceholder;
    Blanks();
    forall f: Field
      ensures Canonical(f, IDEA_INTENT.values.Get(f)) == Some(IDEA_INTENT.values.Get(f))
    {
      hide CanonicalMeta;
    }
  }

  lemma IdeaIsPlanned()
    ensures PlansFrom(IDEA, None, IDEA_INTENT)
  {
    hide IsCanonical, Validated, CreationInput;
    IdeaIsSubmitted();
    IdeaIsCanonical();
    CanonicalIsValidated(IDEA_INTENT);
  }

  /** A planner that answers with a caption and a tempo out of range. */
  const FAST: Values := All(Null).(caption := Text("a"), bpm := Whole(400))

  lemma FastIsNotCanonical(planner: string)
    ensures HasWords(Planned(IDEA_INTENT, FAST, planner)) && !FillsCanonical(Planned(IDEA_INTENT, FAST, planner))
  {
    hide IsBlank, IsPlaceholder;
    Blanks();
    var b := Planned(IDEA_INTENT, FAST, planner);
    assert b.values.caption == Text("a");
    assert Filled(b, Bpm) && Canonical(Bpm, b.values.Get(Bpm)) == None;
  }

  lemma SilenceHasNoWords(planner: string)
    ensures FillsCanonical(Planned(IDEA_INTENT, All(Null), planner)) && !HasWords(Planned(IDEA_INTENT, All(Null), planner))
  {
    hide IsBlank, IsPlaceholder, Canonical;
    Blanks();
    var b := Planned(IDEA_INTENT, All(Null), planner);
    assert b.origins == All(Default) && b.values == IDEA_INTENT.values;
  }

  /** Both halves of the condition are needed: a planner's tempo that is out of range, and a planner
      that answers with nothing. */
  lemma NotEveryBriefRoundTrips(planner: string, job: nat)
    ensures PlansFrom(IDEA, None, IDEA_INTENT)
    ensures HasWords(Planned(IDEA_INTENT, FAST, planner)) && !RoundTrips(IDEA, Planned(IDEA_INTENT, FAST, planner), job)
    ensures FillsCanonical(Planned(IDEA_INTENT, All(Null), planner))
      && !RoundTrips(IDEA, Planned(IDEA_INTENT, All(Null), planner), job)
  {
    hide PlansFrom, RoundTrips, HasWords, FillsCanonical, PlannedValues, PlannedOrigins;
    IdeaIsPlanned();
    FastIsNotCanonical(planner);
    SilenceHasNoWords(planner);
    PlannedBriefRoundTrips(IDEA, None, IDEA_INTENT, FAST, planner, job);
    PlannedBriefRoundTrips(IDEA, None, IDEA_INTENT, All(Null), planner, job);
  }

  /** Of the LM switches only `thinking` may change: it stays on exactly when words of the brief
      came from the planner or a caption rewrite was asked for. */
  lemma OnlyThinkingMayChange(b: Brief, b': Brief)
    requires SameSong(b, b') && b.mode == FromIdea && b'.mode == FromBrief && b'.planner.None?
    requires b'.captionRewrite == b.captionRewrite && b'.instrumental == b.instrumental
    ensures FlagsOf(b') == FlagsOf(b).(
      thinking := b.origins.caption == Planner || b.origins.lyrics == Planner || b.captionRewrite)
  {
    hide CreativeOf, IsBlank;
  }
}
