/** The resolver of the creation contract: from a draft to what one job renders. */
module CreationBrief {
  import opened Common
  import opened CreationTypes
  import opened CreationText

  const INSTRUMENTAL_LYRICS := "[Instrumental]"
  const BPM_MIN := 30
  const BPM_MAX := 300
  const DURATION_MIN := 10
  const DURATION_MAX := 600
  const TIME_SIGNATURES: seq<string> := ["2", "3", "4", "6", "2/4", "3/4", "4/4", "6/8"]
  const VALID_LANGUAGES: seq<string> := [
    "ar", "az", "bg", "bn", "ca", "cs", "da", "de", "el", "en",
    "es", "fa", "fi", "fr", "he", "hi", "hr", "ht", "hu", "id",
    "is", "it", "ja", "ko", "la", "lt", "ms", "ne", "nl", "no",
    "pa", "pl", "pt", "ro", "ru", "sa", "sk", "sr", "sv", "sw",
    "ta", "te", "th", "tl", "tr", "uk", "ur", "vi", "zh", "unknown"]

  // ---- values ----

  function Decimal(n: nat): string {
    if n < 10 then [(n + '0' as int) as char] else Decimal(n / 10) + Decimal(n % 10)
  }

  /** `str(v)`. */
  function Show(v: Value): string {
    match v
    case Null => "None"
    case Text(s) => s
    case Whole(n) => if n < 0 then "-" + Decimal(-n) else Decimal(n)
    case Frac(_, repr) => repr
    case Flag(b) => if b then "True" else "False"
  }

  /** `str(v or "")`. */
  function OrEmpty(v: Value): string {
    match v
    case Null => ""
    case Text(s) => s
    case Whole(n) => if n == 0 then "" else Show(v)
    case Frac(x, _) => if x == 0.0 then "" else Show(v)
    case Flag(b) => if b then Show(v) else ""
  }

  /** `is_unset`. */
  predicate IsUnset(f: Field, v: Value) {
    match v
    case Null => true
    case Text(s) => IsBlank(s) || (f == VocalLanguage && Lower(Strip(s)) == "unknown")
    case _ => false
  }

  predicate IsPlaceholder(lyrics: string) {
    Lower(Strip(lyrics)) == Lower(INSTRUMENTAL_LYRICS)
  }

  // ---- the creation input ----

  function EffectiveMode(mode: Mode, query: string, caption: string, lyrics: string): Mode {
    var idea, brief := !IsBlank(query), !IsBlank(caption) || !IsBlank(lyrics);
    if mode == FromIdea && !idea && brief then FromBrief
    else if mode == FromBrief && !brief && idea then FromIdea
    else mode
  }

  /** `creation_input`: freeze what one job will render from. */
  function CreationInput(plan: Plan, action: Action, override: Option<Mode>): Intent {
    var caption, lyrics := OrEmpty(plan.values.caption), OrEmpty(plan.values.lyrics);
    var mode :=
      if action == Generate then EffectiveMode(override.GetOr(plan.mode), plan.query, caption, lyrics)
      else FromBrief;
    Intent(action, mode, plan.query, plan.values.(caption := Text(caption), lyrics := Text(lyrics)),
           plan.instrumental, plan.captionRewrite, plan.origins, plan.revision, plan.preset, None)
  }

  // ---- validation ----

  /** The rendered form of a field's value, or `None` where it cannot render. */
  function Canonical(f: Field, v: Value): Option<Value> {
    match f
    case Caption => Some(Text(OrEmpty(v)))
    case Lyrics => Some(Text(NormalizedLines(OrEmpty(v))))
    case _ => if IsUnset(f, v) then Some(v) else CanonicalMeta(f, v)
  }

  function CanonicalMeta(f: Field, v: Value): Option<Value> {
    match f
    case Bpm => if v.Whole? && BPM_MIN <= v.n <= BPM_MAX then Some(v) else None
    case DurationSec =>
      if (v.Whole? && DURATION_MIN <= v.n <= DURATION_MAX)
         || (v.Frac? && DURATION_MIN as real <= v.x <= DURATION_MAX as real)
      then Some(v) else None
    case Keyscale =>
      var key := ParseKeyscale(Show(v));
      if key.Some? then Some(Text(key.value)) else None
    case Timesignature =>
      if Strip(Show(v)) in TIME_SIGNATURES then Some(Text(Strip(Show(v)))) else None
    case VocalLanguage =>
      if Lower(Strip(Show(v))) in VALID_LANGUAGES then Some(Text(Lower(Strip(Show(v))))) else None
    case _ => Some(v)
  }

  /** Instrumental with words in the lyrics. */
  predicate Conflicts(i: Intent) {
    var lyrics := NormalizedLines(OrEmpty(i.values.lyrics));
    i.instrumental && !IsBlank(lyrics) && !IsPlaceholder(lyrics)
  }

  predicate Renders(f: Field, values: Values) {
    Canonical(f, values.Get(f)).Some?
  }

  /** The first meta that cannot render, in the order they are checked. */
  function FirstInvalid(values: Values): Option<Field> {
    if !Renders(Bpm, values) then Some(Bpm)
    else if !Renders(DurationSec, values) then Some(DurationSec)
    else if !Renders(Keyscale, values) then Some(Keyscale)
    else if !Renders(Timesignature, values) then Some(Timesignature)
    else if !Renders(VocalLanguage, values) then Some(VocalLanguage)
    else None
  }

  function Render(f: Field, values: Values): Value {
    Canonical(f, values.Get(f)).GetOr(values.Get(f))
  }

  function Rendered(values: Values): Values {
    PerField(Render(Caption, values), Render(Lyrics, values), Render(VocalLanguage, values),
             Render(Bpm, values), Render(Keyscale, values), Render(Timesignature, values),
             Render(DurationSec, values))
  }

  /** What `validate_creation` returns or raises. */
  function Validated(i: Intent): Result<Intent, BriefError> {
    if i.action != Generate then Ok(i)
    else if Conflicts(i) then Err(InstrumentalLyricsConflict)
    else match FirstInvalid(i.values)
      case Some(f) => Err(InvalidMeta(f))
      case None => Ok(i.(
        values := Rendered(i.values),
        mode := if IsBlank(i.query) then FromBrief else i.mode,
        lyricsOriginal :=
          if NormalizedLines(OrEmpty(i.values.lyrics)) != OrEmpty(i.values.lyrics)
          then Some(OrEmpty(i.values.lyrics)) else i.lyricsOriginal))
  }

  // What can be rendered, field by field.

  predicate BpmRenders(v: Value) {
    IsUnset(Bpm, v) || (v.Whole? && 30 <= v.n <= 300)
  }

  predicate DurationRenders(v: Value) {
    IsUnset(DurationSec, v) || (v.Whole? && 10 <= v.n <= 600) || (v.Frac? && 10.0 <= v.x <= 600.0)
  }

  predicate KeyRenders(v: Value) {
    IsUnset(Keyscale, v) || ParseKeyscale(Show(v)).Some?
  }

  predicate MeterRenders(v: Value) {
    IsUnset(Timesignature, v)
    || Strip(Show(v)) == "2" || Strip(Show(v)) == "3" || Strip(Show(v)) == "4" || Strip(Show(v)) == "6"
    || Strip(Show(v)) == "2/4" || Strip(Show(v)) == "3/4" || Strip(Show(v)) == "4/4" || Strip(Show(v)) == "6/8"
  }

  predicate LanguageRenders(v: Value) {
    IsUnset(VocalLanguage, v) || Lower(Strip(Show(v))) in VALID_LANGUAGES
  }

  /** Instrumental, and lyrics that are words: neither blank nor the placeholder. */
  predicate SingsInstrumental(i: Intent, lyrics: string) {
    i.instrumental && !IsBlank(lyrics) && Lower(Strip(lyrics)) != "[instrumental]"
  }

  /** The first complaint about a generate, in the order they are checked. */
  function Complaint(i: Intent, lyrics: string): Option<BriefError> {
    if SingsInstrumental(i, lyrics) then Some(InstrumentalLyricsConflict)
    else if !BpmRenders(i.values.bpm) then Some(InvalidMeta(Bpm))
    else if !DurationRenders(i.values.durationSec) then Some(InvalidMeta(DurationSec))
    else if !KeyRenders(i.values.keyscale) then Some(InvalidMeta(Keyscale))
    else if !MeterRenders(i.values.timesignature) then Some(InvalidMeta(Timesignature))
    else if !LanguageRenders(i.values.vocalLanguage) then Some(InvalidMeta(VocalLanguage))
    else None
  }

  /** What is rewritten of an accepted generate: line endings, the spelling of key, meter and language,
      and the mode of an intent without an idea. Nothing else is. */
  predicate RewrittenTo(i: Intent, v: Intent, lyrics: string) {
    && v == i.(values := v.values, mode := v.mode, lyricsOriginal := v.lyricsOriginal)
    && v.mode == (if IsBlank(i.query) then FromBrief else i.mode)
    && v.values.caption == i.values.caption && v.values.lyrics == Text(NormalizedLines(lyrics))
    && v.lyricsOriginal == (if NormalizedLines(lyrics) != lyrics then Some(lyrics) else i.lyricsOriginal)
    && v.values.bpm == i.values.bpm && v.values.durationSec == i.values.durationSec
    && v.values.keyscale == (if IsUnset(Keyscale, i.values.keyscale) then i.values.keyscale
                             else Text(ParseKeyscale(Show(i.values.keyscale)).GetOr("")))
    && v.values.timesignature == (if IsUnset(Timesignature, i.values.timesignature) then i.values.timesignature
                                  else Text(Strip(Show(i.values.timesignature))))
    && v.values.vocalLanguage == (if IsUnset(VocalLanguage, i.values.vocalLanguage) then i.values.vocalLanguage
                                  else Text(Lower(Strip(Show(i.values.vocalLanguage)))))
  }

  lemma PlaceholderInLower()
    ensures Lower(INSTRUMENTAL_LYRICS) == "[instrumental]"
  {
  }

  lemma MetersAre(s: string)
    ensures s in TIME_SIGNATURES <==>
      s == "2" || s == "3" || s == "4" || s == "6" || s == "2/4" || s == "3/4" || s == "4/4" || s == "6/8"
  {
    assert TIME_SIGNATURES[0] == "2" && TIME_SIGNATURES[1] == "3" && TIME_SIGNATURES[2] == "4";
    assert TIME_SIGNATURES[3] == "6" && TIME_SIGNATURES[4] == "2/4" && TIME_SIGNATURES[5] == "3/4";
    assert TIME_SIGNATURES[6] == "4/4" && TIME_SIGNATURES[7] == "6/8";
  }

  lemma MetaRenders(values: Values)
    ensures Renders(Bpm, values) <==> BpmRenders(values.bpm)
    ensures Renders(DurationSec, values) <==> DurationRenders(values.durationSec)
    ensures Renders(Keyscale, values) <==> KeyRenders(values.keyscale)
    ensures Renders(Timesignature, values) <==> MeterRenders(values.timesignature)
    ensures Renders(VocalLanguage, values) <==> LanguageRenders(values.vocalLanguage)
  {
    MetersAre(Strip(Show(values.timesignature)));
    hide IsUnset, Strip, Lower, Show, ParseKeyscale, TIME_SIGNATURES, VALID_LANGUAGES;
  }

  lemma AcceptedIsRewritten(i: Intent)
    requires i.action == Generate && i.values.caption.Text? && i.values.lyrics.Text? && Validated(i).Ok?
    ensures RewrittenTo(i, Validated(i).value, i.values.lyrics.text)
  {
    hide IsUnset, Strip, Lower, Show, ParseKeyscale, NormalizedLines, IsBlank, Conflicts, TIME_SIGNATURES, VALID_LANGUAGES;
    LyricsAreNormalized(i.values, i.values.lyrics.text);
  }

  /** Only a generate is checked; it is refused for its first complaint, or accepted as rewritten. */
  predicate ComplainsOrRewrites(i: Intent, lyrics: string, r: Result<Intent, BriefError>) {
    if i.action != Generate then r == Ok(i)
    else
      var complaint := Complaint(i, NormalizedLines(lyrics));
      if complaint.Some? then r == Err(complaint.value) else r.Ok? && RewrittenTo(i, r.value, lyrics)
  }

  lemma ValidatedMeans(i: Intent)
    requires i.values.caption.Text? && i.values.lyrics.Text?
    ensures ComplainsOrRewrites(i, i.values.lyrics.text, Validated(i))
  {
    PlaceholderInLower();
    MetaRenders(i.values);
    if i.action == Generate && Validated(i).Ok? {
      AcceptedIsRewritten(i);
    }
    hide Lower, Strip, NormalizedLines, Renders, Rendered, RewrittenTo, IsBlank;
    hide BpmRenders, DurationRenders, KeyRenders, MeterRenders, LanguageRenders;
  }

  /** `validate_creation`, field by field. Its caption and lyrics are texts. */
  method ValidateCreation(intent: Intent) returns (r: Result<Intent, BriefError>)
    requires intent.values.caption.Text? && intent.values.lyrics.Text?
    ensures r == Validated(intent)
    ensures ComplainsOrRewrites(intent, intent.values.lyrics.text, r)
  {
    ValidatedMeans(intent);
    hide Renders, Render, OrEmpty, IsBlank, NormalizedLines, IsPlaceholder, ComplainsOrRewrites;
    if intent.action != Generate {
      return Ok(intent);
    }
    var values, rendered := intent.values, intent.values;
    var lyrics, original, mode := values.lyrics.text, intent.lyricsOriginal, intent.mode;
    var normalized := NormalizedLines(lyrics);
    LyricsAreNormalized(values, lyrics);
    if normalized != lyrics {
      original := Some(lyrics);
      rendered := rendered.(lyrics := Text(normalized));
    }
    if mode == FromIdea && IsBlank(intent.query) {
      mode := FromBrief;
    }
    if intent.instrumental && !IsBlank(normalized) && !IsPlaceholder(normalized) {
      return Err(InstrumentalLyricsConflict);
    }
    if !Renders(Bpm, values) {
      return Err(InvalidMeta(Bpm));
    }
    rendered := rendered.(bpm := Render(Bpm, values));
    if !Renders(DurationSec, values) {
      return Err(InvalidMeta(DurationSec));
    }
    rendered := rendered.(durationSec := Render(DurationSec, values));
    if !Renders(Keyscale, values) {
      return Err(InvalidMeta(Keyscale));
    }
    rendered := rendered.(keyscale := Render(Keyscale, values));
    if !Renders(Timesignature, values) {
      return Err(InvalidMeta(Timesignature));
    }
    rendered := rendered.(timesignature := Render(Timesignature, values));
    if !Renders(VocalLanguage, values) {
      return Err(InvalidMeta(VocalLanguage));
    }
    rendered := rendered.(vocalLanguage := Render(VocalLanguage, values));
    assert rendered == Rendered(values);
    return Ok(intent.(values := rendered, mode := mode, lyricsOriginal := original));
  }

  lemma LyricsAreNormalized(values: Values, lyrics: string)
    requires values.caption.Text? && values.lyrics == Text(lyrics)
    ensures Render(Caption, values) == values.caption && Render(Lyrics, values) == Text(NormalizedLines(lyrics))
    ensures OrEmpty(values.lyrics) == lyrics
  {
  }

  // ---- validation as a projection ----

  /** Nothing left to reject or to rewrite. */
  predicate IsCanonical(i: Intent) {
    i.action == Generate ==>
      && !Conflicts(i)
      && (forall f: Field :: Canonical(f, i.values.Get(f)) == Some(i.values.Get(f)))
      && (IsBlank(i.query) ==> i.mode == FromBrief)
  }

  lemma LowerKeepsStripped(s: string)
    requires IsStripped(s)
    ensures Strip(Lower(s)) == Lower(s)
  {
    assert IsStripped(Lower(s));
    StripStrips(Lower(s));
  }

  lemma CanonicalIsStable(f: Field, v: Value)
    requires Canonical(f, v).Some?
    ensures Canonical(f, Canonical(f, v).value) == Canonical(f, v)
  {
    hide Strip, Lower, NormalizedLines, ParseKeyscale, TIME_SIGNATURES, VALID_LANGUAGES;
    var s := Show(v);
    match f
    case Lyrics => NormalizationKeepsLines(OrEmpty(v));
    case Keyscale => ParseKeyscaleIsProjection(s);
    case Timesignature => StripsTwice(s);
    case VocalLanguage =>
      StripsTwice(s);
      LowersStripped(Strip(s));
    case _ =>
  }

  lemma StripsTwice(s: string)
    ensures Strip(Strip(s)) == Strip(s)
  {
    StripStrips(s);
    StripStrips(Strip(s));
  }

  lemma LowersStripped(s: string)
    requires Strip(s) == s
    ensures Lower(Strip(Lower(s))) == Lower(s)
  {
    StripStrips(s);
    LowerKeepsStripped(s);
    LowerIsIdempotent(s);
  }

  lemma RenderedIsStable(values: Values, f: Field)
    requires FirstInvalid(values).None?
    ensures Canonical(f, Rendered(values).Get(f)) == Some(Rendered(values).Get(f))
  {
    hide CanonicalMeta, IsUnset, OrEmpty, NormalizedLines;
    AllRender(values, f);
    CanonicalIsStable(f, values.Get(f));
    assert Rendered(values).Get(f) == Render(f, values);
  }

  lemma AllRender(values: Values, f: Field)
    requires FirstInvalid(values).None?
    ensures Renders(f, values)
  {
    hide CanonicalMeta, IsUnset, OrEmpty, NormalizedLines;
  }

  lemma NormalizedStillNoConflict(i: Intent, v: Intent)
    requires !Conflicts(i) && v.instrumental == i.instrumental
    requires v.values.lyrics == Text(NormalizedLines(OrEmpty(i.values.lyrics)))
    ensures !Conflicts(v)
  {
    hide NormalizedLines, IsBlank, IsPlaceholder;
    NormalizationKeepsLines(OrEmpty(i.values.lyrics));
  }

  lemma CanonicalIsRendered(values: Values)
    requires forall f: Field :: Canonical(f, values.Get(f)) == Some(values.Get(f))
    ensures FirstInvalid(values).None? && Rendered(values) == values
    ensures values.lyrics == Text(NormalizedLines(OrEmpty(values.lyrics)))
  {
    hide CanonicalMeta, IsUnset, OrEmpty, NormalizedLines;
    forall f: Field
      ensures Renders(f, values) && Render(f, values) == values.Get(f)
    {
    }
    assert Canonical(Lyrics, values.Get(Lyrics)) == Some(values.Get(Lyrics));
  }

  lemma CanonicalIsValidated(i: Intent)
    requires IsCanonical(i)
    ensures Validated(i) == Ok(i)
  {
    if i.action == Generate {
      hide Canonical, Conflicts, NormalizedLines, IsBlank, FirstInvalid, Rendered;
      CanonicalIsRendered(i.values);
    }
  }

  lemma ValidatedIsCanonical(i: Intent)
    requires i.action == Generate && Validated(i).Ok?
    ensures IsCanonical(Validated(i).value)
  {
    hide Canonical, Conflicts, NormalizedLines, IsBlank, FirstInvalid, OrEmpty;
    var v := Validated(i).value;
    forall f: Field
      ensures Canonical(f, v.values.Get(f)) == Some(v.values.Get(f))
    {
      RenderedIsStable(i.values, f);
    }
    RenderedLyrics(i.values);
    NormalizedStillNoConflict(i, v);
  }

  lemma RenderedLyrics(values: Values)
    ensures Rendered(values).lyrics == Text(NormalizedLines(OrEmpty(values.lyrics)))
  {
    hide CanonicalMeta, IsUnset, OrEmpty, NormalizedLines;
  }

  /** What validation accepts is canonical, and it leaves the canonical alone: validating twice is
      validating once. */
  lemma ValidationIsProjection(i: Intent)
    ensures Validated(i).Ok? ==> IsCanonical(Validated(i).value) && Validated(Validated(i).value) == Validated(i)
    ensures IsCanonical(i) <==> Validated(i) == Ok(i)
  {
    hide Canonical, Conflicts, NormalizedLines, FirstInvalid, Rendered;
    if i.action == Generate && Validated(i).Ok? {
      ValidatedIsCanonical(i);
      CanonicalIsValidated(Validated(i).value);
    }
    if IsCanonical(i) {
      CanonicalIsValidated(i);
    }
  }

  // ---- what an accepted submission renders ----

  lemma AcceptedIsRendered(raw: Intent, i: Intent)
    requires raw.action == Generate && Validated(raw) == Ok(i)
    ensures FirstInvalid(raw.values).None? && i.values == Rendered(raw.values) && i.origins == raw.origins
  {
    hide Conflicts, FirstInvalid, Rendered, NormalizedLines, IsBlank, OrEmpty;
  }

  lemma RenderedField(values: Values, f: Field)
    ensures Rendered(values).Get(f) == Render(f, values)
  {
    hide Render;
  }

  /** Freezing a draft changes nothing about how a field renders. */
  lemma InputRenders(p: Plan, action: Action, override: Option<Mode>, f: Field)
    ensures Canonical(f, CreationInput(p, action, override).values.Get(f)) == Canonical(f, p.values.Get(f))
  {
    hide NormalizedLines, CanonicalMeta, IsUnset, EffectiveMode, Show;
  }

  lemma AcceptedField(p: Plan, override: Option<Mode>, i: Intent, f: Field)
    requires Validated(CreationInput(p, Generate, override)) == Ok(i)
    ensures Canonical(f, p.values.Get(f)) == Some(i.values.Get(f)) && i.origins == p.origins
  {
    var raw := CreationInput(p, Generate, override);
    assert raw.action == Generate && raw.origins == p.origins;
    hide CreationInput, Validated, Canonical, FirstInvalid, Rendered;
    AcceptedIsRendered(raw, i);
    AllRender(raw.values, f);
    RenderedField(raw.values, f);
    InputRenders(p, Generate, override, f);
  }
}
