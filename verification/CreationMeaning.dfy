/** What the records that pass between draft, planner and renderer say, in terms of the fields they are
    made from. */
module CreationMeaning {
  import opened Common
  import opened CreationTypes
  import opened CreationText
  import opened CreationBrief
  import opened CreationPlanner

  // ---- unset, and text ----

  /** A field is unset when it is null, or a text of blanks, or a language that says `unknown`. */
  lemma UnsetIff(f: Field, v: Value)
    ensures IsUnset(f, v) <==>
      v.Null? || (v.Text? && (AllSpace(v.text) || (f == VocalLanguage && Lower(Strip(v.text)) == "unknown")))
  {
    hide Lower, Strip, AllSpace;
    if v.Text? {
      BlankMeansAllSpace(v.text);
    }
  }

  function ValueOf(digits: string): int {
    if digits == "" then 0
    else ValueOf(digits[..|digits| - 1]) * 10 + (digits[|digits| - 1] as int - '0' as int)
  }

  /** A whole number is shown in its decimal digits, without a leading zero. */
  lemma {:induction false} DecimalReadsBack(n: nat)
    ensures forall c | c in Decimal(n) :: '0' <= c <= '9'
    ensures ValueOf(Decimal(n)) == n && Decimal(n) != "" && (n > 0 ==> Decimal(n)[0] != '0')
  {
    if n >= 10 {
      DecimalReadsBack(n / 10);
      var s := Decimal(n);
      LastDigit(n % 10);
      assert Decimal(n % 10) == [(n % 10 + '0' as int) as char];
      assert s[..|s| - 1] == Decimal(n / 10);
    } else {
      LastDigit(n);
    }
  }

  lemma LastDigit(n: nat)
    requires n < 10
    ensures ((n + '0' as int) as char) as int - '0' as int == n
  {
  }

  // ---- the frozen input ----

  /** What one job is frozen from: the mode is the one asked for, or else the draft's, unless it has
      nothing to work from and the other one has; everything else is the draft's. */
  lemma InputIsTheDrafts(p: Plan, action: Action, override: Option<Mode>)
    ensures var i := CreationInput(p, action, override);
      && i.action == action && i.query == p.query && i.instrumental == p.instrumental
      && i.captionRewrite == p.captionRewrite && i.origins == p.origins && i.preset == p.preset
      && i.planRevision == p.revision && i.lyricsOriginal.None?
      && i.values.caption == Text(OrEmpty(p.values.caption)) && i.values.lyrics == Text(OrEmpty(p.values.lyrics))
      && (forall f: Field | IsMeta(f) :: i.values.Get(f) == p.values.Get(f))
    ensures action != Generate ==> CreationInput(p, action, override).mode == FromBrief
    ensures action == Generate ==>
      var asked := if override.Some? then override.value else p.mode;
      var idea := !IsBlank(p.query);
      var words := !IsBlank(OrEmpty(p.values.caption)) || !IsBlank(OrEmpty(p.values.lyrics));
      CreationInput(p, action, override).mode == if idea == words then asked else if idea
        then (if asked == FromBrief then FromIdea else asked)
        else (if asked == FromIdea then FromBrief else asked)
  {
    hide IsBlank, OrEmpty;
  }

  // ---- the planner request ----

  /** Words of the intent that no planner and no default put there. */
  predicate OwnWords(i: Intent, f: Field) {
    && (i.origins.Get(f) == User || i.origins.Get(f) == Preset || i.origins.Get(f) == Unknown)
    && !IsBlank(OrEmpty(i.values.Get(f)))
    && !(f == Lyrics && Lower(Strip(OrEmpty(i.values.Get(f)))) == "[instrumental]")
  }

  lemma OwnWordsAreUserText(i: Intent, f: Field)
    requires f == Caption || f == Lyrics
    ensures UserText(i, f) == if OwnWords(i, f) then OrEmpty(i.values.Get(f)) else ""
    ensures OwnWords(i, f) <==> UserText(i, f) != ""
  {
    PlaceholderInLower();
    BlankMeansAllSpace("");
    hide IsBlank, Lower, Strip;
  }

  /** Which planner runs and what it is told. Only a generate from an idea is planned. With lyrics of
      its own it is formatted: those lyrics, its own caption or else the idea, and exactly the metas a
      user or a preset has set. Without, it is sampled from the idea and the language, if one is set. */
  lemma RequestSaysWhatIsSet(i: Intent)
    ensures RequestOf(i).None? <==> i.action != Generate || i.mode != FromIdea
    ensures RequestOf(i).Some? && OwnWords(i, Lyrics) ==>
      && var q := RequestOf(i).value;
      && q.FormatSample? && q.lyrics == OrEmpty(i.values.lyrics)
      && q.caption == (if OwnWords(i, Caption) then OrEmpty(i.values.caption) else i.query)
      && forall f: Field ::
           && (f in q.metadata <==>
                IsMeta(f) && (i.origins.Get(f) == User || i.origins.Get(f) == Preset) && !IsUnset(f, i.values.Get(f)))
           && (f in q.metadata ==> q.metadata[f] == i.values.Get(f))
    ensures RequestOf(i).Some? && !OwnWords(i, Lyrics) ==>
      RequestOf(i).value == CreateSample(i.query, i.instrumental,
        if IsUnset(VocalLanguage, i.values.vocalLanguage) then None else Some(i.values.vocalLanguage))
  {
    OwnWordsAreUserText(i, Lyrics);
    OwnWordsAreUserText(i, Caption);
    hide OwnWords, UserText, IsUnset;
  }

  // ---- the brief ----

  /** Without planning a brief is the intent: every value under its own origin, but that an instrumental
      without lyrics has the placeholder for them. */
  lemma UnplannedIsTheIntent(i: Intent)
    ensures var b := Unplanned(i);
      && b.mode == i.mode && b.query == i.query && b.instrumental == i.instrumental && b.captionRewrite == i.captionRewrite
      && b.origins == i.origins && b.planner == None && b.preset == i.preset && b.lyricsOriginal == i.lyricsOriginal
      && (forall f: Field | f != Lyrics :: b.values.Get(f) == i.values.Get(f))
      && b.values.lyrics == if i.instrumental && IsBlank(OrEmpty(i.values.lyrics)) then Text("[Instrumental]")
                            else i.values.lyrics
  {
    hide IsBlank, OrEmpty;
  }

  /** The content hash tells two briefs apart exactly when they differ in what they render: values,
      origins, mode, the two switches, or in having been planned. */
  lemma ContentIsWhatIsRendered(b: Brief, b': Brief)
    ensures ContentOf(b) == ContentOf(b') <==>
      && b.values == b'.values && b.origins == b'.origins && b.mode == b'.mode
      && b.instrumental == b'.instrumental && b.captionRewrite == b'.captionRewrite
      && (b.planner.Some? <==> b'.planner.Some?)
  {
  }

  // ---- what is rendered ----

  /** A set meta is rendered as it is, an unset one as what leaves the choice to ACE-Step, and the
      words as they are. */
  lemma CreativeIsTheBriefs(b: Brief)
    ensures var c := CreativeOf(b);
      && c.caption == OrEmpty(b.values.caption) && c.lyrics == OrEmpty(b.values.lyrics)
      && c.instrumental == b.instrumental
      && (!IsUnset(Bpm, b.values.bpm) ==> c.bpm == b.values.bpm)
      && (!IsUnset(Keyscale, b.values.keyscale) ==> c.keyscale == b.values.keyscale)
      && (!IsUnset(DurationSec, b.values.durationSec) ==> c.duration == b.values.durationSec)
      && (!IsUnset(VocalLanguage, b.values.vocalLanguage) ==> c.vocalLanguage == b.values.vocalLanguage)
      && (!IsUnset(Timesignature, b.values.timesignature) && b.values.timesignature.Text? ==>
            c.timesignature == b.values.timesignature)
      && (IsUnset(Bpm, b.values.bpm) ==> c.bpm == Null)
      && (IsUnset(Keyscale, b.values.keyscale) ==> c.keyscale == Text(""))
      && (IsUnset(DurationSec, b.values.durationSec) ==> c.duration == Null)
      && (IsUnset(VocalLanguage, b.values.vocalLanguage) ==> c.vocalLanguage == Text("unknown"))
      && (IsUnset(Timesignature, b.values.timesignature) ==> c.timesignature == Text(""))
  {
    hide IsUnset, OrEmpty;
  }

  /** When the LM runs: it thinks for an idea, for words a planner wrote and for a rewrite asked for,
      but not for a meta a planner filled; it may write a caption only where there is none or a
      rewrite of one that is not the planner's was asked for; and it fills in only what is unset. */
  lemma FlagsSayWhatIsLeft(b: Brief)
    ensures FlagsOf(b).thinking <==>
      || b.mode == FromIdea || b.planner.Some? || b.captionRewrite
      || b.origins.caption == Planner || b.origins.lyrics == Planner
    ensures FlagsOf(b).useCotCaption <==>
      IsBlank(OrEmpty(b.values.caption)) || (b.captionRewrite && b.origins.caption != Planner)
    ensures FlagsOf(b).useCotLanguage <==> !b.instrumental && IsUnset(VocalLanguage, b.values.vocalLanguage)
    ensures FlagsOf(b).useCotMetas <==>
      exists f: Field :: f != VocalLanguage && IsMeta(f) && IsUnset(f, b.values.Get(f))
  {
    hide IsUnset, IsBlank, OrEmpty;
    assert IsUnset(Bpm, b.values.bpm) ==> IsUnset(Bpm, b.values.Get(Bpm));
    assert IsUnset(Keyscale, b.values.keyscale) ==> IsUnset(Keyscale, b.values.Get(Keyscale));
    assert IsUnset(Timesignature, b.values.timesignature) ==> IsUnset(Timesignature, b.values.Get(Timesignature));
    assert IsUnset(DurationSec, b.values.durationSec) ==> IsUnset(DurationSec, b.values.Get(DurationSec));
  }

  /** A complete brief written by hand is rendered without the LM, so that a fixed seed reproduces it. */
  lemma HandWrittenNeedsNoLm(b: Brief)
    requires b.mode == FromBrief && b.planner.None? && !b.captionRewrite
    requires b.origins.caption != Planner && b.origins.lyrics != Planner && !IsBlank(OrEmpty(b.values.caption))
    requires forall f: Field | IsMeta(f) :: !IsUnset(f, b.values.Get(f))
    ensures FlagsOf(b) == RenderFlags(false, false, false, false)
  {
    FlagsSayWhatIsLeft(b);
    assert !IsUnset(VocalLanguage, b.values.Get(VocalLanguage));
    hide IsUnset, IsBlank, OrEmpty;
  }

  // ---- back into the draft ----

  /** The merge gives the draft the planner's fields under their origins, and the placeholder of an
      instrumental; everything else of the draft stands, but it is now written, one revision on. */
  lemma MergeGivesWhatWasPlanned(p: Plan, b: Brief, job: nat, f: Field)
    requires b.planner.Some?
    ensures var p' := Merged(p, PatchOf(b, job).value);
      && p'.query == p.query && p'.instrumental == p.instrumental && p'.captionRewrite == p.captionRewrite
      && p'.preset == p.preset && p'.mode == FromBrief && p'.revision == p.revision + 1
      && p'.brief == Some(PlanBrief(b.query, b.planner.value, ContentOf(b), job))
      && if b.origins.Get(f) == Planner
            || (f == Lyrics && b.instrumental && b.origins.lyrics == Default
                && Lower(Strip(OrEmpty(b.values.lyrics))) == "[instrumental]")
         then p'.values.Get(f) == b.values.Get(f) && p'.origins.Get(f) == b.origins.Get(f)
         else p'.values.Get(f) == p.values.Get(f) && p'.origins.Get(f) == p.origins.Get(f)
  {
    PlaceholderInLower();
    var patch := PatchOf(b, job).value;
    OverlayGets(p.values, patch.values, f);
    OverlayGets(p.origins, patch.origins, f);
    hide Lower, Strip, OrEmpty, Overlay;
  }

  // ---- keys ----

  /** How a key may be written: a note, an accidental or none, blanks, and a mode. */
  predicate Spells(s: string, note: char, accidental: string, rest: string) {
    && s == [note] + accidental + rest
    && ('A' <= note <= 'G' || 'a' <= note <= 'g')
    && (accidental == "" || accidental == "#" || accidental == "b" || accidental == "\U{266F}" || accidental == "\U{266D}")
    && (accidental == "" ==> rest == "" || rest[0] !in ['#', 'b', '\U{266F}', '\U{266D}'])
  }

  predicate SpellsMinor(mode: string) {
    mode == "m" || Lower(mode) == "min" || Lower(mode) == "minor"
  }

  predicate SpellsMajor(mode: string) {
    Lower(mode) == "" || Lower(mode) == "maj" || Lower(mode) == "major"
  }

  function UpperCase(note: char): char {
    if note == 'a' then 'A' else if note == 'b' then 'B' else if note == 'c' then 'C' else if note == 'd' then 'D'
    else if note == 'e' then 'E' else if note == 'f' then 'F' else if note == 'g' then 'G' else note
  }

  /** Every such spelling is read as that key, and nothing else is a key. `A` and `Am` are A major and
      A minor; an upper-case `M` is neither. */
  lemma KeyIsReadAsSpelled(value: string, note: char, accidental: string, rest: string)
    requires Spells(Strip(value), note, accidental, rest)
    ensures ParseKeyscale(value) ==
      if SpellsMajor(Strip(rest)) then Some([UpperCase(note)] + accidental + " major")
      else if SpellsMinor(Strip(rest)) then Some([UpperCase(note)] + accidental + " minor")
      else None
  {
    hide Strip;
    var s := Strip(value);
    assert s[0] == note;
    var found := if |s| > 1 && IsAccidental(s[1]) then s[1..2] else "";
    if accidental == "" {
      assert s[1..] == rest && (|s| > 1 ==> s[1] == rest[0]);
    } else {
      assert s[1..2] == accidental && s[2..] == rest && s[1] == accidental[0];
    }
    assert found == accidental && s[1 + |found|..] == rest;
    UpperNoteIs(note);
    ModeIs(Strip(rest));
    hide ModeOf, SpellsMajor, SpellsMinor;
    var head := [UpperCase(note)] + accidental;
    assert head + " " + "major" == head + " major" && head + " " + "minor" == head + " minor";
  }

  lemma ModeIs(mode: string)
    ensures ModeOf(mode) ==
      if SpellsMajor(mode) then Some("major") else if SpellsMinor(mode) then Some("minor") else None
  {
    hide Lower;
    var names, names' := ["", "maj", "major"], ["min", "minor"];
    assert names[0] == "" && names[1] == "maj" && names[2] == "major";
    assert names'[0] == "min" && names'[1] == "minor";
  }

  lemma UpperNoteIs(note: char)
    requires IsNote(note)
    ensures UpperNote(note) == UpperCase(note)
  {
  }

  lemma NoKeyWithoutNote(value: string)
    requires Strip(value) == "" || !('A' <= Strip(value)[0] <= 'G' || 'a' <= Strip(value)[0] <= 'g')
    ensures ParseKeyscale(value) == None
  {
    hide Strip;
  }
}
