/** The records of the creation contract: plan drafts, the creation input frozen at
    enqueue (an intent), and the resolved brief. */
module CreationTypes {
  import opened Common

  /** The seven tracked fields of a plan. */
  datatype Field = Caption | Lyrics | VocalLanguage | Bpm | Keyscale | Timesignature | DurationSec

  /** In the order every loop over them visits. */
  const TRACKED_FIELDS: seq<Field> :=
    [Caption, Lyrics, VocalLanguage, Bpm, Keyscale, Timesignature, DurationSec]

  /** One `T` for each tracked field. */
  datatype PerField<+T> = PerField(
    caption: T, lyrics: T, vocalLanguage: T, bpm: T, keyscale: T, timesignature: T, durationSec: T)
  {
    function Get(f: Field): T {
      match f
      case Caption => caption
      case Lyrics => lyrics
      case VocalLanguage => vocalLanguage
      case Bpm => bpm
      case Keyscale => keyscale
      case Timesignature => timesignature
      case DurationSec => durationSec
    }
  }

  /** `p` with the entry of `f` replaced. */
  function Put<T>(p: PerField<T>, f: Field, v: T): PerField<T> {
    match f
    case Caption => p.(caption := v)
    case Lyrics => p.(lyrics := v)
    case VocalLanguage => p.(vocalLanguage := v)
    case Bpm => p.(bpm := v)
    case Keyscale => p.(keyscale := v)
    case Timesignature => p.(timesignature := v)
    case DurationSec => p.(durationSec := v)
  }

  function All<T>(v: T): PerField<T> {
    PerField(v, v, v, v, v, v, v)
  }

  datatype Origin = User | Planner | Preset | Default | Unknown

  datatype Mode = FromIdea | FromBrief

  datatype Action = Generate | Cover | Repaint | Extract | Lego | Complete

  /** A JSON value, as far as a tracked field can hold one; a float carries the text Python prints for it. */
  datatype Value = Null | Text(text: string) | Whole(n: int) | Frac(x: real, repr: string) | Flag(b: bool)

  type Values = PerField<Value>
  type Origins = PerField<Origin>

  datatype PresetRef = PresetRef(id: string, version: nat)

  /** `lyre.creation/1`: what one job renders from. */
  datatype Intent = Intent(
    action: Action, mode: Mode, query: string, values: Values, instrumental: bool,
    captionRewrite: bool, origins: Origins, planRevision: nat, preset: Option<PresetRef>,
    lyricsOriginal: Option<string>)

  /** `lyre.brief/1`: the intent after any planning. `planner` names the planner that ran. */
  datatype Brief = Brief(
    mode: Mode, query: string, values: Values, instrumental: bool, captionRewrite: bool,
    origins: Origins, planner: Option<string>, preset: Option<PresetRef>,
    lyricsOriginal: Option<string>)

  /** What a content hash covers. The hash is taken to be injective: this record stands for it. */
  datatype Content = Content(
    values: Values, instrumental: bool, captionRewrite: bool, origins: Origins, mode: Mode, planned: bool)

  /** `lyre.plan-brief/1`: which planned render a draft shows. */
  datatype PlanBrief = PlanBrief(sourceQuery: string, planner: string, contentHash: Content, job: nat)

  /** The editable draft: `plan.json`, as every read normalizes it. */
  datatype Plan = Plan(
    query: string, values: Values, instrumental: bool, captionRewrite: bool, mode: Mode,
    origins: Origins, revision: nat, brief: Option<PlanBrief>, preset: Option<PresetRef>)

  /** What a planned render merges into the draft. */
  datatype Patch = Patch(values: map<Field, Value>, origins: map<Field, Origin>, brief: PlanBrief)

  /** Which planner runs, and what it is told. */
  datatype PlannerRequest =
    | CreateSample(query: string, instrumental: bool, language: Option<Value>)
    | FormatSample(caption: string, lyrics: string, metadata: map<Field, Value>)

  datatype BriefError = InstrumentalLyricsConflict | InvalidMeta(field: Field)

  /** The LM switches of `generate_music`. */
  datatype RenderFlags = RenderFlags(
    thinking: bool, useCotCaption: bool, useCotLanguage: bool, useCotMetas: bool)

  /** The creative half of the generation parameters. */
  datatype Creative = Creative(
    caption: string, lyrics: string, bpm: Value, keyscale: Value, duration: Value, instrumental: bool,
    vocalLanguage: Value, timesignature: Value)
}
