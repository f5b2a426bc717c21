/** The text rules of the creation contract: blanks, case, line endings and key names. */
module CreationText {
  import opened Common

  // ---- blanks and case ----

  /** `str.isspace` for one character. */
  predicate IsSpace(c: char) {
    || c == ' ' || c == '\t' || c == '\n' || c == '\r'
    || c == '\U{0B}' || c == '\U{0C}' || '\U{1C}' <= c <= '\U{1F}'
    || c == '\U{85}' || c == '\U{A0}' || c == '\U{1680}' || '\U{2000}' <= c <= '\U{200A}'
    || c == '\U{2028}' || c == '\U{2029}' || c == '\U{202F}' || c == '\U{205F}' || c == '\U{3000}'
  }

  function StripLeft(s: string): (r: string)
    ensures r != "" ==> !IsSpace(r[0])
    ensures |r| <= |s| && r == s[|s| - |r|..]
  {
    if s != "" && IsSpace(s[0]) then StripLeft(s[1..]) else s
  }

  function StripRight(s: string): (r: string)
    ensures r != "" ==> !IsSpace(r[|r| - 1])
    ensures r <= s
  {
    if s != "" && IsSpace(s[|s| - 1]) then StripRight(s[..|s| - 1]) else s
  }

  /** `str.strip`. */
  function Strip(s: string): string {
    StripRight(StripLeft(s))
  }

  /** What no strip can shorten. */
  predicate IsStripped(s: string) {
    s == "" || (!IsSpace(s[0]) && !IsSpace(s[|s| - 1]))
  }

  lemma StripStrips(s: string)
    ensures IsStripped(Strip(s))
    ensures IsStripped(s) ==> Strip(s) == s
  {
  }

  predicate IsBlank(s: string) {
    Strip(s) == ""
  }

  /** `str.lower`, exact for what it is compared with: the ASCII letters, and the Kelvin sign,
      which is the one other character whose lower case is an ASCII letter. */
  function LowerChar(c: char): char {
    if 'A' <= c <= 'Z' then (c as int + 32) as char
    else if c == '\U{212A}' then 'k'
    else c
  }

  function Lower(s: string): (r: string)
    ensures |r| == |s| && forall i | 0 <= i < |s| :: r[i] == LowerChar(s[i])
  {
    seq(|s|, i requires 0 <= i < |s| => LowerChar(s[i]))
  }

  lemma LowerIsIdempotent(s: string)
    ensures Lower(Lower(s)) == Lower(s)
  {
  }

  // ---- line endings ----

  /** `s.replace("\r\n", "\n")`. */
  function ReplaceCrLf(s: string): string {
    if |s| < 2 then s
    else if s[0] == '\r' && s[1] == '\n' then "\n" + ReplaceCrLf(s[2..])
    else [s[0]] + ReplaceCrLf(s[1..])
  }

  /** `s.replace("\r", "\n")`. */
  function ReplaceCr(s: string): (r: string)
    ensures '\r' !in r
    ensures '\r' !in s ==> r == s
  {
    if s == "" then ""
    else [if s[0] == '\r' then '\n' else s[0]] + ReplaceCr(s[1..])
  }

  function NormalizedLines(s: string): string {
    ReplaceCr(ReplaceCrLf(s))
  }

  /** The lines of a text whose lines end in LF, CR LF or CR. */
  function LinesOf(s: string): (lines: seq<string>)
    ensures |lines| > 0
  {
    if s == "" then [""]
    else if s[0] == '\n' then [""] + LinesOf(s[1..])
    else if s[0] == '\r' then [""] + LinesOf(if |s| > 1 && s[1] == '\n' then s[2..] else s[1..])
    else
      var rest := LinesOf(s[1..]);
      [[s[0]] + rest[0]] + rest[1..]
  }

  lemma {:induction false} ReplaceCrLfKeepsPlain(s: string)
    requires '\r' !in s
    ensures ReplaceCrLf(s) == s
  {
    if |s| >= 2 {
      ReplaceCrLfKeepsPlain(s[1..]);
    }
  }

  /** Normalizing leaves no CR, is idempotent, and keeps every line. */
  lemma NormalizationKeepsLines(s: string)
    ensures '\r' !in NormalizedLines(s)
    ensures NormalizedLines(NormalizedLines(s)) == NormalizedLines(s)
    ensures LinesOf(NormalizedLines(s)) == LinesOf(s)
    ensures NormalizedLines(s) == s <==> '\r' !in s
  {
    ReplaceCrLfKeepsPlain(NormalizedLines(s));
    if '\r' !in s {
      ReplaceCrLfKeepsPlain(s);
    }
    NormalizedKeepsLines(s);
  }

  lemma {:induction false} NormalizedKeepsLines(s: string)
    ensures LinesOf(ReplaceCr(ReplaceCrLf(s))) == LinesOf(s)
    decreases |s|
  {
    if |s| < 2 {
      assert |s| == 1 ==> s[1..] == "" && ReplaceCr(s) == [if s[0] == '\r' then '\n' else s[0]];
      if |s| == 1 {
        var r := ReplaceCr(s);
        assert r[1..] == "";
      }
    } else if s[0] == '\r' && s[1] == '\n' {
      NormalizedKeepsLines(s[2..]);
      var r := ReplaceCr(ReplaceCrLf(s));
      assert ReplaceCrLf(s)[1..] == ReplaceCrLf(s[2..]);
      assert r[1..] == ReplaceCr(ReplaceCrLf(s[2..]));
    } else {
      NormalizedKeepsLines(s[1..]);
      var r := ReplaceCr(ReplaceCrLf(s));
      assert ReplaceCrLf(s)[1..] == ReplaceCrLf(s[1..]);
      assert r[1..] == ReplaceCr(ReplaceCrLf(s[1..]));
    }
  }

  // ---- blanks under normalization ----

  predicate AllSpace(s: string) {
    forall i | 0 <= i < |s| :: IsSpace(s[i])
  }

  lemma {:induction false} StripLeftOfSpaces(s: string)
    ensures StripLeft(s) == "" <==> AllSpace(s)
  {
    if s != "" && IsSpace(s[0]) {
      StripLeftOfSpaces(s[1..]);
      assert s == [s[0]] + s[1..];
    }
  }

  lemma BlankMeansAllSpace(s: string)
    ensures IsBlank(s) <==> AllSpace(s)
  {
    StripLeftOfSpaces(s);
    var l := StripLeft(s);
    if l != "" {
      NotBlankFromLeft(l);
    }
  }

  lemma {:induction false} NotBlankFromLeft(s: string)
    requires s != "" && !IsSpace(s[0])
    ensures StripRight(s) != ""
  {
    if IsSpace(s[|s| - 1]) {
      NotBlankFromLeft(s[..|s| - 1]);
    }
  }

  lemma {:induction false} ReplacementsKeepSpaces(s: string)
    ensures AllSpace(ReplaceCr(s)) <==> AllSpace(s)
    ensures AllSpace(ReplaceCrLf(s)) <==> AllSpace(s)
    decreases |s|
  {
    if s != "" {
      ReplacementsKeepSpaces(s[1..]);
      assert s == [s[0]] + s[1..];
      assert ReplaceCr(s)[1..] == ReplaceCr(s[1..]);
      assert ReplaceCr(s) == [ReplaceCr(s)[0]] + ReplaceCr(s)[1..];
      if |s| > 1 && s[0] == '\r' && s[1] == '\n' {
        ReplacementsKeepSpaces(s[2..]);
        assert s == s[..2] + s[2..];
        assert ReplaceCrLf(s)[1..] == ReplaceCrLf(s[2..]);
      } else if |s| > 1 {
        assert ReplaceCrLf(s)[1..] == ReplaceCrLf(s[1..]);
      }
    }
  }

  lemma NormalizationKeepsBlank(s: string)
    ensures IsBlank(NormalizedLines(s)) <==> IsBlank(s)
  {
    ReplacementsKeepSpaces(s);
    ReplacementsKeepSpaces(ReplaceCrLf(s));
    BlankMeansAllSpace(s);
    BlankMeansAllSpace(NormalizedLines(s));
  }

  // ---- stripping under normalization ----

  /** A CR LF may not straddle the seam of `x + y`. */
  predicate SeamIsClean(x: string, y: string) {
    x == "" || y == "" || x[|x| - 1] != '\r' || y[0] != '\n'
  }

  /** How many characters the first normalized one stands for. */
  function HeadLength(s: string): (n: nat)
    requires s != ""
    ensures n <= |s|
  {
    if |s| > 1 && s[0] == '\r' && s[1] == '\n' then 2 else 1
  }

  function NormalizedChar(c: char): char {
    if c == '\r' then '\n' else c
  }

  lemma NormalizesHead(s: string)
    requires s != ""
    ensures NormalizedLines(s) == [NormalizedChar(s[0])] + NormalizedLines(s[HeadLength(s)..])
  {
    if |s| == 1 {
      assert s[1..] == "";
    } else {
      assert ReplaceCrLf(s)[1..] == ReplaceCrLf(s[HeadLength(s)..]);
    }
  }

  lemma HeadOfConcatenation(x: string, y: string)
    requires x != "" && SeamIsClean(x, y)
    ensures HeadLength(x + y) == HeadLength(x) && (x + y)[0] == x[0]
    ensures (x + y)[HeadLength(x)..] == x[HeadLength(x)..] + y
    ensures SeamIsClean(x[HeadLength(x)..], y)
  {
  }

  lemma {:induction false} NormalizationDistributes(x: string, y: string)
    requires SeamIsClean(x, y)
    ensures NormalizedLines(x + y) == NormalizedLines(x) + NormalizedLines(y)
    decreases |x|
  {
    if x == "" {
      assert x + y == y;
    } else {
      hide NormalizedLines, HeadLength, SeamIsClean;
      HeadOfConcatenation(x, y);
      NormalizesHead(x);
      NormalizesHead(x + y);
      HeadIsPositive(x);
      NormalizationDistributes(x[HeadLength(x)..], y);
    }
  }

  lemma HeadIsPositive(s: string)
    requires s != ""
    ensures HeadLength(s) > 0
  {
  }

  /** The blanks before and after a text. */
  lemma StripSplits(s: string) returns (left: string, right: string)
    ensures s == left + Strip(s) + right && AllSpace(left) && AllSpace(right)
  {
    left := StripLeftSplits(s);
    right := StripRightSplits(StripLeft(s));
  }

  lemma StripLeftSplits(s: string) returns (left: string)
    ensures s == left + StripLeft(s) && AllSpace(left)
  {
    left := s[..|s| - |StripLeft(s)|];
    StripLeftDropsSpaces(s);
  }

  lemma {:induction false} StripLeftDropsSpaces(s: string)
    ensures forall n | 0 <= n < |s| - |StripLeft(s)| :: IsSpace(s[n])
  {
    hide IsSpace;
    if s != "" && IsSpace(s[0]) {
      StripLeftDropsSpaces(s[1..]);
      forall n | 0 <= n < |s| - |StripLeft(s)|
        ensures IsSpace(s[n])
      {
        if n > 0 {
          assert s[n] == s[1..][n - 1];
        }
      }
    }
  }

  lemma {:induction false} StripRightSplits(s: string) returns (right: string)
    ensures s == StripRight(s) + right && AllSpace(right)
  {
    if s != "" && IsSpace(s[|s| - 1]) {
      var rest := StripRightSplits(s[..|s| - 1]);
      right := rest + [s[|s| - 1]];
    } else {
      right := "";
    }
  }

  lemma {:induction false} StripOfPadded(left: string, s: string, right: string)
    requires AllSpace(left) && AllSpace(right) && IsStripped(s)
    ensures Strip(left + s + right) == s
  {
    if s == "" {
      BlankMeansAllSpace(left + s + right);
    } else {
      StripLeftOfPadded(left, s + right);
      assert left + s + right == left + (s + right);
      StripRightOfPadded(s, right);
    }
  }

  lemma {:induction false} StripLeftOfPadded(left: string, s: string)
    requires AllSpace(left) && s != "" && !IsSpace(s[0])
    ensures StripLeft(left + s) == s
  {
    if left == "" {
      assert left + s == s;
    } else {
      StripLeftOfPadded(left[1..], s);
      assert (left + s)[1..] == left[1..] + s;
    }
  }

  lemma {:induction false} StripRightOfPadded(s: string, right: string)
    requires AllSpace(right) && s != "" && !IsSpace(s[|s| - 1])
    ensures StripRight(s + right) == s
  {
    if right == "" {
      assert s + right == s;
    } else {
      StripRightOfPadded(s, right[..|right| - 1]);
      assert (s + right)[..|s + right| - 1] == s + right[..|right| - 1];
    }
  }

  lemma NormalizationKeepsStripped(s: string)
    requires IsStripped(s)
    ensures IsStripped(NormalizedLines(s)) && (s != "" ==> NormalizedLines(s) != "")
  {
    if s != "" {
      var body, last := s[..|s| - 1], s[|s| - 1..];
      assert s == body + last;
      NormalizationDistributes(body, last);
      NormalizesHead(last);
      NormalizesHead(s);
    }
  }

  lemma SpacesNormalizeToSpaces(s: string)
    ensures AllSpace(NormalizedLines(s)) <==> AllSpace(s)
  {
    ReplacementsKeepSpaces(s);
    ReplacementsKeepSpaces(ReplaceCrLf(s));
  }

  lemma NormalizationOfPadded(left: string, core: string, right: string)
    requires core != "" && !IsSpace(core[0]) && !IsSpace(core[|core| - 1])
    ensures NormalizedLines(left + core + right) == NormalizedLines(left) + NormalizedLines(core) + NormalizedLines(right)
  {
    hide NormalizedLines;
    NormalizationDistributes(left, core);
    NormalizationDistributes(left + core, right);
  }

  /** Normalizing line endings and stripping commute. */
  lemma NormalizationCommutesWithStrip(s: string)
    ensures Strip(NormalizedLines(s)) == NormalizedLines(Strip(s))
  {
    var left, right := StripSplits(s);
    StripStrips(s);
    var core := Strip(s);
    hide Strip, NormalizedLines;
    if core == "" {
      BlankNormalizes(s);
    } else {
      NormalizationOfPadded(left, core, right);
      SpacesNormalizeToSpaces(left);
      SpacesNormalizeToSpaces(right);
      NormalizationKeepsStripped(core);
      StripOfPadded(NormalizedLines(left), NormalizedLines(core), NormalizedLines(right));
    }
  }

  lemma BlankNormalizes(s: string)
    requires Strip(s) == ""
    ensures Strip(NormalizedLines(s)) == "" && NormalizedLines("") == ""
  {
    NormalizationKeepsBlank(s);
  }

  // ---- key names ----

  predicate IsNote(c: char) {
    'A' <= c <= 'G' || 'a' <= c <= 'g'
  }

  predicate IsAccidental(c: char) {
    c == '#' || c == 'b' || c == '\U{266F}' || c == '\U{266D}'
  }

  function UpperNote(c: char): char
    requires IsNote(c)
  {
    if 'a' <= c <= 'g' then (c as int - 32) as char else c
  }

  /** `major` or `minor`, from what follows the note. */
  function ModeOf(rest: string): Option<string> {
    if Lower(rest) in ["", "maj", "major"] then Some("major")
    else if rest == "m" || Lower(rest) in ["min", "minor"] then Some("minor")
    else None
  }

  function KeyName(note: char, accidental: string, mode: string): string {
    [note] + accidental + " " + mode
  }

  /** `parse_keyscale`. */
  function ParseKeyscale(value: string): Option<string> {
    var s := Strip(value);
    if s == "" || !IsNote(s[0]) then None
    else
      var accidental := if |s| > 1 && IsAccidental(s[1]) then s[1..2] else "";
      match ModeOf(Strip(s[1 + |accidental|..]))
      case None => None
      case Some(mode) => Some(KeyName(UpperNote(s[0]), accidental, mode))
  }

  /** A canonical key: a note, at most one accidental, a blank, `major` or `minor`. */
  predicate IsKey(k: string) {
    || IsKeyIn(k, "major")
    || IsKeyIn(k, "minor")
  }

  predicate IsKeyIn(k: string, mode: string) {
    && |k| > 0 && 'A' <= k[0] <= 'G'
    && (k[1..] == " " + mode || (|k| > 1 && IsAccidental(k[1]) && k[2..] == " " + mode))
  }

  lemma ModesOf(rest: string)
    ensures ModeOf(rest).Some? ==> ModeOf(rest).value == "major" || ModeOf(rest).value == "minor"
  {
  }

  lemma KeyNameIsKey(note: char, accidental: string, mode: string)
    requires 'A' <= note <= 'G' && (accidental == "" || (|accidental| == 1 && IsAccidental(accidental[0])))
    ensures IsKeyIn(KeyName(note, accidental, mode), mode)
  {
    var k := KeyName(note, accidental, mode);
    assert k[1 + |accidental|..] == " " + mode;
  }

  lemma ParsedIsKey(value: string)
    ensures ParseKeyscale(value).Some? ==> IsKey(ParseKeyscale(value).value)
  {
    hide ModeOf, Strip, KeyName, IsKeyIn;
    var s := Strip(value);
    if s != "" && IsNote(s[0]) {
      var accidental := if |s| > 1 && IsAccidental(s[1]) then s[1..2] else "";
      var rest := Strip(s[1 + |accidental|..]);
      ModesOf(rest);
      if ModeOf(rest).Some? {
        KeyNameIsKey(UpperNote(s[0]), accidental, ModeOf(rest).value);
      }
    }
  }

  lemma LowerKeepsLower(s: string)
    requires forall i | 0 <= i < |s| :: 'a' <= s[i] <= 'z'
    ensures Lower(s) == s
  {
  }

  lemma StripsBlank(mode: string)
    requires mode != "" && !IsSpace(mode[0]) && !IsSpace(mode[|mode| - 1])
    ensures Strip(" " + mode) == mode
  {
    assert (" " + mode)[1..] == mode;
    assert StripLeft(" " + mode) == StripLeft(mode);
  }

  lemma ModeParses(mode: string)
    requires mode == "major" || mode == "minor"
    ensures Strip(" " + mode) == mode && ModeOf(mode) == Some(mode)
    ensures !IsSpace(mode[|mode| - 1])
  {
    StripsBlank(mode);
    LowerKeepsLower(mode);
  }

  lemma KeyInParses(k: string, mode: string)
    requires IsKeyIn(k, mode) && mode != "" && !IsSpace(mode[|mode| - 1])
    requires Strip(" " + mode) == mode && ModeOf(mode) == Some(mode)
    ensures ParseKeyscale(k) == Some(k)
  {
    StripStrips(k);
    hide ModeOf, Strip;
    if k[1..] == " " + mode {
      assert k[|k| - 1] == k[1..][|k| - 2];
      assert k[1..][0] == ' ';
      assert k == KeyName(k[0], "", mode);
    } else {
      assert k[|k| - 1] == k[2..][|k| - 3];
      assert k == KeyName(k[0], k[1..2], mode);
    }
  }

  lemma KeyParses(k: string, mode: string)
    requires IsKeyIn(k, mode) && (mode == "major" || mode == "minor")
    ensures ParseKeyscale(k) == Some(k)
  {
    ModeParses(mode);
    hide ModeOf, Strip, IsKeyIn, ParseKeyscale;
    KeyInParses(k, mode);
  }

  /** `parse_keyscale` is a projection: its values are exactly the canonical keys, and it leaves
      those alone. */
  lemma ParseKeyscaleIsProjection(value: string)
    ensures ParseKeyscale(value).Some? ==>
      ParseKeyscale(ParseKeyscale(value).value) == ParseKeyscale(value)
    ensures IsKey(value) <==> ParseKeyscale(value) == Some(value)
  {
    ParsedIsKey(value);
    if ParseKeyscale(value).Some? {
      var k := ParseKeyscale(value).value;
      KeyParses(k, if IsKeyIn(k, "major") then "major" else "minor");
    }
    if IsKey(value) {
      KeyParses(value, if IsKeyIn(value, "major") then "major" else "minor");
    }
  }
}
