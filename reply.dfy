/**
 * The scorer's reply and how `analyze_with_gpt` reads it. The reply is free
 * text; every line that starts with `SCORE:`, `ANALYSIS:`, `VARIATIONS:` or
 * `TARGET:` sets one of four values, later lines overriding earlier ones, and
 * everything else is ignored. A transport failure or a non-200 status gives a
 * fixed zero result instead.
 */
module Reply {
  import opened Text

  /** The 4-tuple `(score, analysis, variations, target)`. */
  datatype ScoreResult = ScoreResult(score: int, analysis: string, variations: string, target: string)

  /** What the parser starts from before it reads any line. */
  const Unscored: ScoreResult := ScoreResult(0, "", "", "")
  /** The result for a reply whose HTTP status is not 200. */
  const ApiError: ScoreResult := ScoreResult(0, "API error", "", "")
  /** The result when the call raises (transport error, malformed JSON). */
  const AnalysisFailed: ScoreResult := ScoreResult(0, "Analysis failed", "", "")

  /** What the scorer service returned: a status with, when the JSON has one, the message text. */
  datatype ScorerResponse =
    | Response(status: int, content: Option<string>)
    | TransportError

  // ---------------------------------------------------------------------
  // One line
  // ---------------------------------------------------------------------

  datatype Label = Score | Analysis | Variations | Target

  function Prefix(l: Label): string {
    match l
    case Score => "SCORE:"
    case Analysis => "ANALYSIS:"
    case Variations => "VARIATIONS:"
    case Target => "TARGET:"
  }

  /** `line.split(':')[1]`: the text after the first colon, up to the second colon or the end. */
  function ScoreField(line: string): (r: string)
    requires StartsWith(line, "SCORE:")
    ensures ':' !in r && r <= line[6..]
    ensures r == line[6..] || line[6 + |r|] == ':'
  {
    var rest := line[6..];
    assert line == "SCORE" + [':'] + rest;
    SplitAt("SCORE", rest, ':');
    Split(rest, ':')[0]
  }

  /** `int(line.split(':')[1].strip())`, with the `except` branch giving 0. */
  function ScoreValue(line: string): int
    requires StartsWith(line, "SCORE:")
  {
    match ParseInt(Strip(ScoreField(line)))
    case Some(n) => n
    case None => 0
  }

  /** `line.split(':', 1)[1].strip()`. */
  function TextValue(line: string): string
    requires ':' in line
  {
    Strip(AfterFirst(line, ':'))
  }

  /** One iteration of the loop: the `if`/`elif` chain on the line's prefix. */
  function ApplyLine(r: ScoreResult, line: string): ScoreResult {
    if StartsWith(line, "SCORE:") then
      r.(score := ScoreValue(line))
    else if StartsWith(line, "ANALYSIS:") then
      assert line[8] == ':';
      r.(analysis := TextValue(line))
    else if StartsWith(line, "VARIATIONS:") then
      assert line[10] == ':';
      r.(variations := TextValue(line))
    else if StartsWith(line, "TARGET:") then
      assert line[6] == ':';
      r.(target := TextValue(line))
    else
      r
  }

  /** The values after reading `lines` in order, from the defaults. */
  function ParseLines(lines: seq<string>): ScoreResult
    decreases |lines|
  {
    if |lines| == 0 then Unscored
    else ApplyLine(ParseLines(lines[..|lines| - 1]), lines[|lines| - 1])
  }

  /** The whole reply: split on `\n`, then read line by line. */
  function ParsedReply(text: string): ScoreResult {
    ParseLines(Split(text, '\n'))
  }

  /** The result of one call to the scorer, including its two fixed fallbacks. */
  function ScorerOutcome(resp: ScorerResponse): ScoreResult {
    match resp
    case TransportError => AnalysisFailed
    case Response(status, content) =>
      if status != 200 then ApiError
      else
        match content
        case None => AnalysisFailed
        case Some(text) => ParsedReply(text)
  }

  // ---------------------------------------------------------------------
  // The parsing loop
  // ---------------------------------------------------------------------

  /** One pass of the loop body: the `if`/`elif` chain reassigning one of the four locals. */
  method ReadLine(line: string, score: int, analysisText: string, variations: string, target: string)
    returns (score': int, analysisText': string, variations': string, target': string)
    ensures ScoreResult(score', analysisText', variations', target')
            == ApplyLine(ScoreResult(score, analysisText, variations, target), line)
  {
    score', analysisText', variations', target' := score, analysisText, variations, target;
    if StartsWith(line, "SCORE:") {
      var parsed := ParseInt(Strip(ScoreField(line)));
      score' := if parsed.Some? then parsed.value else 0;
    } else if StartsWith(line, "ANALYSIS:") {
      assert line[8] == ':';
      analysisText' := Strip(AfterFirst(line, ':'));
    } else if StartsWith(line, "VARIATIONS:") {
      assert line[10] == ':';
      variations' := Strip(AfterFirst(line, ':'));
    } else if StartsWith(line, "TARGET:") {
      assert line[6] == ':';
      target' := Strip(AfterFirst(line, ':'));
    }
  }

  /** The loop of `analyze_with_gpt` that reassigns four locals line by line. */
  method ParseReply(text: string) returns (r: ScoreResult)
    ensures r == ParsedReply(text)
  {
    var lines := Split(text, '\n');
    var score, analysisText, variations, target := 0, "", "", "";
    for i := 0 to |lines|
      invariant ScoreResult(score, analysisText, variations, target) == ParseLines(lines[..i])
    {
      score, analysisText, variations, target := ReadLine(lines[i], score, analysisText, variations, target);
      assert lines[..i + 1][..i] == lines[..i];
    }
    assert lines[..|lines|] == lines;
    r := ScoreResult(score, analysisText, variations, target);
  }

  /** `analyze_with_gpt` after the HTTP call: the fallbacks, or the parsed reply. */
  method InterpretResponse(resp: ScorerResponse) returns (r: ScoreResult)
    ensures r == ScorerOutcome(resp)
  {
    match resp {
      case TransportError =>
        r := AnalysisFailed;
      case Response(status, content) =>
        if status != 200 {
          r := ApiError;
        } else if content.None? {
          r := AnalysisFailed;
        } else {
          r := ParseReply(content.value);
        }
    }
  }

  // ---------------------------------------------------------------------
  // What a reply parses to
  // ---------------------------------------------------------------------

  /** A field of the result, viewed uniformly across the four labels. */
  datatype Value = Num(n: int) | Str(s: string)

  function Slot(r: ScoreResult, l: Label): Value {
    match l
    case Score => Num(r.score)
    case Analysis => Str(r.analysis)
    case Variations => Str(r.variations)
    case Target => Str(r.target)
  }

  /** The value a line carrying label `l` assigns. */
  function LineValue(line: string, l: Label): Value
    requires StartsWith(line, Prefix(l))
  {
    assert line[|Prefix(l)| - 1] == ':';
    match l
    case Score => Num(ScoreValue(line))
    case _ => Str(TextValue(line))
  }

  /**
   * The four prefixes exclude one another, so the `elif` order does not
   * matter: a line with label `l` sets slot `l` and leaves the other three
   * alone, and a line with none of the labels changes nothing.
   */
  lemma ApplyLineSlots(r: ScoreResult, line: string, l: Label)
    ensures Slot(ApplyLine(r, line), l) ==
              if StartsWith(line, Prefix(l)) then LineValue(line, l) else Slot(r, l)
  {
    FirstCharOfLabel(line);
  }

  /** A labelled line starts with the label's initial, and the four initials differ. */
  lemma FirstCharOfLabel(line: string)
    ensures StartsWith(line, "SCORE:") ==> |line| > 0 && line[0] == 'S'
    ensures StartsWith(line, "ANALYSIS:") ==> |line| > 0 && line[0] == 'A'
    ensures StartsWith(line, "VARIATIONS:") ==> |line| > 0 && line[0] == 'V'
    ensures StartsWith(line, "TARGET:") ==> |line| > 0 && line[0] == 'T'
  {
  }

  /** A label that starts no line keeps its default: score 0, texts empty. */
  lemma {:induction false} AbsentLabelKeepsDefault(lines: seq<string>, l: Label)
    requires forall k :: 0 <= k < |lines| ==> !StartsWith(lines[k], Prefix(l))
    ensures Slot(ParseLines(lines), l) == Slot(Unscored, l)
    decreases |lines|
  {
    if |lines| > 0 {
      var init := lines[..|lines| - 1];
      AbsentLabelKeepsDefault(init, l);
      ApplyLineSlots(ParseLines(init), lines[|lines| - 1], l);
    }
  }

  /** When a label starts several lines, the last of them decides the value. */
  lemma {:induction false} LastLabelWins(lines: seq<string>, k: nat, l: Label)
    requires k < |lines| && StartsWith(lines[k], Prefix(l))
    requires forall j :: k < j < |lines| ==> !StartsWith(lines[j], Prefix(l))
    ensures Slot(ParseLines(lines), l) == LineValue(lines[k], l)
    decreases |lines|
  {
    var init := lines[..|lines| - 1];
    ApplyLineSlots(ParseLines(init), lines[|lines| - 1], l);
    if k < |lines| - 1 {
      LastLabelWins(init, k, l);
    }
  }

  /** A later `SCORE:` line whose field is not an integer resets the score to 0. */
  lemma BadScoreLineResets(lines: seq<string>, line: string)
    requires StartsWith(line, "SCORE:") && ParseInt(Strip(ScoreField(line))).None?
    ensures ParseLines(lines + [line]).score == 0
  {
    assert (lines + [line])[..|lines|] == lines;
  }

  /** Lower-case labels are not labels: such a line changes nothing. */
  lemma LowerCaseLabelIgnored(r: ScoreResult, rest: string)
    ensures ApplyLine(r, "score:" + rest) == r
  {
    var line := "score:" + rest;
    assert line[0] == 's';
    FirstCharOfLabel(line);
  }

  /** For the three text labels the value is everything after the label, stripped. */
  lemma TextLabelValue(l: Label, v: string)
    requires l != Score
    ensures LineValue(Prefix(l) + v, l) == Str(Strip(v))
  {
    var line := Prefix(l) + v;
    var p := |Prefix(l)| - 1;
    assert line[..p] == Prefix(l)[..p];
    IndexOfAt(line, ':', p);
    assert line[p + 1..] == v;
  }

  /** A text with no line break and no surrounding whitespace survives the parser unchanged. */
  predicate CleanText(s: string) {
    '\n' !in s && Trimmed(s)
  }

  /** One line of the reply format: `LABEL: value`. */
  function LabelLine(l: Label, v: string): string {
    Prefix(l) + " " + v
  }

  /** The reply format the scorer is asked for, one label per line. */
  function Render(r: ScoreResult): string {
    LabelLine(Score, IntToString(r.score)) + "\n" +
    LabelLine(Analysis, r.analysis) + "\n" +
    LabelLine(Variations, r.variations) + "\n" +
    LabelLine(Target, r.target)
  }

  /** `SCORE: n` reads back as `n`. */
  lemma ScoreLineValue(n: int)
    ensures ScoreValue(LabelLine(Score, IntToString(n))) == n
  {
    var digits := IntToString(n);
    var line := LabelLine(Score, digits);
    assert line[6..] == " " + digits;
    assert ':' !in " " + digits;
    assert ScoreField(line) == " " + digits;
    StripLeadingSpace(digits);
    ParseIntToString(n);
  }

  /** `LABEL: v` reads back as `v` for a clean text label. */
  lemma CleanTextValue(l: Label, v: string)
    requires l != Score && CleanText(v)
    ensures LineValue(LabelLine(l, v), l) == Str(v)
  {
    assert LabelLine(l, v) == Prefix(l) + (" " + v);
    TextLabelValue(l, " " + v);
    StripLeadingSpace(v);
  }

  /** The four lines of `Render(r)`. */
  function RenderedLines(r: ScoreResult): seq<string> {
    [ LabelLine(Score, IntToString(r.score)),
      LabelLine(Analysis, r.analysis),
      LabelLine(Variations, r.variations),
      LabelLine(Target, r.target) ]
  }

  lemma SplitRendered(r: ScoreResult)
    requires CleanText(r.analysis) && CleanText(r.variations) && CleanText(r.target)
    ensures Split(Render(r), '\n') == RenderedLines(r)
  {
    var lines := RenderedLines(r);
    JoinFour(lines[0], lines[1], lines[2], lines[3], '\n');
    assert Join(lines, '\n') == Render(r);
    forall k | 0 <= k < 4
      ensures '\n' !in lines[k]
    {
      var l := match k case 0 => Score case 1 => Analysis case 2 => Variations case _ => Target;
      var v := match k case 0 => IntToString(r.score) case 1 => r.analysis case 2 => r.variations case _ => r.target;
      assert lines[k] == LabelLine(l, v);
      LabelLineBreaks(l, v);
    }
    SplitJoin(lines, '\n');
  }

  /** `LABEL: v` carries label `LABEL` and no other. */
  lemma LabelLineLabel(l: Label, v: string, m: Label)
    ensures StartsWith(LabelLine(l, v), Prefix(m)) <==> m == l
  {
    var line := LabelLine(l, v);
    assert line[..|Prefix(l)|] == Prefix(l);
    assert line[0] == Prefix(l)[0];
    FirstCharOfLabel(line);
  }

  lemma LabelLineBreaks(l: Label, v: string)
    ensures '\n' in LabelLine(l, v) <==> '\n' in v
  {
    assert LabelLine(l, v) == (Prefix(l) + " ") + v;
  }

  /** Two results that agree on every slot are equal. */
  lemma SlotsDetermine(a: ScoreResult, b: ScoreResult)
    requires forall l: Label :: Slot(a, l) == Slot(b, l)
    ensures a == b
  {
    assert Slot(a, Score) == Slot(b, Score);
    assert Slot(a, Analysis) == Slot(b, Analysis);
    assert Slot(a, Variations) == Slot(b, Variations);
    assert Slot(a, Target) == Slot(b, Target);
  }

  /** Line `k` of a rendered result is the only one carrying label `l`, and it carries `r`'s value. */
  lemma RenderedLineValue(r: ScoreResult, l: Label, k: nat)
    requires CleanText(r.analysis) && CleanText(r.variations) && CleanText(r.target)
    requires k == match l case Score => 0 case Analysis => 1 case Variations => 2 case Target => 3
    ensures StartsWith(RenderedLines(r)[k], Prefix(l))
    ensures LineValue(RenderedLines(r)[k], l) == Slot(r, l)
    ensures forall j :: k < j < 4 ==> !StartsWith(RenderedLines(r)[j], Prefix(l))
  {
    var lines := RenderedLines(r);
    forall j | 0 <= j < 4
      ensures StartsWith(lines[j], Prefix(l)) <==> j == k
    {
      FirstCharOfLabel(lines[j]);
    }
    match l
    case Score => ScoreLineValue(r.score);
    case Analysis => CleanTextValue(Analysis, r.analysis);
    case Variations => CleanTextValue(Variations, r.variations);
    case Target => CleanTextValue(Target, r.target);
  }

  /** Rendering a result with clean texts and parsing it gives the result back. */
  lemma RenderRoundTrip(r: ScoreResult)
    requires CleanText(r.analysis) && CleanText(r.variations) && CleanText(r.target)
    ensures ParsedReply(Render(r)) == r
  {
    SplitRendered(r);
    var lines := RenderedLines(r);
    forall l: Label
      ensures Slot(ParseLines(lines), l) == Slot(r, l)
    {
      var k := match l case Score => 0 case Analysis => 1 case Variations => 2 case Target => 3;
      RenderedLineValue(r, l, k);
      LastLabelWins(lines, k, l);
    }
    SlotsDetermine(ParseLines(lines), r);
  }

  lemma SplitTwoLines(n: int, a: string)
    requires CleanText(a)
    ensures var x, y := LabelLine(Score, IntToString(n)), LabelLine(Analysis, a);
            Split(x + "\n" + y, '\n') == [x, y]
  {
    LabelLineBreaks(Score, IntToString(n));
    LabelLineBreaks(Analysis, a);
    SplitPair(LabelLine(Score, IntToString(n)), LabelLine(Analysis, a), '\n');
  }

  lemma ParseTwoLines(n: int, a: string)
    requires CleanText(a)
    ensures ParseLines([LabelLine(Score, IntToString(n)), LabelLine(Analysis, a)]) == ScoreResult(n, a, "", "")
  {
    var lines := [LabelLine(Score, IntToString(n)), LabelLine(Analysis, a)];
    ParsePair(lines, n, a);
  }

  lemma ParsePair(lines: seq<string>, n: int, a: string)
    requires CleanText(a)
    requires |lines| == 2 && lines[0] == LabelLine(Score, IntToString(n)) && lines[1] == LabelLine(Analysis, a)
    ensures ParseLines(lines) == ScoreResult(n, a, "", "")
  {
    PairScore(lines, n, a);
    PairAnalysis(lines, n, a);
    TwoLinesUnlabelled(lines, Variations);
    TwoLinesUnlabelled(lines, Target);
    SlotsDetermine(ParseLines(lines), ScoreResult(n, a, "", ""));
  }

  lemma PairScore(lines: seq<string>, n: int, a: string)
    requires |lines| == 2 && lines[0] == LabelLine(Score, IntToString(n)) && lines[1] == LabelLine(Analysis, a)
    ensures Slot(ParseLines(lines), Score) == Num(n)
  {
    ScoreLineSlot(n);
    LabelLineLabel(Analysis, a, Score);
    PairFirstWins(lines, Score);
  }

  lemma PairFirstWins(lines: seq<string>, l: Label)
    requires |lines| == 2 && StartsWith(lines[0], Prefix(l)) && !StartsWith(lines[1], Prefix(l))
    ensures Slot(ParseLines(lines), l) == LineValue(lines[0], l)
  {
    LastLabelWins(lines, 0, l);
  }

  lemma ScoreLineSlot(n: int)
    ensures StartsWith(LabelLine(Score, IntToString(n)), Prefix(Score))
    ensures LineValue(LabelLine(Score, IntToString(n)), Score) == Num(n)
  {
    LabelLineLabel(Score, IntToString(n), Score);
    ScoreLineValue(n);
  }

  lemma PairAnalysis(lines: seq<string>, n: int, a: string)
    requires CleanText(a)
    requires |lines| == 2 && lines[0] == LabelLine(Score, IntToString(n)) && lines[1] == LabelLine(Analysis, a)
    ensures Slot(ParseLines(lines), Analysis) == Str(a)
  {
    LabelLineLabel(Analysis, a, Analysis);
    CleanTextValue(Analysis, a);
    LastLabelWins(lines, 1, Analysis);
  }

  lemma TwoLinesUnlabelled(lines: seq<string>, l: Label)
    requires |lines| == 2 && l != Score && l != Analysis
    requires exists d :: lines[0] == LabelLine(Score, d)
    requires exists v :: lines[1] == LabelLine(Analysis, v)
    ensures Slot(ParseLines(lines), l) == Str("")
  {
    var d :| lines[0] == LabelLine(Score, d);
    var v :| lines[1] == LabelLine(Analysis, v);
    LabelLineLabel(Score, d, l);
    LabelLineLabel(Analysis, v, l);
    AbsentLabelKeepsDefault(lines, l);
  }

  /** A two-line reply `SCORE: n` / `ANALYSIS: a` leaves the other two fields empty. */
  lemma ScoreAnalysisRoundTrip(n: int, a: string)
    requires CleanText(a)
    ensures ParsedReply(LabelLine(Score, IntToString(n)) + "\n" + LabelLine(Analysis, a)) == ScoreResult(n, a, "", "")
  {
    SplitTwoLines(n, a);
    ParseTwoLines(n, a);
  }

  /** No `SCORE:` line at all: the score is 0, whatever else the reply says. */
  lemma NoScoreLineMeansZero(text: string)
    requires forall k :: 0 <= k < |Split(text, '\n')| ==> !StartsWith(Split(text, '\n')[k], "SCORE:")
    ensures ParsedReply(text).score == 0
  {
    AbsentLabelKeepsDefault(Split(text, '\n'), Score);
  }

  /** The fallbacks: a failed call or a non-200 status scores 0 with a fixed rationale. */
  lemma FailedCallsScoreZero(resp: ScorerResponse)
    requires !(resp.Response? && resp.status == 200 && resp.content.Some?)
    ensures ScorerOutcome(resp).score == 0
    ensures ScorerOutcome(resp) == (if resp.Response? && resp.status != 200 then ApiError else AnalysisFailed)
  {
  }
}
