/**
 * The deterministic parts of the automated evaluation: loading the raw
 * text, reading the generated question list and the judge's verdict out
 * of the model's replies, cleaning the pipeline's answer, and the score
 * accounting over the judged questions. Model calls and the answering
 * pipeline are outside the model; their replies and results are inputs.
 */
module Eval {
  import opened Wrappers
  import opened Text
  import opened JsonValues

  // ---------------------------------------------------------------------
  // Raw text
  // ---------------------------------------------------------------------

  lemma {:induction false} LStripEmptyIff(s: string)
    ensures LStrip(s) == [] <==> forall i :: 0 <= i < |s| ==> IsSpace(s[i])
    decreases |s|
  {
    if s != [] && IsSpace(s[0]) {
      LStripEmptyIff(s[1..]);
      assert forall i :: 1 <= i < |s| ==> s[i] == s[1..][i - 1];
    }
  }

  /** Python's `not s.strip()`: the text is empty or only whitespace. */
  lemma StripEmptyIff(s: string)
    ensures Strip(s) == [] <==> forall i :: 0 <= i < |s| ==> IsSpace(s[i])
  {
    LStripEmptyIff(s);
    var l := LStrip(s);
    if l != [] {
      assert RStrip(l) != [] by {
        assert !IsSpace(l[0]);
        RStripKeepsHead(l);
      }
    }
  }

  /** Right-stripping text that opens with a non-space character leaves that character. */
  lemma {:induction false} RStripKeepsHead(s: string)
    requires s != [] && !IsSpace(s[0])
    ensures RStrip(s) != []
    decreases |s|
  {
    if IsSpace(s[|s| - 1]) {
      RStripKeepsHead(s[..|s| - 1]);
    }
  }

  /**
   * `_get_rp_universe_text`: the cached raw text of the deal; a missing
   * file and a file with nothing but whitespace are both rejected.
   */
  function RpUniverseText(file: Option<string>): (r: Result<string>)
    ensures file.None? ==> r.Failure?
    ensures r.Success? ==> file == Some(r.value) && Strip(r.value) != ""
  {
    match file
    case None => Failure("RP universe not found. Re-extract the deal first.")
    case Some(text) =>
      if Strip(text) == "" then Failure("RP universe file is empty. Re-extract the deal first.") else Success(text)
  }

  /** The raw text loads exactly when the file exists and holds a non-whitespace character, and then unchanged. */
  lemma RpUniverseTextIff(file: Option<string>)
    ensures var r := RpUniverseText(file);
      (r.Success? <==> file.Some? && exists i :: 0 <= i < |file.value| && !IsSpace(file.value[i])) &&
      (r.Success? ==> r.value == file.value)
  {
    if file.Some? {
      StripEmptyIff(file.value);
    }
  }

  // ---------------------------------------------------------------------
  // Generated questions
  // ---------------------------------------------------------------------

  /**
   * `generate_questions` after the model call: the span from the first
   * '[' to the last ']' is decoded; a reply without both brackets, one
   * that is not JSON (the decoder error escapes), and anything but a
   * non-empty list fail; otherwise the first `numQuestions` items.
   */
  function GenerateQuestions(responseText: string, decode: Decoder, numQuestions: int): (r: Result<seq<Json>>)
    ensures r.Success? && numQuestions >= 0 ==> |r.value| <= numQuestions
    ensures r.Success? && numQuestions >= 1 ==> r.value != []
  {
    match Delimited(responseText, '[', ']')
    case None => Failure("Failed to parse generated questions")
    case Some(span) =>
      match decode(span)
      case None => Failure("JSONDecodeError")
      case Some(questions) =>
        if !questions.JArray? || questions.items == [] then Failure("No questions generated")
        else Success(SliceTo(questions.items, numQuestions))
  }

  /**
   * Questions come only from a reply with both brackets whose bracketed
   * span decodes to a non-empty list; they are that list's first items,
   * never more than asked for, and at least one when one is asked for.
   */
  lemma GeneratedQuestionsShape(responseText: string, decode: Decoder, numQuestions: int)
    ensures var r := GenerateQuestions(responseText, decode, numQuestions);
      ('[' !in responseText || ']' !in responseText ==> r.Failure?) &&
      (r.Success? ==>
        var items := decode(Delimited(responseText, '[', ']').value).value.items;
        items != [] && |r.value| <= |items| && r.value == items[..|r.value|] &&
        (numQuestions >= 0 ==> |r.value| <= numQuestions) &&
        (numQuestions >= 1 ==> r.value != []))
  {
  }

  // ---------------------------------------------------------------------
  // The pipeline's answer
  // ---------------------------------------------------------------------

  const EvidenceMarker := "<!-- EVIDENCE"

  /**
   * `get_valence_answer`: the answer with everything from the evidence
   * marker on cut and trailing whitespace removed; an answer without the
   * marker is kept as it is, a missing one reads as "", and a pipeline
   * error becomes a "[Pipeline error: ...]" string.
   */
  function ValenceAnswer(pipeline: Result<Option<string>>): (v: string)
    ensures pipeline.Success? ==> |v| <= |pipeline.value.GetOr("")|
    ensures pipeline.Failure? ==> |v| == |pipeline.error| + 18 && v[17..|v| - 1] == pipeline.error
  {
    match pipeline
    case Failure(message) => "[Pipeline error: " + message + "]"
    case Success(answerField) =>
      var answer := answerField.GetOr("");
      if Contains(answer, EvidenceMarker) then RStrip(answer[..Find(answer, EvidenceMarker)]) else answer
  }

  /** A text with no occurrence starting before `m` has none in its first `m` characters. */
  lemma NotInPrefix(s: string, sub: string, m: nat)
    requires m <= |s| && |sub| > 0
    requires forall j :: 0 <= j < m ==> !OccursAt(s, sub, j)
    ensures !Contains(s[..m], sub)
  {
    forall i | 0 <= i <= m ensures !OccursAt(s[..m], sub, i) {
      if i + |sub| <= m {
        assert !OccursAt(s, sub, i);
        assert s[..m][i..i + |sub|] == s[i..i + |sub|];
      }
    }
  }

  /**
   * A pipeline answer never keeps the evidence block, is a prefix of the
   * answer, and is the answer itself when there was no block; a failure
   * is always reported as a pipeline error.
   */
  lemma ValenceAnswerStripped(pipeline: Result<Option<string>>)
    ensures var v := ValenceAnswer(pipeline);
      (pipeline.Success? ==>
        var answer := pipeline.value.GetOr("");
        !Contains(v, EvidenceMarker) && StartsWith(answer, v) &&
        (!Contains(answer, EvidenceMarker) ==> v == answer)) &&
      (pipeline.Failure? ==> StartsWith(v, "[Pipeline error: "))
  {
    var v := ValenceAnswer(pipeline);
    if pipeline.Success? {
      var answer := pipeline.value.GetOr("");
      if Contains(answer, EvidenceMarker) {
        var k := Find(answer, EvidenceMarker);
        var cut := answer[..k];
        assert v == RStrip(cut);
        assert cut[..|v|] == v;
        assert answer[..|v|] == v;
        NotInPrefix(answer, EvidenceMarker, |v|);
      }
    } else {
      assert v == "[Pipeline error: " + pipeline.error + "]";
      assert v[..|"[Pipeline error: "|] == "[Pipeline error: ";
    }
  }

  // ---------------------------------------------------------------------
  // The judge's verdict
  // ---------------------------------------------------------------------

  /** The four scored dimensions. */
  const Dimensions: seq<string> := ["completeness", "accuracy", "citations", "specificity"]

  /** The verdict used when the judge's reply cannot be read: every dimension 3. */
  function FallbackVerdict(reasoning: string): Json
  {
    JObject(map[
      "completeness" := JInt(3), "accuracy" := JInt(3), "citations" := JInt(3), "specificity" := JInt(3),
      "advantages" := JArray([]), "gaps" := JArray([JStr("Could not parse comparison")]),
      "reasoning" := JStr(reasoning)])
  }

  /**
   * `compare_answers` after the model call: the span from the first '{'
   * to the last '}' decoded, or the fallback verdict when a brace is
   * missing or the span is not JSON.
   */
  function CompareAnswers(responseText: string, decode: Decoder): (verdict: Json)
    ensures '{' !in responseText || '}' !in responseText ==> verdict == FallbackVerdict("Comparison parse failed")
    ensures verdict != FallbackVerdict("Comparison parse failed") && verdict != FallbackVerdict("Comparison JSON parse failed") ==>
      '{' in responseText && '}' in responseText && decode(Delimited(responseText, '{', '}').value) == Some(verdict)
  {
    match Delimited(responseText, '{', '}')
    case None => FallbackVerdict("Comparison parse failed")
    case Some(span) =>
      match decode(span)
      case None => FallbackVerdict("Comparison JSON parse failed")
      case Some(verdict) => verdict
  }

  /**
   * `comparison.get(d, 3)` as a term of the sum: a missing dimension
   * counts 3, a number (or a bool) counts its value; anything else, or a
   * verdict that is not an object, makes the sum raise.
   */
  function DimensionScore(verdict: Json, d: string): Option<real>
  {
    if !verdict.JObject? then None
    else
      var v := if d in verdict.fields then verdict.fields[d] else JInt(3);
      match v
      case JInt(i) => Some(i as real)
      case JFloat(f) => Some(f)
      case JBool(b) => Some(if b then 1.0 else 0.0)
      case _ => None
  }

  /** The question's score: the sum of its four dimensions. */
  function QuestionScore(verdict: Json): (score: Option<real>)
    ensures score.Some? ==> verdict.JObject?
    ensures verdict.JObject? && (forall d :: d in Dimensions ==> d !in verdict.fields) ==> score == Some(12.0)
  {
    var a := DimensionScore(verdict, Dimensions[0]);
    var b := DimensionScore(verdict, Dimensions[1]);
    var c := DimensionScore(verdict, Dimensions[2]);
    var d := DimensionScore(verdict, Dimensions[3]);
    if a.Some? && b.Some? && c.Some? && d.Some? then Some(a.value + b.value + c.value + d.value) else None
  }

  /** A verdict that could not be read scores 12 of 20. */
  lemma FallbackScore(reasoning: string)
    ensures QuestionScore(FallbackVerdict(reasoning)) == Some(12.0)
  {
    var v := FallbackVerdict(reasoning);
    assert forall d :: d in Dimensions ==> d in v.fields && v.fields[d] == JInt(3);
    assert Dimensions[0] in Dimensions && Dimensions[1] in Dimensions && Dimensions[2] in Dimensions && Dimensions[3] in Dimensions;
  }

  /** A dimension on the judge's 1-5 scale, or left out. */
  predicate OnScale(verdict: Json, d: string)
  {
    verdict.JObject? && (d !in verdict.fields || (verdict.fields[d].JInt? && 1 <= verdict.fields[d].i <= 5))
  }

  /** With every dimension on the 1-5 scale, a question scores between 4 and 20. */
  lemma ScoreWithinTwenty(verdict: Json)
    requires forall k :: 0 <= k < |Dimensions| ==> OnScale(verdict, Dimensions[k])
    ensures QuestionScore(verdict).Some?
    ensures 4.0 <= QuestionScore(verdict).value <= 20.0
  {
    assert OnScale(verdict, Dimensions[0]) && OnScale(verdict, Dimensions[1]);
    assert OnScale(verdict, Dimensions[2]) && OnScale(verdict, Dimensions[3]);
  }

  // ---------------------------------------------------------------------
  // Totals
  // ---------------------------------------------------------------------

  predicate AllScored(verdicts: seq<Json>)
  {
    forall k :: 0 <= k < |verdicts| ==> QuestionScore(verdicts[k]).Some?
  }

  function TotalScore(verdicts: seq<Json>): real
    requires AllScored(verdicts)
  {
    if verdicts == [] then 0.0
    else TotalScore(verdicts[..|verdicts| - 1]) + QuestionScore(verdicts[|verdicts| - 1]).value
  }

  datatype Totals = Totals(totalScore: real, maxScore: real)

  /**
   * The score loop of `evaluate_deal`: each question adds its score to the
   * total and 20 to the maximum; a verdict whose sum raises ends the run.
   */
  method ScoreVerdicts(verdicts: seq<Json>) returns (r: Option<Totals>)
    ensures r.Some? <==> AllScored(verdicts)
    ensures r.Some? ==> r.value.totalScore == TotalScore(verdicts) && r.value.maxScore == 20.0 * |verdicts| as real
  {
    var totalScore := 0.0;
    var maxScore := 0.0;
    for i := 0 to |verdicts|
      invariant AllScored(verdicts[..i])
      invariant totalScore == TotalScore(verdicts[..i]) && maxScore == 20.0 * i as real
    {
      assert verdicts[..i + 1][..i] == verdicts[..i];
      var score := QuestionScore(verdicts[i]);
      if score.None? {
        assert !AllScored(verdicts);
        return None;
      }
      var qMax := 20.0;
      totalScore := totalScore + score.value;
      maxScore := maxScore + qMax;
    }
    assert verdicts[..|verdicts|] == verdicts;
    return Some(Totals(totalScore, maxScore));
  }

  /** With every verdict on the 1-5 scale, the total lies between a fifth of the maximum and the maximum. */
  lemma {:induction false} TotalWithinMax(verdicts: seq<Json>)
    requires forall j, k :: 0 <= j < |verdicts| && 0 <= k < |Dimensions| ==> OnScale(verdicts[j], Dimensions[k])
    ensures AllScored(verdicts)
    ensures 4.0 * |verdicts| as real <= TotalScore(verdicts) <= 20.0 * |verdicts| as real
    decreases |verdicts|
  {
    forall j | 0 <= j < |verdicts| ensures QuestionScore(verdicts[j]).Some? {
      ScoreWithinTwenty(verdicts[j]);
    }
    if verdicts != [] {
      var init := verdicts[..|verdicts| - 1];
      assert forall j :: 0 <= j < |init| ==> init[j] == verdicts[j];
      TotalWithinMax(init);
      ScoreWithinTwenty(verdicts[|verdicts| - 1]);
    }
  }

  /** `pct_score` before rounding: the total as a percentage of the maximum, 0 with no questions. */
  function Percent(t: Totals): (pct: real)
    ensures t.maxScore > 0.0 && 0.0 <= t.totalScore <= t.maxScore ==> 0.0 <= pct <= 100.0
  {
    if t.maxScore > 0.0 then t.totalScore / t.maxScore * 100.0 else 0.0
  }
}
