/**
 * The deterministic parts of the ablation run, which compares answers
 * built from the structured graph, a flattened view and the raw text:
 * cleaning a model reply down to its JSON object, parsing a reasoning
 * reply without ever raising, limiting the question list, the pre-flight
 * check on the raw text, and the interaction summary built from the
 * judged results. Model calls are outside the model; their replies are
 * inputs.
 */
module Ablation {
  import opened Wrappers
  import opened Text
  import opened JsonValues

  // ---------------------------------------------------------------------
  // Cleaning a reply
  // ---------------------------------------------------------------------

  /** `re.sub(r'^```(?:json)?\s*\n?', '', raw)` on text that starts with a fence. */
  function StripLeadingFence(raw: string): string
    requires StartsWith(raw, "```")
  {
    var rest := raw[3..];
    LStrip(if StartsWith(rest, "json") then rest[4..] else rest)
  }

  /**
   * `re.sub(r'\n?```\s*$', '', s)`: a closing fence followed only by
   * whitespace is removed, with the newline just before it.
   */
  function StripTrailingFence(s: string): (r: string)
    ensures StartsWith(s, r)
  {
    var t := RStrip(s);
    if EndsWith(t, "```") then
      var u := t[..|t| - 3];
      assert s[..|u|] == u;
      if u != [] && u[|u| - 1] == '\n' then
        assert s[..|u| - 1] == u[..|u| - 1];
        u[..|u| - 1]
      else u
    else s
  }

  /** The stripped reply with its code fences removed, when it opens with one. */
  function Defenced(raw: string): string
  {
    if StartsWith(raw, "```") then StripTrailingFence(StripLeadingFence(raw)) else raw
  }

  /** `raw[start:end + 1]` from the first '{' to the last '}', or `raw` itself when either is missing. */
  function CutToBraces(raw: string): string
  {
    match Delimited(raw, '{', '}')
    case None => raw
    case Some(body) => body
  }

  /** `_strip_json_fences`: the reply, stripped and de-fenced, cut to the span from the first '{' to the last '}'. */
  function StripJsonFences(text: string): (r: string)
    ensures |r| <= |text|
  {
    CutToBraces(Defenced(Strip(text)))
  }

  /** A text that opens with '{' and closes with '}' is its own brace span. */
  lemma WholeObjectCut(o: string)
    requires |o| >= 2 && o[0] == '{' && o[|o| - 1] == '}'
    ensures CutToBraces(o) == o
  {
    assert OccursAt(o, "{", 0) by { assert o[0..1] == "{"; }
    assert OccursAt(o, "}", |o| - 1) by { assert o[|o| - 1..|o|] == "}"; }
    assert o[0..|o|] == o;
  }

  /** The opening ```json fence and the newline after it come off an object. */
  lemma LeadingFenceOff(o: string)
    requires |o| >= 2 && o[0] == '{'
    ensures StartsWith("```json\n" + o + "\n```", "```")
    ensures StripLeadingFence("```json\n" + o + "\n```") == o + "\n```"
  {
    var s := "```json\n" + o + "\n```";
    assert s[..3] == "```";
    var rest := s[3..];
    assert rest == "json\n" + o + "\n```";
    assert rest[..4] == "json";
    var body := o + "\n```";
    assert rest[4..] == "\n" + body;
    assert ("\n" + body)[1..] == body;
    assert LStrip(body) == body;
  }

  /** The closing fence and the newline before it come off an object. */
  lemma TrailingFenceOff(o: string)
    requires |o| >= 2 && o[|o| - 1] == '}'
    ensures StripTrailingFence(o + "\n```") == o
  {
    var body := o + "\n```";
    assert RStrip(body) == body;
    var u := o + "\n";
    assert body[|body| - 3..] == "```" && body[..|body| - 3] == u;
    assert u[..|u| - 1] == o;
  }

  /** Text that opens and closes with a non-space character is its own strip. */
  lemma StripKeeps(s: string)
    requires |s| >= 1 && !IsSpace(s[0]) && !IsSpace(s[|s| - 1])
    ensures Strip(s) == s
  {
    assert LStrip(s) == s;
  }

  /**
   * The promise of `_strip_json_fences`: an object wrapped in a ```json
   * fence comes back as the object alone, and a bare object comes back
   * unchanged.
   */
  lemma FencedObjectRoundTrip(o: string)
    requires |o| >= 2 && o[0] == '{' && o[|o| - 1] == '}'
    ensures StripJsonFences("```json\n" + o + "\n```") == o
    ensures StripJsonFences(o) == o
  {
    WholeObjectCut(o);
    StripKeeps(o);
    assert !StartsWith(o, "```") by { assert o[0] != '`'; }
    var s := "```json\n" + o + "\n```";
    assert s[0] == '`' && s[|s| - 1] == '`';
    StripKeeps(s);
    LeadingFenceOff(o);
    TrailingFenceOff(o);
    assert Defenced(s) == o;
  }

  /**
   * Without both braces the text is returned as it is; with both, the
   * result is empty (the last '}' comes before the first '{') or is the
   * span of the text that opens at its first '{' and closes at its last
   * '}'.
   */
  lemma CutToBracesShape(raw: string)
    ensures var r := CutToBraces(raw);
      ('{' !in raw || '}' !in raw ==> r == raw) &&
      ('{' in raw && '}' in raw && r != "" ==>
        r[0] == '{' && r[|r| - 1] == '}' &&
        exists i :: 0 <= i && i + |r| <= |raw| && raw[i..i + |r|] == r && '{' !in raw[..i] && '}' !in raw[i + |r|..])
  {
    var d := Delimited(raw, '{', '}');
    if d.Some? {
      assert CutToBraces(raw) == d.value;
    }
  }

  /** Removing a closing fence drops at least its three backticks. */
  lemma ClosingFenceRemoved(s: string)
    requires EndsWith(RStrip(s), "```")
    ensures |StripTrailingFence(s)| <= |RStrip(s)| - 3
  {
  }

  // ---------------------------------------------------------------------
  // Reasoning replies
  // ---------------------------------------------------------------------

  /** A parsed reasoning reply, or the reply text itself when parsing failed. */
  datatype ReasoningParse = Parsed(reasoning: Json, answer: Json) | Unparsed(text: string)

  /** The schema check on the reasoning object: its dump, or None when it does not validate. */
  type Validator = Json -> Option<Json>

  /**
   * `_parse_reasoning_response`: decode the cleaned reply, validate its
   * "reasoning" entry and take its "answer" entry; any failure on the way
   * (no JSON, not an object, a missing key, a failed validation) gives the
   * original text back.
   */
  function ParseReasoningResponse(answerText: string, decode: Decoder, validate: Validator): (r: ReasoningParse)
    ensures r.Unparsed? ==> r.text == answerText
    ensures r.Parsed? ==> decode(StripJsonFences(answerText)).Some?
  {
    match decode(StripJsonFences(answerText))
    case None => Unparsed(answerText)
    case Some(parsed) =>
      if !parsed.JObject? || "reasoning" !in parsed.fields then Unparsed(answerText)
      else
        match validate(parsed.fields["reasoning"])
        case None => Unparsed(answerText)
        case Some(reasoning) =>
          if "answer" !in parsed.fields then Unparsed(answerText) else Parsed(reasoning, parsed.fields["answer"])
  }

  /**
   * The parse succeeds exactly when the cleaned reply decodes to an
   * object with both entries and its reasoning validates; it then carries
   * the validated reasoning and the answer entry, and otherwise the reply
   * exactly as given.
   */
  lemma ReasoningParseIff(answerText: string, decode: Decoder, validate: Validator)
    ensures var p := ParseReasoningResponse(answerText, decode, validate);
      var d := decode(StripJsonFences(answerText));
      (p.Parsed? <==> (d.Some? && d.value.JObject? && "reasoning" in d.value.fields && "answer" in d.value.fields &&
        validate(d.value.fields["reasoning"]).Some?)) &&
      (p.Parsed? ==> p.reasoning == validate(d.value.fields["reasoning"]).value && p.answer == d.value.fields["answer"]) &&
      (p.Unparsed? ==> p.text == answerText)
  {
    var p := ParseReasoningResponse(answerText, decode, validate);
    match decode(StripJsonFences(answerText))
    case None =>
      assert p == Unparsed(answerText);
    case Some(parsed) =>
      if parsed.JObject? && "reasoning" in parsed.fields {
        match validate(parsed.fields["reasoning"])
        case None =>
          assert p == Unparsed(answerText);
        case Some(reasoning) =>
          assert p == if "answer" !in parsed.fields then Unparsed(answerText) else Parsed(reasoning, parsed.fields["answer"]);
      } else {
        assert p == Unparsed(answerText);
      }
  }

  // ---------------------------------------------------------------------
  // The run
  // ---------------------------------------------------------------------

  /** The raw text is required and must hold at least 1000 characters. */
  datatype Preflight = RawTextOk(text: string) | RawTextMissing | RawTextTooShort(length: nat)

  function CheckRawText(file: Option<string>): (p: Preflight)
    ensures p.RawTextOk? <==> file.Some? && |file.value| >= 1000
    ensures p.RawTextOk? ==> p.text == file.value
    ensures p.RawTextTooShort? ==> p.length < 1000
  {
    match file
    case None => RawTextMissing
    case Some(text) => if |text| < 1000 then RawTextTooShort(|text|) else RawTextOk(text)
  }

  /**
   * The questions run: all of them when the limit is unset or 0, else
   * `questions[:limit]`.
   */
  function QuestionsToRun<T>(questions: seq<T>, maxQuestions: Option<int>): (run: seq<T>)
    ensures |run| <= |questions| && run == questions[..|run|]
    ensures maxQuestions.None? || maxQuestions == Some(0) ==> run == questions
    ensures maxQuestions.Some? && maxQuestions.value > 0 ==>
      |run| == if maxQuestions.value < |questions| then maxQuestions.value else |questions|
    ensures maxQuestions.Some? && maxQuestions.value < 0 ==>
      |run| == if |questions| + maxQuestions.value > 0 then |questions| + maxQuestions.value else 0
  {
    if maxQuestions.Some? && maxQuestions.value != 0 then SliceTo(questions, maxQuestions.value) else questions
  }

  // ---------------------------------------------------------------------
  // Interaction summary
  // ---------------------------------------------------------------------

  /** The interactions each format's judge found for one question, as strings. */
  datatype QuestionFindings = QuestionFindings(structured: seq<string>, flat: seq<string>, raw: seq<string>)

  datatype Format = Structured | Flat | Raw

  function Found(q: QuestionFindings, f: Format): seq<string>
  {
    match f
    case Structured => q.structured
    case Flat => q.flat
    case Raw => q.raw
  }

  /** Every interaction one format found over the questions. */
  function AllFound(results: seq<QuestionFindings>, f: Format): set<string>
  {
    if results == [] then {}
    else
      var last := Found(results[|results| - 1], f);
      AllFound(results[..|results| - 1], f) + (set x | x in last)
  }

  lemma {:induction false} AllFoundMembers(results: seq<QuestionFindings>, f: Format)
    ensures forall x :: x in AllFound(results, f) <==> exists k :: 0 <= k < |results| && x in Found(results[k], f)
    decreases |results|
  {
    if results != [] {
      var init := results[..|results| - 1];
      AllFoundMembers(init, f);
      forall x | x in AllFound(results, f) ensures exists k :: 0 <= k < |results| && x in Found(results[k], f) {
        if x in AllFound(init, f) {
          var k :| 0 <= k < |init| && x in Found(init[k], f);
          assert results[k] == init[k];
        }
      }
      forall x | (exists k :: 0 <= k < |results| && x in Found(results[k], f)) ensures x in AllFound(results, f) {
        var k :| 0 <= k < |results| && x in Found(results[k], f);
        if k < |init| {
          assert results[k] == init[k];
        }
      }
    }
  }

  /** `target_set.add(str(item))` for each item. */
  method AddItems(target: set<string>, items: seq<string>) returns (r: set<string>)
    ensures r == target + (set x | x in items)
  {
    r := target;
    for j := 0 to |items|
      invariant r == target + (set x | x in items[..j])
    {
      assert items[..j + 1] == items[..j] + [items[j]];
      r := r + {items[j]};
    }
    assert items[..|items|] == items;
  }

  /** The three interaction sets gathered over the results. */
  method CollectInteractions(results: seq<QuestionFindings>) returns (structured: set<string>, flat: set<string>, raw: set<string>)
    ensures structured == AllFound(results, Structured)
    ensures flat == AllFound(results, Flat)
    ensures raw == AllFound(results, Raw)
  {
    structured, flat, raw := {}, {}, {};
    for i := 0 to |results|
      invariant structured == AllFound(results[..i], Structured)
      invariant flat == AllFound(results[..i], Flat)
      invariant raw == AllFound(results[..i], Raw)
    {
      assert results[..i + 1][..i] == results[..i];
      var r := results[i];
      structured := AddItems(structured, r.structured);
      flat := AddItems(flat, r.flat);
      raw := AddItems(raw, r.raw);
    }
    assert results[..|results|] == results;
  }

  /** Python's string order: code point by code point, a proper prefix first. */
  predicate LexLe(a: string, b: string)
  {
    a == [] || (b != [] && (a[0] < b[0] || (a[0] == b[0] && LexLe(a[1..], b[1..]))))
  }

  lemma LexLeTotal(a: string, b: string)
    ensures LexLe(a, b) || LexLe(b, a)
  {
  }

  lemma LexLeAntisymmetric(a: string, b: string)
    requires LexLe(a, b) && LexLe(b, a)
    ensures a == b
  {
    if a != [] && b != [] {
      LexLeAntisymmetric(a[1..], b[1..]);
      assert a == [a[0]] + a[1..] && b == [b[0]] + b[1..];
    }
  }

  lemma LexLeTransitive(a: string, b: string, c: string)
    requires LexLe(a, b) && LexLe(b, c)
    ensures LexLe(a, c)
  {
    if a != [] && b != [] && c != [] && a[0] == b[0] && b[0] == c[0] {
      LexLeTransitive(a[1..], b[1..], c[1..]);
    }
  }

  /** Strictly increasing in string order. */
  predicate StrictlySorted(s: seq<string>)
  {
    forall i, j :: 0 <= i < j < |s| ==> LexLe(s[i], s[j]) && s[i] != s[j]
  }

  /** A non-empty set of strings has a least element. */
  lemma {:induction false} HasLeast(s: set<string>)
    requires s != {}
    ensures exists m :: m in s && forall y :: y in s ==> LexLe(m, y)
    decreases |s|
  {
    var x :| x in s;
    if s == {x} {
      LexLeTotal(x, x);
      assert forall y :: y in s ==> y == x;
    } else {
      HasLeast(s - {x});
      var m :| m in s - {x} && forall y :: y in s - {x} ==> LexLe(m, y);
      LexLeTotal(x, m);
      if LexLe(x, m) {
        forall y | y in s ensures LexLe(x, y) {
          if y != x {
            LexLeTransitive(x, m, y);
          } else {
            LexLeTotal(x, x);
          }
        }
        assert x in s;
      } else {
        forall y | y in s ensures LexLe(m, y) {
          if y != x {
            assert y in s - {x};
          }
        }
        assert m in s;
      }
    }
  }

  /** `sorted(s)` for a set of strings. */
  method SortedStrings(s: set<string>) returns (r: seq<string>)
    ensures forall x :: x in r <==> x in s
    ensures |r| == |s|
    ensures StrictlySorted(r)
  {
    r := [];
    var rest := s;
    while rest != {}
      invariant rest <= s
      invariant forall x :: x in s <==> x in r || x in rest
      invariant forall x :: x in r ==> x !in rest
      invariant |r| + |rest| == |s|
      invariant StrictlySorted(r)
      invariant forall i, y :: 0 <= i < |r| && y in rest ==> LexLe(r[i], y) && r[i] != y
      decreases |rest|
    {
      HasLeast(rest);
      var m :| m in rest && forall y :: y in rest ==> LexLe(m, y);
      forall y | y in rest - {m} ensures LexLe(m, y) && m != y {
      }
      r := r + [m];
      rest := rest - {m};
    }
  }

  /**
   * The summary's interaction lists: found only with the structured
   * format, found with an extracted format but not the raw one, and found
   * by all three; each sorted. The first is part of the second, and the
   * third shares nothing with the second.
   */
  method InteractionBuckets(results: seq<QuestionFindings>)
    returns (onlyStructured: seq<string>, onlyWithExtraction: seq<string>, allFound: seq<string>)
    ensures var s, f, r := AllFound(results, Structured), AllFound(results, Flat), AllFound(results, Raw);
      (forall x :: x in onlyStructured <==> x in s && x !in f && x !in r) &&
      (forall x :: x in onlyWithExtraction <==> (x in s || x in f) && x !in r) &&
      (forall x :: x in allFound <==> x in s && x in f && x in r)
    ensures StrictlySorted(onlyStructured) && StrictlySorted(onlyWithExtraction) && StrictlySorted(allFound)
    ensures forall x :: x in onlyStructured ==> x in onlyWithExtraction
    ensures forall x :: x in allFound ==> x !in onlyWithExtraction
  {
    var structured, flat, raw := CollectInteractions(results);
    onlyStructured := SortedStrings(structured - flat - raw);
    onlyWithExtraction := SortedStrings((structured + flat) - raw);
    allFound := SortedStrings(structured * flat * raw);
  }
}
