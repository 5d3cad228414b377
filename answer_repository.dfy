/**
 * app/repositories/answer_repository.py: how one extracted answer becomes a
 * `provision_has_answer` insert (its id, its typed value clause and its
 * provenance literals), how a batch infers missing answer types and counts
 * the saves that commit, and the order in which a stored answer's value is
 * probed. TypeDB is a log of committed writes with a failure map, as in the
 * other stores; the read queries are parameters.
 */
module AnswerRepository {
  import opened Wrappers
  import opened Text
  import opened PyValues
  import opened TypeQL
  import opened Effects
  import DealRepository

  // ---------------------------------------------------------------------------
  // Identifiers and value clauses
  // ---------------------------------------------------------------------------

  /** `f"{provision_id}_{question_id}"`. */
  function AnswerId(provisionId: string, questionId: string): (id: string)
    ensures |id| == |provisionId| + 1 + |questionId|
    ensures StartsWith(id, provisionId + "_") && id[|provisionId| + 1..] == questionId
  {
    provisionId + "_" + questionId
  }

  /** Within one provision, distinct questions get distinct answer ids. */
  lemma AnswerIdInjective(provisionId: string, q1: string, q2: string)
    requires AnswerId(provisionId, q1) == AnswerId(provisionId, q2)
    ensures q1 == q2
  {
    var id := AnswerId(provisionId, q1);
    assert q1 == id[|provisionId| + 1..];
  }

  /** Type names that take the `answer_double` path. */
  const DoubleTypes: set<string> := {"double", "currency", "percentage"}

  /** Words a text answer must lower-case to for a boolean answer to be true. */
  const TrueWords: set<string> := {"true", "yes", "1"}

  /** The boolean stored for a boolean answer: text is read as a yes/no word, anything else by `bool()`. */
  function BooleanAnswer(v: Value): (b: bool)
    ensures v.VStr? ==> (b <==> Lower(v.s) in TrueWords)
    ensures !v.VStr? ==> (b <==> Truthy(v))
  {
    if v.VStr? then Lower(v.s) in TrueWords else Truthy(v)
  }

  /** A non-empty text such as "No" or "false" is a false answer, unlike its truthiness. */
  lemma BooleanAnswerReadsWords()
    ensures BooleanAnswer(VStr("YES")) && BooleanAnswer(VStr("1"))
    ensures !BooleanAnswer(VStr("false")) && Truthy(VStr("false"))
    ensures !BooleanAnswer(VStr("No")) && Truthy(VStr("No"))
  {
    assert Lower("YES") == "yes";
    assert Lower("1") == "1";
    assert Lower("false") == "false";
    assert Lower("No") == "no";
  }

  /**
   * The escaping the string literals evidently need: backslash first, then
   * the quote, with newlines turned into spaces beforehand.
   */
  function AnswerEscape(s: string): (r: string)
    ensures Unescape(r) == ReplaceChar(s, '\n', " ")
    ensures QuotedBody(r) && '\n' !in r
  {
    DealRepository.Sanitize(Some(ReplaceChar(s, '\n', " ")))
  }

  /** The answer clause `save_answer` builds for a declared answer type; Failure is the exception `int()` or `float()` raises. */
  function AnswerAttr(v: Value, answerType: string, parseFloat: string -> Option<real>, parseInt: string -> Option<int>): (r: Result<Attr>)
    ensures answerType == "boolean" ==> r == Success(Attr("answer_boolean", LBool(BooleanAnswer(v))))
    ensures answerType == "integer" ==>
      (r.Success? <==> PyInt(v, parseInt).Success?) &&
      (r.Success? ==> r.value == Attr("answer_integer", LLong(PyInt(v, parseInt).value)))
    ensures answerType in DoubleTypes ==>
      (r.Success? <==> PyFloat(v, parseFloat).Success?) &&
      (r.Success? ==> r.value == Attr("answer_double", LDouble(PyFloat(v, parseFloat).value)))
    ensures answerType != "boolean" && answerType != "integer" && answerType !in DoubleTypes ==>
      r.Success? && r.value.name == "answer_string" && r.value.value.LString? &&
      Unescape(r.value.value.escaped) == ReplaceChar(Str(v), '\n', " ") && QuotedBody(r.value.value.escaped)
  {
    if answerType == "boolean" then
      Success(Attr("answer_boolean", LBool(BooleanAnswer(v))))
    else if answerType == "integer" then
      var i :- PyInt(v, parseInt);
      Success(Attr("answer_integer", LLong(i)))
    else if answerType in DoubleTypes then
      var f :- PyFloat(v, parseFloat);
      Success(Attr("answer_double", LDouble(f)))
    else
      Success(Attr("answer_string", LString(AnswerEscape(Str(v)))))
  }

  // ---------------------------------------------------------------------------
  // Provenance literals, as written and corrected
  // ---------------------------------------------------------------------------

  /** The escape lines 63 and 67 apply: quotes only, and newline to space. */
  function AsWrittenEscape(s: string): string
  {
    ReplaceChar(ReplaceChar(s, '"', "\\\""), '\n', " ")
  }

  /** `source_text` as written: escaped first, then cut to 500 characters. */
  function AsWrittenSourceText(s: string): (r: string)
    ensures |r| <= 500
  {
    Take(AsWrittenEscape(s), 500)
  }

  /** A plain prefix does not change whether a literal body closes. */
  lemma {:induction false} QuotedBodyPlainPrefix(p: string, x: string)
    requires '\\' !in p && '"' !in p
    ensures QuotedBody(p + x) == QuotedBody(x)
    decreases |p|
  {
    if p == [] {
      assert p + x == x;
    } else {
      assert (p + x)[0] == p[0];
      assert (p + x)[1..] == p[1..] + x;
      QuotedBodyPlainPrefix(p[1..], x);
    }
  }

  /** A text ending in a backslash escapes the closing quote of its literal. */
  lemma AsWrittenTrailingBackslash()
    ensures !QuotedBody(AsWrittenEscape("C:\\"))
  {
    assert AsWrittenEscape("C:\\") == "C:\\";
  }

  /** Cutting after escaping can split `\"` and leave a dangling backslash. */
  lemma AsWrittenSourceTextCutsEscape(p: string)
    requires |p| == 499 && '\\' !in p && '"' !in p && '\n' !in p
    ensures !QuotedBody(AsWrittenSourceText(p + "\""))
  {
    ReplaceCharConcat(p, "\"", '"', "\\\"");
    assert ReplaceChar("\"", '"', "\\\"") == "\\\"";
    ReplaceCharConcat(p, "\\\"", '\n', " ");
    assert ReplaceChar("\\\"", '\n', " ") == "\\\"";
    assert AsWrittenEscape(p + "\"") == p + "\\\"";
    assert AsWrittenSourceText(p + "\"") == p + "\\" by {
      assert (p + "\\\"")[..500] == p + "\\";
    }
    QuotedBodyPlainPrefix(p, "\\");
  }

  /** The escape line 68 applies to `source_section`: quotes only, newlines kept. */
  function AsWrittenSection(s: string): string
  {
    ReplaceChar(s, '"', "\\\"")
  }

  /** A section ending in a backslash (say "Section 6.06\\") escapes the closing quote of its literal, as on line 63. */
  lemma AsWrittenSectionTrailingBackslash(p: string)
    requires '\\' !in p && '"' !in p
    ensures !QuotedBody(AsWrittenSection(p + "\\"))
  {
    ReplaceCharConcat(p, "\\", '"', "\\\"");
    assert AsWrittenSection(p + "\\") == p + "\\";
    QuotedBodyPlainPrefix(p, "\\");
  }

  /** `source_text` corrected: cut to 500 characters, then escaped, so the literal reads back as that prefix. */
  function SourceTextLiteral(s: string): (r: string)
    ensures Unescape(r) == ReplaceChar(Take(s, 500), '\n', " ")
    ensures QuotedBody(r)
  {
    AnswerEscape(Take(s, 500))
  }

  /** `source_section` corrected: quotes and backslashes escaped, read back unchanged. */
  function SectionLiteral(s: string): (r: string)
    ensures Unescape(r) == s && QuotedBody(r)
  {
    DealRepository.Sanitize(Some(s))
  }

  // ---------------------------------------------------------------------------
  // save_answer
  // ---------------------------------------------------------------------------

  /** The `provision_has_answer` insert, with its literals; the timestamp is left out. */
  datatype AnswerWrite = AnswerWrite(
    provisionId: string,
    questionId: string,
    answerId: string,
    answer: Attr,
    sourceText: string,
    sourcePage: string,
    sourceSection: string,
    confidence: string)

  /**
   * Everything `save_answer` does before its write: Failure is an exception
   * it lets escape (a failed conversion, or a source text or section that is
   * not a string and has no `replace`).
   */
  function PlanAnswer(
    provisionId: string, questionId: string, value: Value, answerType: string,
    sourceText: Value, sourcePage: Value, sourceSection: Value, confidence: Value,
    parseFloat: string -> Option<real>, parseInt: string -> Option<int>): (r: Result<AnswerWrite>)
    ensures r.Failure? <==>
      AnswerAttr(value, answerType, parseFloat, parseInt).Failure? || !sourceText.VStr? || !sourceSection.VStr?
    ensures r.Success? ==>
      r.value.answerId == AnswerId(provisionId, questionId) &&
      r.value.answer == AnswerAttr(value, answerType, parseFloat, parseInt).value &&
      Unescape(r.value.sourceText) == ReplaceChar(Take(sourceText.s, 500), '\n', " ") &&
      Unescape(r.value.sourceSection) == sourceSection.s
  {
    var attr :- AnswerAttr(value, answerType, parseFloat, parseInt);
    if !sourceText.VStr? then Failure(NoAttribute(TypeName(sourceText), "replace"))
    else if !sourceSection.VStr? then Failure(NoAttribute(TypeName(sourceSection), "replace"))
    else
      Success(AnswerWrite(
        provisionId, questionId, AnswerId(provisionId, questionId), attr,
        SourceTextLiteral(sourceText.s), Str(sourcePage), SectionLiteral(sourceSection.s), Str(confidence)))
  }

  // ---------------------------------------------------------------------------
  // save_answers_batch
  // ---------------------------------------------------------------------------

  /** The type a batch entry without a truthy `answer_type` gets, bool checked first. */
  function InferType(v: Value): (t: string)
    ensures v.VBool? <==> t == "boolean"
    ensures v.VInt? <==> t == "integer"
    ensures v.VFloat? <==> t == "double"
  {
    if v.VBool? then "boolean" else if v.VInt? then "integer" else if v.VFloat? then "double" else "string"
  }

  /** An inferred type never fails to convert, and the stored literal is the value itself. */
  lemma InferredAnswerKeepsValue(v: Value, parseFloat: string -> Option<real>, parseInt: string -> Option<int>)
    ensures AnswerAttr(v, InferType(v), parseFloat, parseInt).Success?
    ensures v.VBool? ==> AnswerAttr(v, InferType(v), parseFloat, parseInt).value.value == LBool(v.b)
    ensures v.VInt? ==> AnswerAttr(v, InferType(v), parseFloat, parseInt).value.value == LLong(v.i)
    ensures v.VFloat? ==> AnswerAttr(v, InferType(v), parseFloat, parseInt).value.value == LDouble(v.f)
  {
  }

  /**
   * The answer type a batch entry is saved under. A truthy non-string
   * `answer_type` equals none of the type names, so it is given as "".
   */
  function EntryType(entry: map<string, Value>): string
  {
    var t := Get(entry, "answer_type");
    if !Truthy(t) then InferType(Get(entry, "value"))
    else if t.VStr? then t.s
    else ""
  }

  /** `dict.get(key, default)`. */
  function GetOrDefault(entry: map<string, Value>, key: string, default: Value): Value
  {
    if key in entry then entry[key] else default
  }

  /** The write one batch entry leads to; None when the entry raises before writing (the batch catches it). */
  function EntryWrite(
    provisionId: string, entry: map<string, Value>,
    parseFloat: string -> Option<real>, parseInt: string -> Option<int>): (w: Option<AnswerWrite>)
    ensures "question_id" !in entry ==> w.None?
    ensures w.Some? ==> w.value.answerId == AnswerId(provisionId, Str(entry["question_id"]))
  {
    if "question_id" !in entry then None
    else
      var p := PlanAnswer(
        provisionId, Str(entry["question_id"]), Get(entry, "value"), EntryType(entry),
        GetOrDefault(entry, "source_text", VStr("")), GetOrDefault(entry, "source_page", VInt(0)),
        GetOrDefault(entry, "source_section", VStr("")), GetOrDefault(entry, "confidence", VStr("medium")),
        parseFloat, parseInt);
      if p.Success? then Some(p.value) else None
  }

  /** A planned write as a run of at most one write. */
  function Writes(plan: Option<AnswerWrite>): (ws: seq<AnswerWrite>)
    ensures |ws| <= 1
  {
    match plan
    case None => []
    case Some(w) => [w]
  }

  /** The planned writes, skipping the entries that raise. */
  function Attempted(plans: seq<Option<AnswerWrite>>): (ws: seq<AnswerWrite>)
    ensures |ws| <= |plans|
    decreases |plans|
  {
    if plans == [] then [] else Attempted(plans[..|plans| - 1]) + Writes(plans[|plans| - 1])
  }

  lemma {:induction false} AttemptedAllPlanned(plans: seq<Option<AnswerWrite>>)
    requires forall k :: 0 <= k < |plans| ==> plans[k].Some?
    ensures |Attempted(plans)| == |plans|
    decreases |plans|
  {
    if plans != [] {
      AttemptedAllPlanned(plans[..|plans| - 1]);
    }
  }

  lemma {:induction false} AttemptedArePlanned(plans: seq<Option<AnswerWrite>>)
    ensures forall w :: w in Attempted(plans) ==> Some(w) in plans
    decreases |plans|
  {
    if plans != [] {
      var init := plans[..|plans| - 1];
      AttemptedArePlanned(init);
      assert forall o :: o in init ==> o in plans;
    }
  }

  /** Each entry's planned write, in entry order. */
  function EntryPlans(
    provisionId: string, entries: seq<map<string, Value>>,
    parseFloat: string -> Option<real>, parseInt: string -> Option<int>): (plans: seq<Option<AnswerWrite>>)
    ensures |plans| == |entries|
    ensures forall k :: 0 <= k < |entries| ==> plans[k] == EntryWrite(provisionId, entries[k], parseFloat, parseInt)
  {
    seq(|entries|, k requires 0 <= k < |entries| => EntryWrite(provisionId, entries[k], parseFloat, parseInt))
  }

  /** The writes a batch attempts, in entry order. */
  function BatchWrites(
    provisionId: string, entries: seq<map<string, Value>>,
    parseFloat: string -> Option<real>, parseInt: string -> Option<int>): (ws: seq<AnswerWrite>)
    ensures |ws| <= |entries|
  {
    Attempted(EntryPlans(provisionId, entries, parseFloat, parseInt))
  }

  /** Every attempted write belongs to an entry that has a question id, under that entry's answer id. */
  lemma BatchWritesFromEntries(
    provisionId: string, entries: seq<map<string, Value>>,
    parseFloat: string -> Option<real>, parseInt: string -> Option<int>)
    ensures forall w :: w in BatchWrites(provisionId, entries, parseFloat, parseInt) ==>
      exists e :: e in entries && "question_id" in e && w.answerId == AnswerId(provisionId, Str(e["question_id"]))
  {
    var plans := EntryPlans(provisionId, entries, parseFloat, parseInt);
    AttemptedArePlanned(plans);
    forall w | w in BatchWrites(provisionId, entries, parseFloat, parseInt)
      ensures exists e :: e in entries && "question_id" in e && w.answerId == AnswerId(provisionId, Str(e["question_id"]))
    {
      var k :| 0 <= k < |plans| && plans[k] == Some(w);
      assert entries[k] in entries;
    }
  }

  /** A bare entry (question id and value only) is always written: its inferred type converts and the text defaults are strings. */
  lemma BareEntryWritten(
    provisionId: string, entry: map<string, Value>,
    parseFloat: string -> Option<real>, parseInt: string -> Option<int>)
    requires "question_id" in entry
    requires "answer_type" !in entry && "source_text" !in entry && "source_section" !in entry
    ensures EntryWrite(provisionId, entry, parseFloat, parseInt).Some?
  {
    InferredAnswerKeepsValue(Get(entry, "value"), parseFloat, parseInt);
  }

  /** A batch of bare entries attempts one write per entry. */
  lemma BareBatchAttemptsAll(
    provisionId: string, entries: seq<map<string, Value>>,
    parseFloat: string -> Option<real>, parseInt: string -> Option<int>)
    requires forall k :: 0 <= k < |entries| ==>
      "question_id" in entries[k] && "answer_type" !in entries[k] &&
      "source_text" !in entries[k] && "source_section" !in entries[k]
    ensures |BatchWrites(provisionId, entries, parseFloat, parseInt)| == |entries|
  {
    var plans := EntryPlans(provisionId, entries, parseFloat, parseInt);
    forall k | 0 <= k < |plans|
      ensures plans[k].Some?
    {
      BareEntryWritten(provisionId, entries[k], parseFloat, parseInt);
    }
    AttemptedAllPlanned(plans);
  }

  // ---------------------------------------------------------------------------
  // _get_answer_value
  // ---------------------------------------------------------------------------

  /** The value attributes probed, in order; the converters beside them are never applied. */
  const Probes: seq<string> := ["answer_boolean", "answer_integer", "answer_double", "answer_string"]

  /** A probe hits when its read succeeds with at least one row. */
  predicate Hit(read: (string, string) -> Result<seq<Value>>, answerId: string, attr: string)
  {
    read(answerId, attr).Success? && |read(answerId, attr).value| > 0
  }

  /** The value of the first probe from `k` on that hits, or None. */
  function FirstHit(read: (string, string) -> Result<seq<Value>>, answerId: string, k: nat): (r: Option<Value>)
    requires k <= |Probes|
    ensures r.None? <==> forall j :: k <= j < |Probes| ==> !Hit(read, answerId, Probes[j])
    ensures r.Some? ==> exists j :: (k <= j < |Probes| && Hit(read, answerId, Probes[j]) &&
      r.value == read(answerId, Probes[j]).value[0] &&
      forall i :: k <= i < j ==> !Hit(read, answerId, Probes[i]))
    decreases |Probes| - k
  {
    if k == |Probes| then None
    else if Hit(read, answerId, Probes[k]) then Some(read(answerId, Probes[k]).value[0])
    else FirstHit(read, answerId, k + 1)
  }

  /** A boolean hit wins over every other probe. */
  lemma BooleanProbeFirst(read: (string, string) -> Result<seq<Value>>, answerId: string)
    requires Hit(read, answerId, "answer_boolean")
    ensures FirstHit(read, answerId, 0) == Some(read(answerId, "answer_boolean").value[0])
  {
  }

  /**
   * `_get_answer_value`: the probes in order; a failing read moves on, the
   * first non-empty result returns its first row, and no hit gives None.
   */
  method GetAnswerValue(answerId: string, read: (string, string) -> Result<seq<Value>>) returns (v: Value)
    ensures v == FirstHit(read, answerId, 0).GetOr(VNone)
  {
    var k := 0;
    while k < |Probes|
      invariant 0 <= k <= |Probes|
      invariant FirstHit(read, answerId, 0) == FirstHit(read, answerId, k)
    {
      var results := read(answerId, Probes[k]);
      if results.Success? && |results.value| > 0 {
        return results.value[0];
      }
      k := k + 1;
    }
    return VNone;
  }

  /**
   * With the client as it ships, which has no `query_read`, every probe
   * raises and is skipped, so no stored answer ever has a value.
   */
  lemma NoQueryReadNoValue(read: (string, string) -> Result<seq<Value>>, answerId: string)
    requires forall attr :: read(answerId, attr).Failure?
    ensures FirstHit(read, answerId, 0) == None
  {
    forall j | 0 <= j < |Probes|
      ensures !Hit(read, answerId, Probes[j])
    {
      assert read(answerId, Probes[j]).Failure?;
    }
  }

  // ---------------------------------------------------------------------------
  // The repository over an abstract store
  // ---------------------------------------------------------------------------

  /**
   * With the client as it ships, which has no `query_write`, every write
   * raises and is caught: nothing commits, so `save_answer` returns None and
   * `save_answers_batch` returns 0 whatever it is given.
   */
  lemma {:induction false} NoQueryWriteSavesNothing(ws: seq<AnswerWrite>, at: nat, failures: map<nat, string>)
    requires forall k :: at <= k < at + |ws| ==> k in failures
    ensures Committed(ws, at, failures) == []
    decreases |ws|
  {
    if ws != [] {
      NoQueryWriteSavesNothing(ws[1..], at + 1, failures);
    }
  }

  class AnswerStore {
    var log: seq<AnswerWrite>
    var attempts: nat
    const failures: map<nat, string>

    constructor (failures: map<nat, string>)
      ensures this.failures == failures && log == [] && attempts == 0
    {
      this.failures := failures;
      log := [];
      attempts := 0;
    }

    /** One write transaction: it commits, or raises and leaves the log alone. */
    method Execute(w: AnswerWrite) returns (err: Option<string>)
      modifies this
      ensures err == FailureAt(failures, old(attempts))
      ensures attempts == old(attempts) + 1
      ensures log == old(log) + (if err.None? then [w] else [])
    {
      err := FailureAt(failures, attempts);
      if err.None? {
        log := log + [w];
      }
      attempts := attempts + 1;
    }

    /**
     * `save_answer`: Failure is an exception raised before the write;
     * otherwise the answer id when the write commits and None when it fails.
     */
    method SaveAnswer(
      provisionId: string, questionId: string, value: Value, answerType: string,
      sourceText: Value, sourcePage: Value, sourceSection: Value, confidence: Value,
      parseFloat: string -> Option<real>, parseInt: string -> Option<int>) returns (r: Result<Option<string>>)
      modifies this
      ensures
        var p := PlanAnswer(provisionId, questionId, value, answerType, sourceText, sourcePage, sourceSection, confidence, parseFloat, parseInt);
        (p.Failure? ==> r == Failure(p.error) && log == old(log) && attempts == old(attempts)) &&
        (p.Success? ==> attempts == old(attempts) + 1) &&
        (p.Success? && old(attempts) !in failures ==> r == Success(Some(AnswerId(provisionId, questionId))) && log == old(log) + [p.value]) &&
        (p.Success? && old(attempts) in failures ==> r == Success(None) && log == old(log))
    {
      var w :- PlanAnswer(provisionId, questionId, value, answerType, sourceText, sourcePage, sourceSection, confidence, parseFloat, parseInt);
      var err := Execute(w);
      if err.None? {
        r := Success(Some(w.answerId));
      } else {
        r := Success(None);
      }
    }

    /** Attempts each write in turn, counting the ones that commit; a failure is logged and the loop goes on. */
    method SaveEach(ws: seq<AnswerWrite>) returns (saved: nat)
      modifies this
      ensures log == old(log) + Committed(ws, old(attempts), failures)
      ensures attempts == old(attempts) + |ws|
      ensures saved == |Committed(ws, old(attempts), failures)|
    {
      saved := 0;
      var i := 0;
      while i < |ws|
        invariant 0 <= i <= |ws|
        invariant log == old(log) + Committed(ws[..i], old(attempts), failures)
        invariant attempts == old(attempts) + i
        invariant saved == |Committed(ws[..i], old(attempts), failures)|
      {
        CommittedSnoc(ws[..i], ws[i], old(attempts), failures);
        assert ws[..i + 1] == ws[..i] + [ws[i]];
        var err := Execute(ws[i]);
        if err.None? {
          saved := saved + 1;
        }
        i := i + 1;
      }
      assert ws[..i] == ws;
    }

    /**
     * `save_answers_batch`: each entry saved in turn, every exception caught;
     * the count is the number of saves that committed. Planning an entry is
     * pure, so the entries' writes are planned first and then attempted in
     * entry order.
     */
    method SaveAnswersBatch(
      provisionId: string, entries: seq<map<string, Value>>,
      parseFloat: string -> Option<real>, parseInt: string -> Option<int>) returns (saved: nat)
      modifies this
      ensures log == old(log) + Committed(BatchWrites(provisionId, entries, parseFloat, parseInt), old(attempts), failures)
      ensures attempts == old(attempts) + |BatchWrites(provisionId, entries, parseFloat, parseInt)|
      ensures saved == |Committed(BatchWrites(provisionId, entries, parseFloat, parseInt), old(attempts), failures)|
      ensures saved <= |entries|
    {
      saved := SaveEach(BatchWrites(provisionId, entries, parseFloat, parseInt));
    }
  }
}
