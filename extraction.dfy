/**
 * app/services/extraction.py: the ontology-driven extraction of typed
 * primitives. The model keeps the deterministic parts: the answer-type
 * hints and field lines of the prompt, the filtering of the LLM's JSON
 * array against the loaded field names, and the per-covenant field cache.
 * The LLM call, the database query and the prompt's literal text are left
 * out; their results are parameters.
 */
module Extraction {
  import opened Wrappers
  import opened Text
  import opened PyValues
  import opened JsonValues
  import opened Models

  /** A field to extract, as loaded from the ontology. */
  datatype OntologyField = OntologyField(
    questionId: string,
    questionText: string,
    targetFieldName: string,
    targetEntityType: string,
    answerType: string)

  // ---------------------------------------------------------------------------
  // _get_type_hint and _build_prompt
  // ---------------------------------------------------------------------------

  const TypeHints: map<string, string> := map[
    "boolean" := "boolean",
    "integer" := "integer",
    "double" := "double",
    "currency" := "double",
    "percentage" := "double",
    "string" := "string",
    "text" := "string",
    "multiselect" := "skip"]

  /** `_get_type_hint`: an unknown answer type is hinted as a string. */
  function TypeHint(answerType: string): (h: string)
    ensures answerType in {"boolean", "integer", "double", "string"} ==> h == answerType
    ensures answerType in {"currency", "percentage"} ==> h == "double"
    ensures answerType == "text" ==> h == "string"
    ensures answerType == "multiselect" ==> h == "skip"
    ensures answerType !in TypeHints ==> h == "string"
    ensures h in {"boolean", "integer", "double", "string", "skip"}
  {
    if answerType in TypeHints then TypeHints[answerType] else "string"
  }

  /** What the prompt calls the covenant; an unknown covenant type describes itself. */
  function CovenantDescription(covenantType: string): (d: string)
    ensures covenantType == "MFN" ==> d == "Most Favored Nation (MFN) provision"
    ensures covenantType == "RP" ==> d == "Restricted Payments covenant (dividends and debt payments)"
    ensures covenantType != "MFN" && covenantType != "RP" ==> d == covenantType
  {
    var known := map[
      "MFN" := "Most Favored Nation (MFN) provision",
      "RP" := "Restricted Payments covenant (dividends and debt payments)"];
    if covenantType in known then known[covenantType] else covenantType
  }

  /** One prompt line: `- name (hint): question`. */
  function FieldLine(f: OntologyField): (line: string)
    ensures StartsWith(line, "- " + f.targetFieldName + " (")
  {
    "- " + f.targetFieldName + " (" + TypeHint(f.answerType) + "): " + f.questionText
  }

  /** The field lines of `_build_prompt`, one per field in field order. */
  method FieldLines(fields: seq<OntologyField>) returns (lines: seq<string>)
    ensures |lines| == |fields|
    ensures forall k :: 0 <= k < |fields| ==> lines[k] == FieldLine(fields[k])
  {
    lines := [];
    for i := 0 to |fields|
      invariant |lines| == i
      invariant forall k :: 0 <= k < i ==> lines[k] == FieldLine(fields[k])
    {
      lines := lines + [FieldLine(fields[i])];
    }
  }

  lemma HintHasNoNewline(answerType: string)
    ensures '\n' !in TypeHint(answerType)
  {
    var h := TypeHint(answerType);
    assert h == "boolean" || h == "integer" || h == "double" || h == "string" || h == "skip";
  }

  lemma FieldLineOneLine(f: OntologyField)
    requires '\n' !in f.targetFieldName && '\n' !in f.questionText
    ensures '\n' !in FieldLine(f)
  {
    HintHasNoNewline(f.answerType);
    var h := TypeHint(f.answerType);
    var parts := ["- ", f.targetFieldName, " (", h, "): ", f.questionText];
    assert FieldLine(f) == parts[0] + parts[1] + parts[2] + parts[3] + parts[4] + parts[5];
    forall i | 0 <= i < |FieldLine(f)| ensures FieldLine(f)[i] != '\n' {
    }
  }

  /**
   * When no field name or question text holds a newline, the fields section
   * reads back as exactly one line per field.
   */
  lemma FieldsSectionLines(fields: seq<OntologyField>, lines: seq<string>)
    requires |fields| >= 1 && |lines| == |fields|
    requires forall k :: 0 <= k < |fields| ==> lines[k] == FieldLine(fields[k])
    requires forall k :: 0 <= k < |fields| ==> '\n' !in fields[k].targetFieldName && '\n' !in fields[k].questionText
    ensures Split(Join(lines, "\n"), '\n') == lines
  {
    forall k | 0 <= k < |lines| ensures '\n' !in lines[k] {
      FieldLineOneLine(fields[k]);
    }
    JoinSplit(lines, '\n');
  }

  // ---------------------------------------------------------------------------
  // _parse_extraction_response
  // ---------------------------------------------------------------------------

  /** The names a response may use: the loaded fields' target names. */
  function ValidFields(fields: seq<OntologyField>): (names: set<string>)
    ensures forall f :: f in fields ==> f.targetFieldName in names
    ensures forall n :: n in names ==> exists f :: f in fields && f.targetFieldName == n
  {
    set f | f in fields :: f.targetFieldName
  }

  /** What one array item does to the result: skipped, kept, or an exception that discards everything. */
  datatype Outcome = Skip | Keep(p: ExtractedPrimitive) | Raise

  /** Text for a required `str` field of the primitive; anything else fails validation. */
  function AsText(j: Json): Option<string>
  {
    if j.JStr? then Some(j.s) else None
  }

  /**
   * `ExtractedPrimitive(...)` built from an item whose name was accepted.
   * `asInt` is the record's integer coercion for the page (None when it
   * rejects the value); `repr` renders a list or dict value.
   */
  function BuildPrimitive(
    name: string, item: map<string, Json>, asInt: Json -> Option<int>, repr: Json -> string): (r: Option<ExtractedPrimitive>)
    ensures r.Some? ==> r.value.attributeName == name
    ensures r.Some? && !JsonTruthy(GetField(item, "source_text")) ==> r.value.sourceText == ""
    ensures r.Some? && !JsonTruthy(GetField(item, "source_page")) ==> r.value.sourcePage == 0
    ensures r.Some? && "confidence" !in item ==> r.value.confidence == "medium"
    ensures r.Some? ==> r.value.value == ToValue(GetField(item, "value"), repr)
  {
    var textField := GetField(item, "source_text");
    var pageField := GetField(item, "source_page");
    var section := GetField(item, "source_section");
    var text :- if JsonTruthy(textField) then AsText(textField) else Some("");
    var page :- if JsonTruthy(pageField) then asInt(pageField) else Some(0);
    var sec :- if section.JNull? then Some(None) else if section.JStr? then Some(Some(section.s)) else None;
    var conf :- if "confidence" in item then AsText(item["confidence"]) else Some("medium");
    Some(ExtractedPrimitive(name, ToValue(GetField(item, "value"), repr), text, page, sec, conf))
  }

  /**
   * One item of the decoded array. A non-dict item has no `get`; a falsy
   * name is skipped; a list or dict name cannot be looked up in the name
   * set; any other name outside the set is skipped.
   */
  function ItemOutcome(item: Json, valid: set<string>, asInt: Json -> Option<int>, repr: Json -> string): (o: Outcome)
    ensures o.Keep? ==> item.JObject? && o.p.attributeName in valid && GetField(item.fields, "attribute_name") == JStr(o.p.attributeName)
    ensures item.JObject? && !JsonTruthy(GetField(item.fields, "attribute_name")) ==> o == Skip
  {
    if !item.JObject? then Raise
    else
      var name := GetField(item.fields, "attribute_name");
      if !JsonTruthy(name) then Skip
      else if name.JArray? || name.JObject? then Raise
      else if !name.JStr? || name.s !in valid then Skip
      else
        match BuildPrimitive(name.s, item.fields, asInt, repr)
        case None => Raise
        case Some(p) => Keep(p)
  }

  /** The result so far after one more item. */
  function Step(acc: Option<seq<ExtractedPrimitive>>, o: Outcome): Option<seq<ExtractedPrimitive>>
  {
    if acc.None? then None
    else
      match o
      case Skip => acc
      case Keep(p) => Some(acc.value + [p])
      case Raise => None
  }

  /** `prefix` put in front of a result that did not raise. */
  function Prefixed(prefix: seq<ExtractedPrimitive>, acc: Option<seq<ExtractedPrimitive>>): Option<seq<ExtractedPrimitive>>
  {
    if acc.None? then None else Some(prefix + acc.value)
  }

  lemma StepPrefixed(prefix: seq<ExtractedPrimitive>, acc: Option<seq<ExtractedPrimitive>>, o: Outcome)
    ensures Step(Prefixed(prefix, acc), o) == Prefixed(prefix, Step(acc, o))
  {
    if acc.Some? && o.Keep? {
      assert prefix + acc.value + [o.p] == prefix + (acc.value + [o.p]);
    }
  }

  /** The primitives of the decoded items, or None when some item raises. */
  function ParseItems(items: seq<Json>, valid: set<string>, asInt: Json -> Option<int>, repr: Json -> string): (r: Option<seq<ExtractedPrimitive>>)
    ensures r.Some? ==> |r.value| <= |items|
    ensures r.Some? ==> forall p :: p in r.value ==> p.attributeName in valid
    decreases |items|
  {
    if items == [] then Some([])
    else Step(ParseItems(items[..|items| - 1], valid, asInt, repr), ItemOutcome(items[|items| - 1], valid, asInt, repr))
  }

  /** The whole result is discarded exactly when some item raises. */
  lemma {:induction false} ParseItemsNoneIff(items: seq<Json>, valid: set<string>, asInt: Json -> Option<int>, repr: Json -> string)
    ensures ParseItems(items, valid, asInt, repr).None? <==>
      exists k :: 0 <= k < |items| && ItemOutcome(items[k], valid, asInt, repr).Raise?
    decreases |items|
  {
    if items != [] {
      var init := items[..|items| - 1];
      ParseItemsNoneIff(init, valid, asInt, repr);
      if exists k :: 0 <= k < |init| && ItemOutcome(init[k], valid, asInt, repr).Raise? {
        var k :| 0 <= k < |init| && ItemOutcome(init[k], valid, asInt, repr).Raise?;
        assert items[k] == init[k];
      }
      if exists k :: 0 <= k < |items| && ItemOutcome(items[k], valid, asInt, repr).Raise? {
        var k :| 0 <= k < |items| && ItemOutcome(items[k], valid, asInt, repr).Raise?;
        if k < |init| {
          assert init[k] == items[k];
        }
      }
    }
  }

  /**
   * Items are handled independently and in order: after a prefix that does
   * not raise, the rest parses as it would alone, behind the prefix's result.
   */
  lemma {:induction false} ParseItemsAppend(a: seq<Json>, b: seq<Json>, valid: set<string>, asInt: Json -> Option<int>, repr: Json -> string)
    requires ParseItems(a, valid, asInt, repr).Some?
    ensures ParseItems(a + b, valid, asInt, repr) == Prefixed(ParseItems(a, valid, asInt, repr).value, ParseItems(b, valid, asInt, repr))
    decreases |b|
  {
    var pa := ParseItems(a, valid, asInt, repr).value;
    if b == [] {
      assert a + b == a;
      assert pa + [] == pa;
    } else {
      var b0 := b[..|b| - 1];
      ParseItemsAppend(a, b0, valid, asInt, repr);
      assert (a + b)[..|a + b| - 1] == a + b0;
      assert (a + b)[|a + b| - 1] == b[|b| - 1];
      StepPrefixed(pa, ParseItems(b0, valid, asInt, repr), ItemOutcome(b[|b| - 1], valid, asInt, repr));
    }
  }

  /**
   * `_parse_extraction_response` as a value: the text from the first `[`
   * to the last `]`, decoded; a decode error, a non-array or an item that
   * raises gives [].
   */
  function ExtractionResponse(
    response: string, fields: seq<OntologyField>, decode: Decoder,
    asInt: Json -> Option<int>, repr: Json -> string): (ps: seq<ExtractedPrimitive>)
    ensures '[' !in response || ']' !in response ==> ps == []
    ensures forall p :: p in ps ==> p.attributeName in ValidFields(fields)
  {
    match Delimited(response, '[', ']')
    case None => []
    case Some(slice) =>
      match decode(slice)
      case Some(JArray(items)) => ParseItems(items, ValidFields(fields), asInt, repr).GetOr([])
      case _ => []
  }

  /** Each kept primitive comes from an item whose name is a loaded field's target name. */
  lemma ExtractionNamesAreFields(
    response: string, fields: seq<OntologyField>, decode: Decoder,
    asInt: Json -> Option<int>, repr: Json -> string)
    ensures forall p :: p in ExtractionResponse(response, fields, decode, asInt, repr) ==>
      exists f :: f in fields && f.targetFieldName == p.attributeName
  {
  }

  /**
   * `_parse_extraction_response`: the loop over the decoded items, returning
   * [] as soon as one raises.
   */
  method ParseExtractionResponse(
    response: string, fields: seq<OntologyField>, decode: Decoder,
    asInt: Json -> Option<int>, repr: Json -> string) returns (ps: seq<ExtractedPrimitive>)
    ensures ps == ExtractionResponse(response, fields, decode, asInt, repr)
  {
    var valid := set f | f in fields :: f.targetFieldName;
    var slice := Delimited(response, '[', ']');
    if slice.None? {
      return [];
    }
    var data := decode(slice.value);
    if data.None? || !data.value.JArray? {
      return [];
    }
    var items := data.value.items;
    ps := [];
    var i := 0;
    while i < |items|
      invariant 0 <= i <= |items|
      invariant ParseItems(items[..i], valid, asInt, repr) == Some(ps)
    {
      assert items[..i + 1][..i] == items[..i];
      var outcome := ItemOutcome(items[i], valid, asInt, repr);
      if outcome.Raise? {
        ParseItemsPrefixNone(items, i + 1, valid, asInt, repr);
        return [];
      } else if outcome.Keep? {
        ps := ps + [outcome.p];
      }
      i := i + 1;
    }
    assert items[..i] == items;
  }

  /** Once a prefix raises, the whole array does. */
  lemma {:induction false} ParseItemsPrefixNone(items: seq<Json>, n: nat, valid: set<string>, asInt: Json -> Option<int>, repr: Json -> string)
    requires n <= |items| && ParseItems(items[..n], valid, asInt, repr).None?
    ensures ParseItems(items, valid, asInt, repr).None?
    decreases |items| - n
  {
    if n < |items| {
      assert items[..n + 1][..n] == items[..n];
      ParseItemsPrefixNone(items, n + 1, valid, asInt, repr);
    } else {
      assert items[..n] == items;
    }
  }

  // ---------------------------------------------------------------------------
  // The service and its field cache
  // ---------------------------------------------------------------------------

  class ExtractionService {
    /** `_field_cache`: the fields loaded per covenant type. */
    var fieldCache: map<string, seq<OntologyField>>

    constructor ()
      ensures fieldCache == map[]
    {
      fieldCache := map[];
    }

    /**
     * `_load_ontology_fields`: a cached list is returned as is; with no
     * driver, or when the query fails, the result is [] and nothing is
     * cached; a successful load is cached, even when it is empty.
     */
    method LoadOntologyFields(covenantType: string, connected: bool, load: Result<seq<OntologyField>>)
      returns (fields: seq<OntologyField>)
      modifies this
      ensures covenantType in old(fieldCache) ==> fields == old(fieldCache)[covenantType] && fieldCache == old(fieldCache)
      ensures covenantType !in old(fieldCache) && (!connected || load.Failure?) ==> fields == [] && fieldCache == old(fieldCache)
      ensures covenantType !in old(fieldCache) && connected && load.Success? ==>
        fields == load.value && fieldCache == old(fieldCache)[covenantType := load.value]
    {
      if covenantType in fieldCache {
        return fieldCache[covenantType];
      }
      if !connected {
        return [];
      }
      match load
      case Failure(_) =>
        return [];
      case Success(loaded) =>
        fieldCache := fieldCache[covenantType := loaded];
        return loaded;
    }

    /**
     * `_extract_covenant`: no fields means no call and []; a failed call
     * gives []; otherwise the response is parsed against the fields.
     */
    method ExtractCovenant(
      covenantType: string, connected: bool, load: Result<seq<OntologyField>>,
      response: Result<string>, decode: Decoder, asInt: Json -> Option<int>, repr: Json -> string)
      returns (ps: seq<ExtractedPrimitive>)
      modifies this
      ensures var fields := if covenantType in old(fieldCache) then old(fieldCache)[covenantType]
                            else if connected && load.Success? then load.value else [];
        (fields == [] || response.Failure? ==> ps == []) &&
        (fields != [] && response.Success? ==> ps == ExtractionResponse(response.value, fields, decode, asInt, repr))
    ensures fieldCache ==
      if covenantType !in old(fieldCache) && connected && load.Success? then old(fieldCache)[covenantType := load.value]
      else old(fieldCache)
    {
      var fields := LoadOntologyFields(covenantType, connected, load);
      if fields == [] {
        return [];
      }
      match response
      case Failure(_) =>
        return [];
      case Success(text) =>
        ps := ParseExtractionResponse(text, fields, decode, asInt, repr);
    }
  }
}
