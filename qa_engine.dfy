/**
 * The Q&A engine: which stored attributes a question is about, the deal's
 * values for them, the answer text built from those values, and the
 * cross-deal queries. The primitive, provenance and question reads come
 * from the ontology repository's loads; the cross-deal query's rows are an
 * input, and the query text itself is opaque.
 */
module QAEngine {
  import opened Wrappers
  import opened Text
  import opened PyValues
  import opened Models
  import opened Collections
  import OntologyRepository

  // ---------------------------------------------------------------------
  // Relevant attributes
  // ---------------------------------------------------------------------

  /** A keyword group: when any keyword occurs in the lower-cased question, all its attributes are relevant. */
  datatype KeywordGroup = KeywordGroup(keywords: seq<string>, attributes: seq<string>)

  const JCrewGroup := KeywordGroup(
    ["j.crew", "jcrew", "j crew", "trapdoor"],
    ["jcrew_pattern", "jcrew_blocker_present", "jcrew_blocker_covers_ip", "unrestricted_sub_designation_permitted",
     "ip_transfers_to_subs_permitted", "ip_definition_includes_trade_secrets", "ip_definition_includes_know_how"])
  const SunsetGroup := KeywordGroup(["sunset", "expir", "terminat"], ["sunset_exists", "sunset_period_months", "sunset_tied_to_maturity"])
  const ThresholdGroup := KeywordGroup(["threshold", "basis point", "bps"], ["threshold_bps", "threshold_applies_to_margin_only"])
  const YieldGroup := KeywordGroup(
    ["yield", "oid", "floor", "fee"],
    ["oid_included_in_yield", "floor_included_in_yield", "upfront_fees_included_in_yield", "yield_exclusion_pattern"])
  const MfnGroup := KeywordGroup(["mfn", "most favored", "favoured"], ["mfn_exists", "mfn_section_reference"])
  const BuilderGroup := KeywordGroup(
    ["builder", "cumulative", "basket"], ["builder_basket_exists", "builder_starter_amount_usd", "builder_includes_retained_ecf"])
  const UnrestrictedGroup := KeywordGroup(
    ["unrestricted", "subsidiary", "designation"],
    ["unrestricted_sub_designation_permitted", "unrestricted_sub_requires_no_default", "unrestricted_sub_has_ebitda_cap"])
  const DividendGroup := KeywordGroup(
    ["dividend", "restricted payment", "rp "], ["rp_exists", "dividend_applies_to_holdings", "general_dividend_basket_usd"])
  const RatioGroup := KeywordGroup(
    ["ratio", "leverage", "unlimited"], ["ratio_dividend_basket_exists", "ratio_dividend_leverage_threshold", "ratio_dividend_is_unlimited"])

  /** The nine groups, in the order the engine tests them. */
  const Groups: seq<KeywordGroup> :=
    [JCrewGroup, SunsetGroup, ThresholdGroup, YieldGroup, MfnGroup, BuilderGroup, UnrestrictedGroup, DividendGroup, RatioGroup]

  /** The pattern flags offered when no group matched but the question is about patterns or risk. */
  const PatternAttributes: seq<string> := ["jcrew_pattern", "yield_exclusion_pattern", "weak_mfn_pattern"]

  /** `any(kw in text for kw in keywords)`. */
  predicate Hits(text: string, keywords: seq<string>)
  {
    exists k :: 0 <= k < |keywords| && Contains(text, keywords[k])
  }

  predicate AnyGroupHit(text: string)
  {
    exists i :: 0 <= i < |Groups| && Hits(text, Groups[i].keywords)
  }

  predicate AsksAboutPatterns(text: string)
  {
    Contains(text, "pattern") || Contains(text, "risk")
  }

  /** The list the keyword tests build: the attributes of every group that hits, in group order. */
  function GroupsList(text: string, gs: seq<KeywordGroup>): seq<string>
  {
    if gs == [] then []
    else GroupsList(text, gs[..|gs| - 1]) + (if Hits(text, gs[|gs| - 1].keywords) then gs[|gs| - 1].attributes else [])
  }

  /** An attribute is in the list exactly when some group that hits names it; with non-empty groups the list is empty exactly when none hits. */
  lemma {:induction false} GroupsListMembers(text: string, gs: seq<KeywordGroup>)
    ensures forall a :: a in GroupsList(text, gs) <==> exists i :: 0 <= i < |gs| && Hits(text, gs[i].keywords) && a in gs[i].attributes
    ensures (forall i :: 0 <= i < |gs| ==> gs[i].attributes != []) ==>
      (GroupsList(text, gs) == [] <==> forall i :: 0 <= i < |gs| ==> !Hits(text, gs[i].keywords))
    decreases |gs|
  {
    if gs != [] {
      var init := gs[..|gs| - 1];
      GroupsListMembers(text, init);
      assert forall i :: 0 <= i < |init| ==> init[i] == gs[i];
      var last := gs[|gs| - 1];
      forall a | a in GroupsList(text, gs) ensures exists i :: 0 <= i < |gs| && Hits(text, gs[i].keywords) && a in gs[i].attributes {
        if a !in GroupsList(text, init) {
          assert Hits(text, gs[|gs| - 1].keywords) && a in gs[|gs| - 1].attributes;
        }
      }
      if (forall i :: 0 <= i < |gs| ==> gs[i].attributes != []) && Hits(text, last.keywords) {
        assert last.attributes[0] in GroupsList(text, gs);
      }
    }
  }

  /**
   * The attributes relevant to a question: those the keyword tests
   * collect, or, when they collect none, the pattern flags if the question
   * mentions patterns or risk.
   */
  function RelevantAttributes(question: string): (r: set<string>)
    ensures AsksAboutPatterns(Lower(question)) ==> r != {}
    ensures r <= (set a | a in GroupsList(Lower(question), Groups)) + (set a | a in PatternAttributes)
  {
    var text := Lower(question);
    var relevant := GroupsList(text, Groups);
    var found := set a | a in relevant;
    var flags := set a | a in PatternAttributes;
    if relevant != [] then
      assert relevant[0] in found;
      found
    else if AsksAboutPatterns(text) then
      assert PatternAttributes[0] in flags;
      flags
    else {}
  }

  /**
   * `_identify_relevant_attributes`: the nine keyword tests, in order, each
   * extend the list; the pattern fallback applies only when the list is
   * still empty; duplicates go through `set`, whose order is unspecified.
   */
  method IdentifyRelevantAttributes(question: string) returns (attrs: set<string>)
    ensures attrs == RelevantAttributes(question)
  {
    var text := Lower(question);
    var relevant: seq<string> := [];
    for i := 0 to |Groups|
      invariant relevant == GroupsList(text, Groups[..i])
    {
      assert Groups[..i + 1][..i] == Groups[..i];
      if Hits(text, Groups[i].keywords) {
        relevant := relevant + Groups[i].attributes;
      }
    }
    assert Groups[..|Groups|] == Groups;
    if relevant == [] {
      if AsksAboutPatterns(text) {
        relevant := relevant + PatternAttributes;
      }
    }
    attrs := set a | a in relevant;
  }

  /**
   * An attribute is relevant exactly when a keyword group that hits names
   * it, or, when no group hits, it is a pattern flag and the question
   * mentions patterns or risk; nothing is relevant exactly when no group
   * hits and the question mentions neither.
   */
  lemma RelevantMembers(question: string)
    ensures var text := Lower(question);
      forall a :: a in RelevantAttributes(question) <==>
        (exists i :: 0 <= i < |Groups| && Hits(text, Groups[i].keywords) && a in Groups[i].attributes) ||
        (!AnyGroupHit(text) && AsksAboutPatterns(text) && a in PatternAttributes)
    ensures var text := Lower(question);
      RelevantAttributes(question) == {} <==> !AnyGroupHit(text) && !AsksAboutPatterns(text)
  {
    var text := Lower(question);
    GroupsNonEmpty();
    GroupsListMembers(text, Groups);
    if AnyGroupHit(text) {
      var i :| 0 <= i < |Groups| && Hits(text, Groups[i].keywords);
      assert Groups[i].attributes[0] in GroupsList(text, Groups);
      assert Groups[i].attributes[0] in RelevantAttributes(question);
    } else if AsksAboutPatterns(text) {
      assert PatternAttributes[0] in RelevantAttributes(question);
    }
  }

  lemma GroupsNonEmpty()
    ensures forall i :: 0 <= i < |Groups| ==> Groups[i].attributes != []
  {
  }

  /** The weak-MFN flag belongs to no keyword group, so it is relevant only through the fallback. */
  lemma WeakMfnOnlyByFallback(question: string)
    ensures var text := Lower(question);
      "weak_mfn_pattern" in RelevantAttributes(question) <==> !AnyGroupHit(text) && AsksAboutPatterns(text)
  {
    RelevantMembers(question);
    WeakMfnInNoGroup();
  }

  lemma WeakMfnInNoGroup()
    ensures forall i :: 0 <= i < |Groups| ==> "weak_mfn_pattern" !in Groups[i].attributes
  {
    assert "weak_mfn_pattern" !in JCrewGroup.attributes;
    assert "weak_mfn_pattern" !in SunsetGroup.attributes;
    assert "weak_mfn_pattern" !in ThresholdGroup.attributes;
    assert "weak_mfn_pattern" !in YieldGroup.attributes;
    assert "weak_mfn_pattern" !in MfnGroup.attributes;
    assert "weak_mfn_pattern" !in BuilderGroup.attributes;
    assert "weak_mfn_pattern" !in UnrestrictedGroup.attributes;
    assert "weak_mfn_pattern" !in DividendGroup.attributes;
    assert "weak_mfn_pattern" !in RatioGroup.attributes;
  }

  // ---------------------------------------------------------------------
  // Primitives for the relevant attributes
  // ---------------------------------------------------------------------

  /** The deal's value and provenance for each requested attribute that the deal has, in request order. */
  function SelectPrimitives(attributes: seq<string>, primitives: map<string, Value>, provenance: map<string, Provenance>)
    : (ps: seq<PrimitiveWithProvenance>)
    ensures |ps| <= |attributes|
  {
    if attributes == [] then []
    else
      var init := SelectPrimitives(attributes[..|attributes| - 1], primitives, provenance);
      var a := attributes[|attributes| - 1];
      if a in primitives then init + [PrimitiveWithProvenance(a, primitives[a], if a in provenance then Some(provenance[a]) else None)]
      else init
  }

  /**
   * Every selected primitive is a requested attribute the deal has, with
   * the deal's value and provenance for it, and every requested attribute
   * the deal has is selected.
   */
  lemma {:induction false} SelectPrimitivesExact(attributes: seq<string>, primitives: map<string, Value>, provenance: map<string, Provenance>)
    ensures var ps := SelectPrimitives(attributes, primitives, provenance);
      (forall p :: p in ps ==>
        p.attributeName in attributes && p.attributeName in primitives && p.value == primitives[p.attributeName] &&
        p.provenance == (if p.attributeName in provenance then Some(provenance[p.attributeName]) else None)) &&
      (forall a :: a in attributes && a in primitives ==> exists p :: p in ps && p.attributeName == a)
    decreases |attributes|
  {
    if attributes != [] {
      var init := attributes[..|attributes| - 1];
      var a := attributes[|attributes| - 1];
      SelectPrimitivesExact(init, primitives, provenance);
      assert attributes == init + [a];
      var ps := SelectPrimitives(attributes, primitives, provenance);
      var prev := SelectPrimitives(init, primitives, provenance);
      if a in primitives {
        assert ps[|prev|].attributeName == a;
        assert ps[|prev|] in ps;
      }
      forall b | b in attributes && b in primitives ensures exists p :: p in ps && p.attributeName == b {
        if b != a {
          assert b in init;
          var p :| p in prev && p.attributeName == b;
          assert p in ps;
        } else {
          assert ps[|prev|] in ps;
        }
      }
    }
  }

  /** `_get_primitives_for_attributes`: one primitive per requested attribute the deal has. */
  method GetPrimitivesForAttributes(
    attributes: seq<string>, primitivesLoad: Result<OntologyRepository.ProvisionAttrs>,
    provenanceLoad: Result<seq<OntologyRepository.ProvenanceFetch>>)
    returns (ps: seq<PrimitiveWithProvenance>)
    ensures ps == SelectPrimitives(attributes, OntologyRepository.DealPrimitives(primitivesLoad), OntologyRepository.DealProvenance(provenanceLoad))
  {
    var all := OntologyRepository.GetDealPrimitives(primitivesLoad);
    var provenance := OntologyRepository.GetDealProvenance(provenanceLoad);
    ps := [];
    for i := 0 to |attributes|
      invariant ps == SelectPrimitives(attributes[..i], all, provenance)
    {
      assert attributes[..i + 1][..i] == attributes[..i];
      var a := attributes[i];
      if a in all {
        ps := ps + [PrimitiveWithProvenance(a, all[a], if a in provenance then Some(provenance[a]) else None)];
      }
    }
    assert attributes[..|attributes|] == attributes;
  }

  // ---------------------------------------------------------------------
  // Answer text
  // ---------------------------------------------------------------------

  /** The bullet that starts every fact line. */
  const Bullet: string := "\U{2022} "

  /** A value as a fact shows it: booleans as Yes/No, anything else as `str()` gives it. */
  function ValueText(v: Value): string
  {
    if v.VBool? then (if v.b then "Yes" else "No") else Str(v)
  }

  /** A fact line without its bullet: the question text for the attribute (or its name), the value and the page when known. */
  function FactBody(p: PrimitiveWithProvenance, attributeMap: map<string, string>): string
  {
    var title := if p.attributeName in attributeMap then attributeMap[p.attributeName] else p.attributeName;
    var shown := title + ": **" + ValueText(p.value) + "**";
    if p.provenance.Some? && p.provenance.value.sourcePage != 0 then shown + " (page " + IntToString(p.provenance.value.sourcePage) + ")"
    else shown
  }

  function Fact(p: PrimitiveWithProvenance, attributeMap: map<string, string>): string
  {
    Bullet + FactBody(p, attributeMap)
  }

  function Facts(ps: seq<PrimitiveWithProvenance>, attributeMap: map<string, string>): (facts: seq<string>)
    ensures |facts| == |ps| && forall i :: 0 <= i < |ps| ==> facts[i] == Fact(ps[i], attributeMap)
  {
    seq(|ps|, i requires 0 <= i < |ps| => Fact(ps[i], attributeMap))
  }

  /** The first primitive for attribute `name` (`next(..., None)`). */
  function FirstFor(ps: seq<PrimitiveWithProvenance>, name: string): (r: Option<PrimitiveWithProvenance>)
    ensures r.Some? ==> r.value in ps && r.value.attributeName == name
    ensures r.None? <==> forall p :: p in ps ==> p.attributeName != name
    ensures r.Some? ==> exists i :: 0 <= i < |ps| && ps[i] == r.value && forall j :: 0 <= j < i ==> ps[j].attributeName != name
  {
    if ps == [] then None
    else if ps[0].attributeName == name then Some(ps[0])
    else FirstFor(ps[1..], name)
  }

  /** Python's `s.replace(pat, "")`: every non-overlapping occurrence of `pat`, scanning left to right, removed. */
  function RemoveAll(s: string, pat: string): (r: string)
    requires pat != ""
    ensures |r| <= |s|
    decreases |s|
  {
    if |s| < |pat| then s
    else if s[..|pat|] == pat then RemoveAll(s[|pat|..], pat)
    else [s[0]] + RemoveAll(s[1..], pat)
  }

  lemma {:induction false} RemoveAllAbsent(s: string, pat: string)
    requires pat != "" && pat[0] !in s
    ensures RemoveAll(s, pat) == s
    decreases |s|
  {
    if |s| >= |pat| {
      assert s[..|pat|][0] == s[0];
      RemoveAllAbsent(s[1..], pat);
    }
  }

  const JCrewYes := "**Yes, this deal has J.Crew pattern risk.**\n\nThis is based on the following factors:\n\n"
  const JCrewNo := "**No, this deal does not have J.Crew pattern risk.**\n\nThe relevant factors are:\n\n"
  const JCrewFound := "Here's what I found about J.Crew risk factors:\n\n"
  const SunsetNo := "**No, there is no sunset provision.** MFN protection continues throughout the facility term."

  predicate AboutJCrew(text: string)
  {
    Contains(text, "j.crew") || Contains(text, "jcrew")
  }

  /** The answer `_build_answer` writes around the fact lines. */
  function ComposeAnswer(question: string, ps: seq<PrimitiveWithProvenance>, facts: seq<string>): string
  {
    var text := Lower(question);
    if AboutJCrew(text) then
      var header := match FirstFor(ps, "jcrew_pattern")
        case Some(p) => if Truthy(p.value) then JCrewYes else JCrewNo
        case None => JCrewFound;
      header + Join(facts, "\n")
    else if Contains(text, "sunset") && FirstFor(ps, "sunset_exists").Some? then
      if Truthy(FirstFor(ps, "sunset_exists").value.value) then
        match FirstFor(ps, "sunset_period_months")
        case Some(m) => "**Yes, there is a sunset provision of " + Str(m.value) + " months.**"
        case None => "**Yes, there is a sunset provision.**"
      else SunsetNo
    else if |facts| == 1 then RemoveAll(facts[0], Bullet)
    else "Based on the extracted data:\n\n" + Join(facts, "\n")
  }

  function AnswerText(question: string, ps: seq<PrimitiveWithProvenance>, attributeMap: map<string, string>): string
  {
    ComposeAnswer(question, ps, Facts(ps, attributeMap))
  }

  /**
   * A single fact, for a question about neither J.Crew nor a stated sunset,
   * is its line without the bullet; a boolean reads Yes or No.
   */
  lemma SingleFactAnswer(question: string, p: PrimitiveWithProvenance, attributeMap: map<string, string>)
    requires var text := Lower(question);
      !AboutJCrew(text) && !(Contains(text, "sunset") && p.attributeName == "sunset_exists")
    requires Bullet[0] !in FactBody(p, attributeMap)
    ensures AnswerText(question, [p], attributeMap) == FactBody(p, attributeMap)
    ensures p.value.VBool? && p.provenance.None? && p.attributeName !in attributeMap ==>
      AnswerText(question, [p], attributeMap) == p.attributeName + ": **" + (if p.value.b then "Yes" else "No") + "**"
  {
    var body := FactBody(p, attributeMap);
    assert (Bullet + body)[..|Bullet|] == Bullet;
    assert (Bullet + body)[|Bullet|..] == body;
    RemoveAllAbsent(body, Bullet);
  }

  /** A J.Crew question with the J.Crew flag among the facts opens with a yes or no on that flag. */
  lemma JCrewVerdict(question: string, ps: seq<PrimitiveWithProvenance>, attributeMap: map<string, string>)
    requires AboutJCrew(Lower(question))
    ensures var flag := FirstFor(ps, "jcrew_pattern");
      var answer := AnswerText(question, ps, attributeMap);
      (flag.Some? && Truthy(flag.value.value) ==> StartsWith(answer, JCrewYes)) &&
      (flag.Some? && !Truthy(flag.value.value) ==> StartsWith(answer, JCrewNo)) &&
      (flag.None? ==> StartsWith(answer, JCrewFound))
  {
    var rest := Join(Facts(ps, attributeMap), "\n");
    assert (JCrewYes + rest)[..|JCrewYes|] == JCrewYes;
    assert (JCrewNo + rest)[..|JCrewNo|] == JCrewNo;
    assert (JCrewFound + rest)[..|JCrewFound|] == JCrewFound;
  }

  // ---------------------------------------------------------------------
  // The engine
  // ---------------------------------------------------------------------

  datatype QAResponse = QAResponse(answer: string, supportingPrimitives: seq<PrimitiveWithProvenance>, confidence: string)

  const NoAttributesAnswer :=
    "I couldn't identify specific data points to answer this question. Try asking about MFN provisions, restricted payments, or J.Crew risk factors."
  const NoDataAnswer := "No data found for this deal. The document may not have been extracted yet."

  /** The attribute map the engine uses: the cached one, or the one the repository loads. */
  function MappingAfter(cached: Option<map<string, string>>, mappingLoad: Result<seq<OntologyRepository.QuestionFetch>>): (m: map<string, string>)
    ensures cached.Some? ==> m == cached.value
    ensures cached.None? && mappingLoad.Failure? ==> m == map[]
    ensures cached.None? ==> forall a :: a in m <==> exists q :: q in OntologyRepository.AllQuestions(mappingLoad) && q.targetAttribute == a
  {
    if cached.Some? then cached.value else OntologyRepository.GetAttributeMapping(mappingLoad)
  }

  class Engine {
    /** `_attribute_map`: None until first read, then the loaded mapping, even when it is empty. */
    var attributeMap: Option<map<string, string>>

    constructor ()
      ensures attributeMap.None?
    {
      attributeMap := None;
    }

    /** The `attribute_map` property: loads the mapping on first use and keeps it. */
    method AttributeMap(mappingLoad: Result<seq<OntologyRepository.QuestionFetch>>) returns (m: map<string, string>)
      modifies this
      ensures m == MappingAfter(old(attributeMap), mappingLoad)
      ensures attributeMap == Some(m)
    {
      if attributeMap.None? {
        attributeMap := Some(OntologyRepository.GetAttributeMapping(mappingLoad));
      }
      m := attributeMap.value;
    }

    /** `_build_answer`: one fact line per primitive, then the answer around them; the mapping is read only when there is a fact. */
    method BuildAnswer(question: string, ps: seq<PrimitiveWithProvenance>, mappingLoad: Result<seq<OntologyRepository.QuestionFetch>>)
      returns (answer: string)
      modifies this
      ensures answer == AnswerText(question, ps, MappingAfter(old(attributeMap), mappingLoad))
      ensures attributeMap == if ps == [] then old(attributeMap) else Some(MappingAfter(old(attributeMap), mappingLoad))
    {
      ghost var m := MappingAfter(attributeMap, mappingLoad);
      var facts: seq<string> := [];
      for i := 0 to |ps|
        invariant attributeMap == if i == 0 then old(attributeMap) else Some(m)
        invariant |facts| == i && forall k :: 0 <= k < i ==> facts[k] == Fact(ps[k], m)
      {
        var labels := AttributeMap(mappingLoad);
        facts := facts + [Fact(ps[i], labels)];
      }
      assert facts == Facts(ps, m);
      answer := ComposeAnswer(question, ps, facts);
    }

    /**
     * `answer_question`: a canned low-confidence answer when no attribute
     * is relevant or the deal has none of them; otherwise the composed
     * answer with the primitives behind it, at high confidence. The
     * relevant attributes come out of a set, so `listing` is that set in
     * whatever order it iterates.
     */
    method AnswerQuestion(
      question: string, listing: seq<string>, primitivesLoad: Result<OntologyRepository.ProvisionAttrs>,
      provenanceLoad: Result<seq<OntologyRepository.ProvenanceFetch>>, mappingLoad: Result<seq<OntologyRepository.QuestionFetch>>)
      returns (response: QAResponse)
      requires NoDup(listing) && forall a :: a in listing <==> a in RelevantAttributes(question)
      modifies this
      ensures var ps := SelectPrimitives(listing, OntologyRepository.DealPrimitives(primitivesLoad), OntologyRepository.DealProvenance(provenanceLoad));
        if RelevantAttributes(question) == {} then response == QAResponse(NoAttributesAnswer, [], "low")
        else if ps == [] then response == QAResponse(NoDataAnswer, [], "low")
        else response == QAResponse(AnswerText(question, ps, MappingAfter(old(attributeMap), mappingLoad)), ps, "high")
      ensures var ps := SelectPrimitives(listing, OntologyRepository.DealPrimitives(primitivesLoad), OntologyRepository.DealProvenance(provenanceLoad));
        attributeMap == if RelevantAttributes(question) == {} || ps == [] then old(attributeMap)
                        else Some(MappingAfter(old(attributeMap), mappingLoad))
    {
      var relevant := IdentifyRelevantAttributes(question);
      if relevant == {} {
        return QAResponse(NoAttributesAnswer, [], "low");
      }
      var ps := GetPrimitivesForAttributes(listing, primitivesLoad, provenanceLoad);
      if ps == [] {
        return QAResponse(NoDataAnswer, [], "low");
      }
      var answer := BuildAnswer(question, ps, mappingLoad);
      response := QAResponse(answer, ps, if |ps| > 0 then "high" else "low");
    }
  }

  // ---------------------------------------------------------------------
  // Cross-deal queries
  // ---------------------------------------------------------------------

  /** The attribute, the condition and the value a cross-deal question asks about. */
  datatype QueryInfo = QueryInfo(attribute: string, condition: string, value: Value)

  /** The third test: the question mentions yield exclusion or excluded OID. */
  predicate AsksYieldExclusion(text: string)
  {
    Contains(text, "yield exclusion") || Contains(text, "oid excluded")
  }

  /** The fourth test: the question asks for deals without an MFN. */
  predicate AsksNoMfn(text: string)
  {
    Contains(text, "no mfn") || Contains(text, "without mfn")
  }

  /** The fifth test: the question asks for deals with an MFN. */
  predicate AsksMfn(text: string)
  {
    Contains(text, "has mfn") || Contains(text, "with mfn")
  }

  /**
   * `_parse_cross_deal_query`: the first of five tests on the lower-cased
   * question that holds decides. `sunsetUnder` stands for the search
   * `sunset.*(?:under|less than|<)\s*(\d+)`, giving the captured number
   * when it matches.
   */
  function ParseCrossDealQuery(question: string, sunsetUnder: string -> Option<nat>): (info: Option<QueryInfo>)
    ensures AboutJCrew(Lower(question)) ==> info == Some(QueryInfo("jcrew_pattern", "equals", VBool(true)))
    ensures info.Some? ==> (info.value.condition == "less_than" <==> info.value.attribute == "sunset_period_months")
    ensures info.Some? && info.value.attribute == "sunset_period_months" ==> sunsetUnder(Lower(question)).Some? && info.value.value == VInt(sunsetUnder(Lower(question)).value)
    ensures info.Some? ==> info.value.attribute in {"jcrew_pattern", "sunset_period_months", "yield_exclusion_pattern", "mfn_exists"}
    ensures info.Some? ==> info.value.condition in {"equals", "less_than"}
    ensures var t := Lower(question);
      info.None? <==> !AboutJCrew(t) && sunsetUnder(t).None? && !AsksYieldExclusion(t) && !AsksNoMfn(t) && !AsksMfn(t)
    ensures var t := Lower(question);
      !AboutJCrew(t) && sunsetUnder(t).Some? ==> info == Some(QueryInfo("sunset_period_months", "less_than", VInt(sunsetUnder(t).value)))
    ensures var t := Lower(question);
      !AboutJCrew(t) && sunsetUnder(t).None? && AsksYieldExclusion(t) ==>
        info == Some(QueryInfo("yield_exclusion_pattern", "equals", VBool(true)))
    ensures var t := Lower(question);
      !AboutJCrew(t) && sunsetUnder(t).None? && !AsksYieldExclusion(t) && AsksNoMfn(t) ==>
        info == Some(QueryInfo("mfn_exists", "equals", VBool(false)))
    ensures var t := Lower(question);
      !AboutJCrew(t) && sunsetUnder(t).None? && !AsksYieldExclusion(t) && !AsksNoMfn(t) && AsksMfn(t) ==>
        info == Some(QueryInfo("mfn_exists", "equals", VBool(true)))
  {
    var text := Lower(question);
    if AboutJCrew(text) then Some(QueryInfo("jcrew_pattern", "equals", VBool(true)))
    else if sunsetUnder(text).Some? then Some(QueryInfo("sunset_period_months", "less_than", VInt(sunsetUnder(text).value)))
    else if AsksYieldExclusion(text) then Some(QueryInfo("yield_exclusion_pattern", "equals", VBool(true)))
    else if AsksNoMfn(text) then Some(QueryInfo("mfn_exists", "equals", VBool(false)))
    else if AsksMfn(text) then Some(QueryInfo("mfn_exists", "equals", VBool(true)))
    else None
  }

  /** The attributes `_get_provision_type` places on the MFN provision; every other attribute is on the RP provision. */
  const MfnAttributes: set<string> := {
    "mfn_exists", "mfn_section_reference",
    "sunset_exists", "sunset_period_months", "sunset_tied_to_maturity",
    "threshold_bps", "threshold_applies_to_margin_only",
    "oid_included_in_yield", "floor_included_in_yield",
    "upfront_fees_included_in_yield",
    "covers_term_loan_a", "covers_term_loan_b",
    "covers_incremental_facilities", "covers_ratio_debt",
    "excludes_acquisition_debt", "excludes_bridge_loans",
    "yield_exclusion_pattern", "weak_mfn_pattern"}

  function GetProvisionType(attribute: string): (t: string)
    ensures t == "mfn_provision" <==> attribute in MfnAttributes
    ensures t == "rp_provision" <==> attribute !in MfnAttributes
  {
    if attribute in MfnAttributes then "mfn_provision" else "rp_provision"
  }

  /** The keyword groups about sunsets, thresholds, yield and MFN existence name MFN-provision attributes only. */
  lemma MfnGroupsOnMfnProvision()
    ensures forall a :: a in SunsetGroup.attributes ==> GetProvisionType(a) == "mfn_provision"
    ensures forall a :: a in ThresholdGroup.attributes ==> GetProvisionType(a) == "mfn_provision"
    ensures forall a :: a in YieldGroup.attributes ==> GetProvisionType(a) == "mfn_provision"
    ensures forall a :: a in MfnGroup.attributes ==> GetProvisionType(a) == "mfn_provision"
  {
  }

  /** The J.Crew, builder, unrestricted-subsidiary, dividend and ratio groups name RP-provision attributes only. */
  lemma RpGroupsOnRpProvision()
    ensures forall a :: a in JCrewGroup.attributes ==> GetProvisionType(a) == "rp_provision"
    ensures forall a :: a in BuilderGroup.attributes ==> GetProvisionType(a) == "rp_provision"
    ensures forall a :: a in UnrestrictedGroup.attributes ==> GetProvisionType(a) == "rp_provision"
    ensures forall a :: a in DividendGroup.attributes ==> GetProvisionType(a) == "rp_provision"
    ensures forall a :: a in RatioGroup.attributes ==> GetProvisionType(a) == "rp_provision"
  {
    JCrewOffMfn();
    BuilderOffMfn();
    UnrestrictedOffMfn();
    DividendOffMfn();
    RatioOffMfn();
  }

  lemma JCrewOffMfn()
    ensures forall a :: a in JCrewGroup.attributes ==> a !in MfnAttributes
  {
  }

  lemma BuilderOffMfn()
    ensures forall a :: a in BuilderGroup.attributes ==> a !in MfnAttributes
  {
  }

  lemma UnrestrictedOffMfn()
    ensures forall a :: a in UnrestrictedGroup.attributes ==> a !in MfnAttributes
  {
  }

  lemma DividendOffMfn()
    ensures forall a :: a in DividendGroup.attributes ==> a !in MfnAttributes
  {
  }

  lemma RatioOffMfn()
    ensures forall a :: a in RatioGroup.attributes ==> a !in MfnAttributes
  {
  }

  /** Every query a question parses to searches the provision that owns its attribute: the J.Crew flag on the RP provision, the rest on the MFN one. */
  lemma ParsedQueryProvision(question: string, sunsetUnder: string -> Option<nat>)
    ensures var info := ParseCrossDealQuery(question, sunsetUnder);
      info.Some? ==> GetProvisionType(info.value.attribute) == (if info.value.attribute == "jcrew_pattern" then "rp_provision" else "mfn_provision")
  {
  }

  /** One fetched row of the cross-deal query; a key the row lacks is None. */
  datatype DealRow = DealRow(dealId: Option<string>, dealName: Option<string>)

  /** What the read transaction returns: the matching rows and the rows of the deal count query. */
  datatype QueryRows = QueryRows(rows: seq<DealRow>, counts: seq<int>)

  datatype CrossDealResult = CrossDealResult(dealId: string, dealName: string, matches: bool, relevantPrimitives: seq<PrimitiveWithProvenance>)

  datatype CrossDealOutcome = CrossDealOutcome(total: int, matching: int, deals: seq<CrossDealResult>)

  datatype CrossDealResponse = CrossDealResponse(query: string, totalDeals: int, matchingDeals: int, results: seq<CrossDealResult>)

  /** `if deal_ids and deal_id not in deal_ids: continue` — an absent or empty filter keeps every deal. */
  predicate Kept(dealId: string, dealIds: Option<seq<string>>)
  {
    dealIds.None? || dealIds.value == [] || dealId in dealIds.value
  }

  function ResultOf(row: DealRow): CrossDealResult
  {
    CrossDealResult(row.dealId.GetOr(""), row.dealName.GetOr(""), true, [])
  }

  /** The deals the filter keeps, in row order. */
  function KeptDeals(rows: seq<DealRow>, dealIds: Option<seq<string>>): seq<CrossDealResult>
  {
    if rows == [] then []
    else
      var init := KeptDeals(rows[..|rows| - 1], dealIds);
      var row := rows[|rows| - 1];
      if Kept(row.dealId.GetOr(""), dealIds) then init + [ResultOf(row)] else init
  }

  /** Every kept deal matched, passes the filter and came from a row; no row the filter keeps is lost. */
  lemma {:induction false} KeptDealsExact(rows: seq<DealRow>, dealIds: Option<seq<string>>)
    ensures var deals := KeptDeals(rows, dealIds);
      |deals| <= |rows| &&
      (forall d :: d in deals ==> d.matches && d.relevantPrimitives == [] && Kept(d.dealId, dealIds) && exists row :: row in rows && d == ResultOf(row)) &&
      (forall row :: row in rows && Kept(row.dealId.GetOr(""), dealIds) ==> ResultOf(row) in deals)
    decreases |rows|
  {
    if rows != [] {
      var init := rows[..|rows| - 1];
      var row := rows[|rows| - 1];
      KeptDealsExact(init, dealIds);
      assert rows == init + [row];
      var deals := KeptDeals(rows, dealIds);
      forall d | d in deals ensures exists r :: r in rows && d == ResultOf(r) {
        if d in KeptDeals(init, dealIds) {
          var r :| r in init && d == ResultOf(r);
          assert r in rows;
        } else {
          assert d == ResultOf(row);
        }
      }
    }
  }

  /** No query ran, or it failed. */
  const NoDeals := CrossDealOutcome(0, 0, [])

  /**
   * `_execute_cross_deal_query`: only "equals" and "less_than" build a
   * query; a failing read gives nothing; otherwise the total is the first
   * count row (0 without one) and the deals are the rows the filter keeps.
   */
  method ExecuteCrossDealQuery(condition: string, dealIds: Option<seq<string>>, load: Result<QueryRows>)
    returns (outcome: CrossDealOutcome)
    ensures condition != "equals" && condition != "less_than" ==> outcome == NoDeals
    ensures load.Failure? ==> outcome == NoDeals
    ensures (condition == "equals" || condition == "less_than") && load.Success? ==>
      outcome.deals == KeptDeals(load.value.rows, dealIds) &&
      outcome.matching == |outcome.deals| &&
      outcome.total == (if load.value.counts == [] then 0 else load.value.counts[0])
  {
    if condition != "equals" && condition != "less_than" {
      return NoDeals;
    }
    if load.Failure? {
      return NoDeals;
    }
    var rows := load.value.rows;
    var total := if load.value.counts == [] then 0 else load.value.counts[0];
    var deals: seq<CrossDealResult> := [];
    for i := 0 to |rows|
      invariant deals == KeptDeals(rows[..i], dealIds)
    {
      assert rows[..i + 1][..i] == rows[..i];
      var dealId := rows[i].dealId.GetOr("");
      if !Kept(dealId, dealIds) {
        continue;
      }
      deals := deals + [ResultOf(rows[i])];
    }
    assert rows[..|rows|] == rows;
    outcome := CrossDealOutcome(total, |deals|, deals);
  }

  /** `cross_deal_query`: a question that parses to no query gets an empty response. */
  method CrossDealQuery(question: string, dealIds: Option<seq<string>>, sunsetUnder: string -> Option<nat>, load: Result<QueryRows>)
    returns (response: CrossDealResponse)
    ensures response.query == question
    ensures response.matchingDeals == |response.results| <= (if load.Success? then |load.value.rows| else 0)
    ensures ParseCrossDealQuery(question, sunsetUnder).None? ==> response == CrossDealResponse(question, 0, 0, [])
    ensures ParseCrossDealQuery(question, sunsetUnder).Some? && load.Success? ==> response.results == KeptDeals(load.value.rows, dealIds)
    ensures ParseCrossDealQuery(question, sunsetUnder).Some? ==>
      response.totalDeals == (if load.Failure? || load.value.counts == [] then 0 else load.value.counts[0])
    ensures load.Failure? ==> response.results == []
  {
    var info := ParseCrossDealQuery(question, sunsetUnder);
    if info.None? {
      return CrossDealResponse(question, 0, 0, []);
    }
    var outcome := ExecuteCrossDealQuery(info.value.condition, dealIds, load);
    if load.Success? {
      KeptDealsExact(load.value.rows, dealIds);
    }
    response := CrossDealResponse(question, outcome.total, outcome.matching, outcome.deals);
  }
}
