/**
 * Pattern detection for one deal: the J.Crew trapdoor check, the MFN
 * yield-exclusion check and the per-deal report built from them. Each
 * check reads the rows of one graph query; a query that raises is a
 * `Failure` load.
 */
module Patterns {
  import opened Wrappers
  import opened PyValues

  /** One row of a check's query, keyed by variable name. */
  type Row = map<string, Value>

  /** `row.get(key, default)`. */
  function GetOr(row: Row, key: string, default: Value): Value
  {
    if key in row then row[key] else default
  }

  /** A fact a check reports: the field, its value and, for the J.Crew facts, that it is a risk. */
  datatype PatternFact = PatternFact(field: string, value: Value, risk: Option<bool>)

  // ---------------------------------------------------------------------
  // J.Crew trapdoor
  // ---------------------------------------------------------------------

  datatype JCrewCheck = JCrewCheck(vulnerable: bool, protected: bool, explanation: string, facts: seq<PatternFact>)

  const NoJCrewFinding := JCrewCheck(false, false, "", [])

  /**
   * `_check_jcrew_pattern`: on the first row, designation permitted with
   * no blocker is a vulnerability and a blocker is a protection; a missing
   * value reads as False; no rows, or a failing query, finds neither.
   */
  function CheckJCrewPattern(load: Result<seq<Row>>): (c: JCrewCheck)
    ensures !(c.vulnerable && c.protected)
    ensures c.facts != [] <==> c.vulnerable
    ensures !c.vulnerable && !c.protected ==> c.explanation == ""
  {
    if load.Failure? || load.value == [] then NoJCrewFinding
    else
      var r := load.value[0];
      var unsub := GetOr(r, "unsub", VBool(false));
      var blocker := GetOr(r, "blocker", VBool(false));
      if Truthy(unsub) && !Truthy(blocker) then
        JCrewCheck(true, false, "Unrestricted subsidiary designation permitted without J.Crew blocker",
          [PatternFact("unsub_designation_permitted", VBool(true), Some(true)),
           PatternFact("jcrew_blocker_exists", VBool(false), Some(true))])
      else if Truthy(blocker) then
        JCrewCheck(false, true, "J.Crew blocker prevents unauthorized asset transfers", [])
      else NoJCrewFinding
  }

  /**
   * The J.Crew check is vulnerable exactly when the first row permits
   * designation and has no blocker, protected exactly when it has a
   * blocker, never both, and finds nothing without rows.
   */
  lemma JCrewVerdicts(load: Result<seq<Row>>)
    ensures var c := CheckJCrewPattern(load);
      !(c.vulnerable && c.protected) &&
      (load.Failure? || load.value == [] ==> !c.vulnerable && !c.protected) &&
      (load.Success? && load.value != [] ==>
        var r := load.value[0];
        (c.vulnerable <==> Truthy(GetOr(r, "unsub", VBool(false))) && !Truthy(GetOr(r, "blocker", VBool(false)))) &&
        (c.protected <==> Truthy(GetOr(r, "blocker", VBool(false)))))
  {
  }

  // ---------------------------------------------------------------------
  // Yield exclusion
  // ---------------------------------------------------------------------

  datatype YieldCheck = YieldCheck(detected: bool, explanation: string, facts: seq<PatternFact>)

  /** The yield components the first row says are excluded, floor first. */
  function ExcludedComponents(floor: Value, oid: Value): (excluded: seq<string>)
    ensures |excluded| <= 2
    ensures "LIBOR floor" in excluded <==> !Truthy(floor)
    ensures "OID" in excluded <==> !Truthy(oid)
  {
    (if !Truthy(floor) then ["LIBOR floor"] else []) + (if !Truthy(oid) then ["OID"] else [])
  }

  /** `", ".join(parts)` for the at most two excluded components. */
  function JoinComma(parts: seq<string>): string
  {
    if parts == [] then "" else if |parts| == 1 then parts[0] else parts[0] + ", " + JoinComma(parts[1..])
  }

  /**
   * `_check_yield_exclusion`: on the first row, a missing value reads as
   * True (included); the pattern is detected when at least two components
   * are excluded.
   */
  function CheckYieldExclusion(load: Result<seq<Row>>): (c: YieldCheck)
    ensures c.detected <==> c.facts != []
    ensures !c.detected ==> c.explanation == ""
  {
    if load.Failure? || load.value == [] then YieldCheck(false, "", [])
    else
      var r := load.value[0];
      var floor := GetOr(r, "floor", VBool(true));
      var oid := GetOr(r, "oid", VBool(true));
      var excluded := ExcludedComponents(floor, oid);
      if |excluded| >= 2 then
        YieldCheck(true, "Multiple yield components excluded: " + JoinComma(excluded),
          [PatternFact("floor_included_in_yield", floor, None), PatternFact("oid_included_in_yield", oid, None)])
      else YieldCheck(false, "", [])
  }

  /** The yield exclusion is detected exactly when both the floor and the OID are falsy, a missing one counting as included. */
  lemma YieldExclusionIff(load: Result<seq<Row>>)
    ensures var c := CheckYieldExclusion(load);
      c.detected <==> (load.Success? && load.value != [] &&
        !Truthy(GetOr(load.value[0], "floor", VBool(true))) && !Truthy(GetOr(load.value[0], "oid", VBool(true))))
  {
    if load.Success? && load.value != [] {
      var r := load.value[0];
      var excluded := ExcludedComponents(GetOr(r, "floor", VBool(true)), GetOr(r, "oid", VBool(true)));
      if |excluded| >= 2 {
        assert excluded[0] in excluded && excluded[1] in excluded;
      }
    }
  }

  // ---------------------------------------------------------------------
  // The deal report
  // ---------------------------------------------------------------------

  /** One vulnerability (with a severity) or protection (without one). */
  datatype PatternEntry = PatternEntry(
    pattern: string, patternLabel: string, severity: Option<string>, explanation: string, facts: seq<PatternFact>)

  datatype PatternSummary = PatternSummary(vulnerabilityCount: nat, protectionCount: nat, riskLevel: string)

  datatype DealPatterns = DealPatterns(
    dealId: string, vulnerabilities: seq<PatternEntry>, protections: seq<PatternEntry>, summary: PatternSummary)

  predicate HighSeverity(v: PatternEntry)
  {
    v.severity == Some("high")
  }

  /**
   * `detect_deal_patterns`: the J.Crew check adds a vulnerability or else
   * a protection, the yield check may add a vulnerability, and the summary
   * counts the lists and grades the risk.
   */
  method DetectDealPatterns(dealId: string, jcrewLoad: Result<seq<Row>>, yieldLoad: Result<seq<Row>>)
    returns (patterns: DealPatterns)
    ensures patterns.dealId == dealId
    ensures patterns.summary.vulnerabilityCount == |patterns.vulnerabilities|
    ensures patterns.summary.protectionCount == |patterns.protections|
    ensures patterns.summary.riskLevel == "low" <==> patterns.vulnerabilities == []
    ensures patterns.summary.riskLevel == "high" <==> exists v :: v in patterns.vulnerabilities && HighSeverity(v)
    ensures patterns.summary.riskLevel == "medium" <==> patterns.vulnerabilities != [] && forall v :: v in patterns.vulnerabilities ==> !HighSeverity(v)
    ensures |patterns.protections| <= 1 && |patterns.vulnerabilities| <= 2
    ensures var j := CheckJCrewPattern(jcrewLoad);
      (exists v :: v in patterns.vulnerabilities && v.pattern == "jcrew_trapdoor") <==> j.vulnerable
    ensures var j := CheckJCrewPattern(jcrewLoad);
      patterns.protections != [] <==> !j.vulnerable && j.protected
    ensures (exists v :: v in patterns.vulnerabilities && v.pattern == "yield_exclusion") <==> CheckYieldExclusion(yieldLoad).detected
    ensures |patterns.vulnerabilities| == (if CheckJCrewPattern(jcrewLoad).vulnerable then 1 else 0) + (if CheckYieldExclusion(yieldLoad).detected then 1 else 0)
  {
    var jcrew := CheckJCrewPattern(jcrewLoad);
    var yieldCheck := CheckYieldExclusion(yieldLoad);
    patterns := Report(dealId, jcrew, yieldCheck);
  }

  /**
   * The report as the client ships: it has no `query_read`, so both checks'
   * queries raise inside their `try` and the report never finds anything.
   */
  method DetectWithoutQueryRead(dealId: string, jcrewError: string, yieldError: string) returns (patterns: DealPatterns)
    ensures patterns.dealId == dealId
    ensures patterns.vulnerabilities == [] && patterns.protections == []
    ensures patterns.summary == PatternSummary(0, 0, "low")
  {
    patterns := DetectDealPatterns(dealId, Failure(jcrewError), Failure(yieldError));
  }

  /** The summary's risk grade: high on any high-severity finding, low on none, medium otherwise. */
  method RiskLevel(vulnerabilities: seq<PatternEntry>) returns (riskLevel: string)
    ensures riskLevel == "low" <==> vulnerabilities == []
    ensures riskLevel == "high" <==> exists v :: v in vulnerabilities && HighSeverity(v)
    ensures riskLevel == "medium" <==> vulnerabilities != [] && forall v :: v in vulnerabilities ==> !HighSeverity(v)
  {
    var highSeverity := exists v :: v in vulnerabilities && HighSeverity(v);
    if |vulnerabilities| == 0 {
      riskLevel := "low";
    } else if highSeverity {
      riskLevel := "high";
    } else {
      riskLevel := "medium";
    }
    assert |"low"| != |"high"| && |"high"| != |"medium"| && |"low"| != |"medium"|;
  }

  /** Which findings a vulnerability list of at most the two checks holds. */
  lemma FindingsIff(vs: seq<PatternEntry>, jcrewFound: bool, yieldFound: bool, j: PatternEntry, y: PatternEntry)
    requires j.pattern == "jcrew_trapdoor" && y.pattern == "yield_exclusion"
    requires vs == (if jcrewFound then [j] else []) + (if yieldFound then [y] else [])
    ensures |vs| <= 2
    ensures (exists v :: v in vs && v.pattern == "jcrew_trapdoor") <==> jcrewFound
    ensures (exists v :: v in vs && v.pattern == "yield_exclusion") <==> yieldFound
    ensures |vs| == (if jcrewFound then 1 else 0) + (if yieldFound then 1 else 0)
  {
    assert |"jcrew_trapdoor"| != |"yield_exclusion"|;
    if jcrewFound {
      assert j in vs;
    }
    if yieldFound {
      assert y in vs;
    }
  }

  /** The report body of `detect_deal_patterns`, over the two checks' results. */
  method Report(dealId: string, jcrew: JCrewCheck, yieldCheck: YieldCheck) returns (patterns: DealPatterns)
    ensures patterns.dealId == dealId
    ensures patterns.summary.vulnerabilityCount == |patterns.vulnerabilities|
    ensures patterns.summary.protectionCount == |patterns.protections|
    ensures patterns.summary.riskLevel == "low" <==> patterns.vulnerabilities == []
    ensures patterns.summary.riskLevel == "high" <==> exists v :: v in patterns.vulnerabilities && HighSeverity(v)
    ensures patterns.summary.riskLevel == "medium" <==> patterns.vulnerabilities != [] && forall v :: v in patterns.vulnerabilities ==> !HighSeverity(v)
    ensures |patterns.protections| <= 1 && |patterns.vulnerabilities| <= 2
    ensures (exists v :: v in patterns.vulnerabilities && v.pattern == "jcrew_trapdoor") <==> jcrew.vulnerable
    ensures patterns.protections != [] <==> !jcrew.vulnerable && jcrew.protected
    ensures (exists v :: v in patterns.vulnerabilities && v.pattern == "yield_exclusion") <==> yieldCheck.detected
    ensures |patterns.vulnerabilities| == (if jcrew.vulnerable then 1 else 0) + (if yieldCheck.detected then 1 else 0)
  {
    var vulnerabilities: seq<PatternEntry> := [];
    var protections: seq<PatternEntry> := [];
    if jcrew.vulnerable {
      vulnerabilities := vulnerabilities + [PatternEntry("jcrew_trapdoor", "J.Crew Trapdoor Risk", Some("high"), jcrew.explanation, jcrew.facts)];
    } else if jcrew.protected {
      protections := protections + [PatternEntry("jcrew_blocker", "J.Crew Blocker Present", None, "Agreement includes J.Crew protection provisions", [])];
    }
    if yieldCheck.detected {
      vulnerabilities := vulnerabilities + [PatternEntry("yield_exclusion", "Yield Component Exclusion", Some("medium"), yieldCheck.explanation, yieldCheck.facts)];
    }
    var riskLevel := RiskLevel(vulnerabilities);
    FindingsIff(vulnerabilities, jcrew.vulnerable, yieldCheck.detected,
      PatternEntry("jcrew_trapdoor", "J.Crew Trapdoor Risk", Some("high"), jcrew.explanation, jcrew.facts),
      PatternEntry("yield_exclusion", "Yield Component Exclusion", Some("medium"), yieldCheck.explanation, yieldCheck.facts));
    patterns := DealPatterns(dealId, vulnerabilities, protections, PatternSummary(|vulnerabilities|, |protections|, riskLevel));
  }
}
