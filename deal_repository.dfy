/**
 * app/repositories/deal_repository.py: the `sanitize_for_typeql` escape,
 * pattern detection over primitive maps, and the writes of the primitive,
 * provenance and concept-applicability stores. TypeDB is a log of committed
 * writes with a failure map, as in the graph store; deal reads, creation and
 * deletion are plain queries and are not modelled.
 */
module DealRepository {
  import opened Wrappers
  import opened Text
  import opened PyValues
  import opened TypeQL
  import opened Models
  import opened Effects
  import GraphStorage

  // ---------------------------------------------------------------------------
  // sanitize_for_typeql
  // ---------------------------------------------------------------------------

  /** What `sanitize_for_typeql` does to one character: CR is kept. */
  function SanitizeChar(c: char): string
  {
    if c == '\\' then "\\\\"
    else if c == '"' then "\\\""
    else if c == '\n' then "\\n"
    else [c]
  }

  function SanitizeEach(s: string): string
    decreases |s|
  {
    if s == [] then [] else SanitizeChar(s[0]) + SanitizeEach(s[1..])
  }

  function SanitizeChain(s: string): string
  {
    ReplaceChar(ReplaceChar(ReplaceChar(s, '\\', "\\\\"), '"', "\\\""), '\n', "\\n")
  }

  lemma SanitizeChainConcat(a: string, b: string)
    ensures SanitizeChain(a + b) == SanitizeChain(a) + SanitizeChain(b)
  {
    var a1, b1 := ReplaceChar(a, '\\', "\\\\"), ReplaceChar(b, '\\', "\\\\");
    ReplaceCharConcat(a, b, '\\', "\\\\");
    ReplaceCharConcat(a1, b1, '"', "\\\"");
    ReplaceCharConcat(ReplaceChar(a1, '"', "\\\""), ReplaceChar(b1, '"', "\\\""), '\n', "\\n");
  }

  lemma SanitizeChainChar(c: char)
    ensures SanitizeChain([c]) == SanitizeChar(c)
  {
    assert ReplaceChar("\\\\", '"', "\\\"") == "\\\\";
    assert ReplaceChar("\\\\", '\n', "\\n") == "\\\\";
    assert ReplaceChar("\\\"", '\n', "\\n") == "\\\"";
  }

  lemma {:induction false} SanitizeIsCharwise(s: string)
    ensures SanitizeChain(s) == SanitizeEach(s)
    decreases |s|
  {
    if s != [] {
      assert s == [s[0]] + s[1..];
      SanitizeChainConcat([s[0]], s[1..]);
      SanitizeChainChar(s[0]);
      SanitizeIsCharwise(s[1..]);
    }
  }

  /** The escaped text has no raw newline, and TypeQL reads it back as the input, CRs included. */
  lemma {:induction false} SanitizeEachRoundTrip(s: string)
    ensures '\n' !in SanitizeEach(s)
    ensures Unescape(SanitizeEach(s)) == s
    decreases |s|
  {
    if s != [] {
      var rest := SanitizeEach(s[1..]);
      SanitizeEachRoundTrip(s[1..]);
      var t := SanitizeEach(s);
      assert t == SanitizeChar(s[0]) + rest;
      if s[0] == '\\' || s[0] == '"' || s[0] == '\n' {
        assert t[2..] == rest;
      } else {
        assert t[1..] == rest;
      }
    }
  }

  lemma {:induction false} SanitizeEachQuoted(s: string)
    ensures QuotedBody(SanitizeEach(s))
    decreases |s|
  {
    if s != [] {
      var rest := SanitizeEach(s[1..]);
      SanitizeEachQuoted(s[1..]);
      var t := SanitizeEach(s);
      assert t == SanitizeChar(s[0]) + rest;
      if s[0] == '\\' || s[0] == '"' || s[0] == '\n' {
        assert t[2..] == rest;
      } else {
        assert t[1..] == rest;
      }
    }
  }

  /** `sanitize_for_typeql`: None becomes the empty text. */
  function Sanitize(value: Option<string>): (r: string)
    ensures value.None? ==> r == ""
    ensures '\n' !in r
    ensures value.Some? ==> Unescape(r) == value.value
    ensures QuotedBody(r)
  {
    match value
    case None => ""
    case Some(s) =>
      var r := SanitizeChain(s);
      assert r == SanitizeEach(s) && '\n' !in r && Unescape(r) == s by {
        SanitizeIsCharwise(s);
        SanitizeEachRoundTrip(s);
      }
      assert QuotedBody(r) by { SanitizeEachQuoted(s); }
      r
  }

  /** The graph store's `_escape` is this escape followed by deleting CRs. */
  lemma EscapeIsSanitizeWithoutCR(s: string)
    ensures GraphStorage.Escape(s) == GraphStorage.RemoveCR(Sanitize(Some(s)))
  {
  }

  // ---------------------------------------------------------------------------
  // _detect_patterns
  // ---------------------------------------------------------------------------

  datatype Patterns = Patterns(yieldExclusion: bool, weakMfn: bool, jcrew: bool)

  /** Python truthiness of an optional dict. */
  predicate MapTruthy(m: Option<map<string, Value>>)
  {
    m.Some? && |m.value| > 0
  }

  /** Python's `v < bound` (or `v > bound`): only numbers compare with an int. */
  function Compare(v: Value, bound: int, less: bool): (r: Result<bool>)
    ensures r.Success? <==> IsNumber(v)
  {
    if !IsNumber(v) then Failure("'" + (if less then "<" else ">") + "' not supported between instances")
    else Success(if less then AsReal(v) < bound as real else AsReal(v) > bound as real)
  }

  /** OID and floor both explicitly excluded from yield; a missing key is not False. */
  predicate YieldExclusionSpec(mfn: Option<map<string, Value>>)
  {
    MapTruthy(mfn) && EqFalse(Get(mfn.value, "oid_included_in_yield")) && EqFalse(Get(mfn.value, "floor_included_in_yield"))
  }

  /** A present sunset or threshold that is not a number makes the comparison raise. */
  predicate MfnComparisonRaises(mfn: Option<map<string, Value>>)
  {
    MapTruthy(mfn) &&
    ((Truthy(Get(mfn.value, "sunset_period_months")) && !IsNumber(Get(mfn.value, "sunset_period_months"))) ||
     (Truthy(Get(mfn.value, "threshold_bps")) && !IsNumber(Get(mfn.value, "threshold_bps"))))
  }

  /** A sunset below 12 months, or a threshold above 50 bps (zero counts as absent). */
  predicate WeakMfnSpec(mfn: Option<map<string, Value>>)
    requires !MfnComparisonRaises(mfn)
  {
    MapTruthy(mfn) &&
    var sunset, threshold := Get(mfn.value, "sunset_period_months"), Get(mfn.value, "threshold_bps");
    (Truthy(sunset) && AsReal(sunset) < 12.0) || (Truthy(threshold) && AsReal(threshold) > 50.0)
  }

  /** Unsub designation and IP transfers permitted, and some part of the blocker explicitly absent or weak. */
  predicate JCrewSpec(rp: Option<map<string, Value>>)
  {
    MapTruthy(rp) &&
    var m := rp.value;
    EqTrue(Get(m, "unrestricted_sub_designation_permitted")) && EqTrue(Get(m, "ip_transfers_to_subs_permitted")) &&
    (EqFalse(Get(m, "jcrew_blocker_present")) || EqFalse(Get(m, "jcrew_blocker_covers_ip"))
      || EqFalse(Get(m, "ip_definition_includes_trade_secrets")))
  }

  /** The MFN half of `_detect_patterns`: the yield-exclusion and weak-MFN flags. */
  method DetectMfnPatterns(mfn: Option<map<string, Value>>) returns (r: Result<(bool, bool)>)
    ensures r.Failure? <==> MfnComparisonRaises(mfn)
    ensures r.Success? ==> r.value == (YieldExclusionSpec(mfn), WeakMfnSpec(mfn))
  {
    var yieldExclusion, weakMfn := false, false;
    if MapTruthy(mfn) {
      var m := mfn.value;
      var oidExcluded := EqFalse(Get(m, "oid_included_in_yield"));
      var floorExcluded := EqFalse(Get(m, "floor_included_in_yield"));
      yieldExclusion := oidExcluded && floorExcluded;
      var sunset := Get(m, "sunset_period_months");
      var threshold := Get(m, "threshold_bps");
      if Truthy(sunset) {
        var below :- Compare(sunset, 12, true);
        if below {
          weakMfn := true;
        }
      }
      if Truthy(threshold) {
        var above :- Compare(threshold, 50, false);
        if above {
          weakMfn := true;
        }
      }
    }
    return Success((yieldExclusion, weakMfn));
  }

  /**
   * `_detect_patterns`: all three flags start False and are set from the MFN
   * and RP maps when those are non-empty. Comparing a present non-numeric
   * sunset or threshold with a number raises.
   */
  method DetectPatterns(mfn: Option<map<string, Value>>, rp: Option<map<string, Value>>) returns (r: Result<Patterns>)
    ensures r.Failure? <==> MfnComparisonRaises(mfn)
    ensures r.Success? ==> r.value == Patterns(YieldExclusionSpec(mfn), WeakMfnSpec(mfn), JCrewSpec(rp))
  {
    var flags :- DetectMfnPatterns(mfn);
    var patterns := Patterns(flags.0, flags.1, false);
    if MapTruthy(rp) {
      var m := rp.value;
      var hasUnsub := EqTrue(Get(m, "unrestricted_sub_designation_permitted"));
      var hasIpTransfer := EqTrue(Get(m, "ip_transfers_to_subs_permitted"));
      var noBlocker := EqFalse(Get(m, "jcrew_blocker_present"));
      var weakBlocker := EqFalse(Get(m, "jcrew_blocker_covers_ip"));
      var weakIpDef := EqFalse(Get(m, "ip_definition_includes_trade_secrets"));
      if hasUnsub && hasIpTransfer {
        if noBlocker || weakBlocker || weakIpDef {
          patterns := patterns.(jcrew := true);
        }
      }
    }
    return Success(patterns);
  }

  // ---------------------------------------------------------------------------
  // Writes
  // ---------------------------------------------------------------------------

  datatype ProvisionKind = Mfn | Rp

  function ProvisionType(kind: ProvisionKind): string
  {
    match kind
    case Mfn => "mfn_provision"
    case Rp => "rp_provision"
  }

  /** The provision key: `{deal_id}_mfn` or `{deal_id}_rp`. */
  function ProvisionKey(dealId: string, kind: ProvisionKind): string
  {
    dealId + (match kind case Mfn => "_mfn" case Rp => "_rp")
  }

  datatype DealWrite =
      /** A provision with its attribute clauses, attached to its deal. */
    | ProvisionInsert(dealId: string, provisionType: string, provisionId: string, clauses: seq<Attr>)
      /** An `attribute_provenance` attached to the deal's provision of that type. */
    | ProvenanceInsert(dealId: string, provisionType: string, fieldName: string, sourceText: string,
        sourcePage: int, sourceSection: string, confidence: string)
      /** A `concept_applicability` relation between a provision and a concept. */
    | ApplicabilityInsert(provisionType: string, provisionId: string, conceptType: string, conceptId: string,
        status: string, sourceText: string, sourcePage: int)

  /** The literal a primitive's value is written as: booleans before numbers; other types have none. */
  function PrimitiveLit(v: Value): Option<Lit>
  {
    match v
    case VBool(b) => Some(LBool(b))
    case VInt(i) => Some(LLong(i))
    case VFloat(f) => Some(LDouble(f))
    case VStr(s) => Some(LString(Sanitize(Some(s))))
    case _ => None
  }

  predicate Supported(p: ExtractedPrimitive)
  {
    PrimitiveLit(p.value).Some?
  }

  /** The attribute clauses of the primitives, in order, skipping unsupported values. */
  function PrimitiveClauses(ps: seq<ExtractedPrimitive>): seq<Attr>
  {
    if ps == [] then []
    else
      var last := ps[|ps| - 1];
      PrimitiveClauses(ps[..|ps| - 1])
      + (match PrimitiveLit(last.value) case None => [] case Some(l) => [Attr(last.attributeName, l)])
  }

  /**
   * One clause per primitive with a supported value, named after it, in
   * order; so the clauses are empty exactly when no value is supported, and
   * a boolean is written as a boolean, not a number.
   */
  lemma {:induction false} PrimitiveClausesShape(ps: seq<ExtractedPrimitive>)
    ensures |PrimitiveClauses(ps)| <= |ps|
    ensures PrimitiveClauses(ps) == [] <==> forall i :: 0 <= i < |ps| ==> !Supported(ps[i])
    ensures forall a :: a in PrimitiveClauses(ps) ==>
      exists i :: 0 <= i < |ps| && Supported(ps[i]) && a == Attr(ps[i].attributeName, PrimitiveLit(ps[i].value).value)
    ensures forall i :: 0 <= i < |ps| && ps[i].value.VBool? ==> Attr(ps[i].attributeName, LBool(ps[i].value.b)) in PrimitiveClauses(ps)
    decreases |ps|
  {
    if ps != [] {
      var init, last := ps[..|ps| - 1], ps[|ps| - 1];
      PrimitiveClausesShape(init);
      var tail := match PrimitiveLit(last.value) case None => [] case Some(l) => [Attr(last.attributeName, l)];
      assert PrimitiveClauses(ps) == PrimitiveClauses(init) + tail;
      assert tail == [] <==> !Supported(last);
      assert forall i :: 0 <= i < |init| ==> init[i] == ps[i];
      forall a | a in PrimitiveClauses(ps)
        ensures exists i :: 0 <= i < |ps| && Supported(ps[i]) && a == Attr(ps[i].attributeName, PrimitiveLit(ps[i].value).value)
      {
        if a in PrimitiveClauses(init) {
          var i :| 0 <= i < |init| && Supported(init[i]) && a == Attr(init[i].attributeName, PrimitiveLit(init[i].value).value);
          assert ps[i] == init[i];
        } else {
          assert a in tail && ps[|ps| - 1] == last;
        }
      }
      forall i | 0 <= i < |ps| && ps[i].value.VBool?
        ensures Attr(ps[i].attributeName, LBool(ps[i].value.b)) in PrimitiveClauses(ps)
      {
        if i == |init| {
          assert tail == [Attr(last.attributeName, LBool(last.value.b))];
        }
      }
    }
  }

  /** The attribute clauses of `store_mfn_primitives` / `store_rp_primitives`, built in a loop. */
  method AttrClauses(ps: seq<ExtractedPrimitive>) returns (clauses: seq<Attr>)
    ensures clauses == PrimitiveClauses(ps)
  {
    clauses := [];
    var i := 0;
    while i < |ps|
      invariant 0 <= i <= |ps|
      invariant clauses == PrimitiveClauses(ps[..i])
    {
      assert ps[..i + 1][..i] == ps[..i];
      var p := ps[i];
      match PrimitiveLit(p.value) {
        case Some(l) => clauses := clauses + [Attr(p.attributeName, l)];
        case None =>
      }
      i := i + 1;
    }
    assert ps[..i] == ps;
  }

  /** The provenance record of a primitive that has source text. */
  function ProvenanceOf(dealId: string, provisionType: string, p: ExtractedPrimitive): DealWrite
  {
    ProvenanceInsert(dealId, provisionType, p.attributeName, Sanitize(Some(Take(p.sourceText, 1000))),
      p.sourcePage, Sanitize(Some(p.sourceSection.GetOr(""))), p.confidence)
  }

  /** The provenance writes `_store_provenance` attempts: one per primitive with non-empty source text. */
  function ProvenanceWrites(dealId: string, provisionType: string, ps: seq<ExtractedPrimitive>): seq<DealWrite>
  {
    if ps == [] then []
    else
      var last := ps[|ps| - 1];
      ProvenanceWrites(dealId, provisionType, ps[..|ps| - 1])
      + (if last.sourceText == "" then [] else [ProvenanceOf(dealId, provisionType, last)])
  }

  lemma ProvenanceWritesSnoc(dealId: string, provisionType: string, ps: seq<ExtractedPrimitive>, p: ExtractedPrimitive)
    ensures ProvenanceWrites(dealId, provisionType, ps + [p])
      == ProvenanceWrites(dealId, provisionType, ps) + (if p.sourceText == "" then [] else [ProvenanceOf(dealId, provisionType, p)])
  {
    assert (ps + [p])[..|ps + [p]| - 1] == ps;
  }

  /** Every provenance write comes from a primitive with source text. */
  lemma {:induction false} ProvenanceOnlyWithText(dealId: string, provisionType: string, ps: seq<ExtractedPrimitive>)
    ensures |ProvenanceWrites(dealId, provisionType, ps)| <= |ps|
    ensures forall w :: w in ProvenanceWrites(dealId, provisionType, ps) ==>
      exists i :: 0 <= i < |ps| && ps[i].sourceText != "" && w == ProvenanceOf(dealId, provisionType, ps[i])
    decreases |ps|
  {
    if ps != [] {
      var init, last := ps[..|ps| - 1], ps[|ps| - 1];
      assert ps == init + [last];
      ProvenanceWritesSnoc(dealId, provisionType, init, last);
      ProvenanceOnlyWithText(dealId, provisionType, init);
      forall w | w in ProvenanceWrites(dealId, provisionType, ps)
        ensures exists i :: 0 <= i < |ps| && ps[i].sourceText != "" && w == ProvenanceOf(dealId, provisionType, ps[i])
      {
        if w in ProvenanceWrites(dealId, provisionType, init) {
          var i :| 0 <= i < |init| && init[i].sourceText != "" && w == ProvenanceOf(dealId, provisionType, init[i]);
          assert ps[i] == init[i];
        } else {
          assert ps[|ps| - 1] == last;
        }
      }
    }
  }

  /** Every primitive with source text gets its provenance write. */
  lemma {:induction false} ProvenanceForEveryText(dealId: string, provisionType: string, ps: seq<ExtractedPrimitive>)
    ensures forall i :: 0 <= i < |ps| && ps[i].sourceText != "" ==>
      ProvenanceOf(dealId, provisionType, ps[i]) in ProvenanceWrites(dealId, provisionType, ps)
    decreases |ps|
  {
    if ps != [] {
      var init, last := ps[..|ps| - 1], ps[|ps| - 1];
      assert ps == init + [last];
      ProvenanceWritesSnoc(dealId, provisionType, init, last);
      ProvenanceForEveryText(dealId, provisionType, init);
      forall i | 0 <= i < |ps| && ps[i].sourceText != ""
        ensures ProvenanceOf(dealId, provisionType, ps[i]) in ProvenanceWrites(dealId, provisionType, ps)
      {
        if i < |init| {
          assert init[i] == ps[i];
        }
      }
    }
  }

  /** The writes `store_concept_applicabilities` attempts for one answer: one per included concept. */
  function AnswerWrites(provisionType: string, provisionId: string, a: MultiselectAnswer): (ws: seq<DealWrite>)
    ensures |ws| == |a.included|
  {
    seq(|a.included|, k requires 0 <= k < |a.included| =>
      ApplicabilityInsert(provisionType, provisionId, a.conceptType, a.included[k], "INCLUDED",
        Sanitize(Some(Take(a.sourceText, 500))), a.sourcePage))
  }

  function ApplicabilityWrites(provisionType: string, provisionId: string, answers: seq<MultiselectAnswer>): seq<DealWrite>
  {
    if answers == [] then []
    else
      ApplicabilityWrites(provisionType, provisionId, answers[..|answers| - 1])
      + AnswerWrites(provisionType, provisionId, answers[|answers| - 1])
  }

  function TotalIncluded(answers: seq<MultiselectAnswer>): nat
  {
    if answers == [] then 0 else TotalIncluded(answers[..|answers| - 1]) + |answers[|answers| - 1].included|
  }

  /**
   * Every attempted applicability write is for an included concept, with
   * status INCLUDED; excluded concepts are never written; one write is
   * attempted per included concept.
   */
  lemma {:induction false} ApplicabilityOnlyIncluded(provisionType: string, provisionId: string, answers: seq<MultiselectAnswer>)
    ensures |ApplicabilityWrites(provisionType, provisionId, answers)| == TotalIncluded(answers)
    ensures forall w :: w in ApplicabilityWrites(provisionType, provisionId, answers) ==>
      w.ApplicabilityInsert? && w.status == "INCLUDED" && w.provisionId == provisionId &&
      exists i :: 0 <= i < |answers| && w.conceptId in answers[i].included && w.conceptType == answers[i].conceptType
    decreases |answers|
  {
    if answers != [] {
      var init, last := answers[..|answers| - 1], answers[|answers| - 1];
      ApplicabilityOnlyIncluded(provisionType, provisionId, init);
      assert forall i :: 0 <= i < |init| ==> init[i] == answers[i];
      forall w | w in AnswerWrites(provisionType, provisionId, last)
        ensures w.conceptId in answers[|answers| - 1].included
      {
        var k :| 0 <= k < |last.included| && AnswerWrites(provisionType, provisionId, last)[k] == w;
      }
    }
  }

  /** The deal repository's view of TypeDB: committed writes, in order. */
  class DealStore {
    var log: seq<DealWrite>
    var attempts: nat
    const failures: map<nat, string>

    constructor (failures: map<nat, string>)
      ensures this.failures == failures && log == [] && attempts == 0
    {
      this.failures := failures;
      log := [];
      attempts := 0;
    }

    /** One write transaction: it commits, or raises and leaves the log alone. */
    method Execute(w: DealWrite) returns (err: Option<string>)
      modifies this
      ensures err == FailureAt(failures, old(attempts))
      ensures attempts == old(attempts) + 1
      ensures log == old(log) + (if err.None? then [w] else [])
    {
      err := FailureAt(failures, attempts);
      if err.None? {
        log := log + [w];
      }
      attempts := attempts + 1;
    }

    /** Attempts each write in turn; a failure is logged and the loop goes on. */
    method ExecuteEach(ws: seq<DealWrite>)
      modifies this
      ensures log == old(log) + Committed(ws, old(attempts), failures)
      ensures attempts == old(attempts) + |ws|
    {
      var i := 0;
      while i < |ws|
        invariant 0 <= i <= |ws|
        invariant log == old(log) + Committed(ws[..i], old(attempts), failures)
        invariant attempts == old(attempts) + i
      {
        CommittedSnoc(ws[..i], ws[i], old(attempts), failures);
        assert ws[..i + 1] == ws[..i] + [ws[i]];
        var ignored := Execute(ws[i]);
        i := i + 1;
      }
      assert ws[..i] == ws;
    }

    /** `_store_provenance`: one independent write per primitive with source text. */
    method StoreProvenance(dealId: string, provisionType: string, ps: seq<ExtractedPrimitive>)
      modifies this
      ensures log == old(log) + Committed(ProvenanceWrites(dealId, provisionType, ps), old(attempts), failures)
      ensures attempts == old(attempts) + |ProvenanceWrites(dealId, provisionType, ps)|
    {
      ExecuteEach(ProvenanceWrites(dealId, provisionType, ps));
    }

    /**
     * `store_mfn_primitives` / `store_rp_primitives`: nothing to write gives
     * True; otherwise one provision insert under the fixed key, False when it
     * fails, else the provenance writes and True.
     */
    method StorePrimitives(dealId: string, kind: ProvisionKind, ps: seq<ExtractedPrimitive>) returns (ok: bool)
      modifies this
      ensures var clauses := PrimitiveClauses(ps);
        var w := ProvisionInsert(dealId, ProvisionType(kind), ProvisionKey(dealId, kind), clauses);
        var prov := ProvenanceWrites(dealId, ProvisionType(kind), ps);
        (clauses == [] ==> ok && log == old(log) && attempts == old(attempts)) &&
        (clauses != [] && FailureAt(failures, old(attempts)).Some? ==>
          !ok && log == old(log) && attempts == old(attempts) + 1) &&
        (clauses != [] && FailureAt(failures, old(attempts)).None? ==>
          ok && log == old(log) + [w] + Committed(prov, old(attempts) + 1, failures) && attempts == old(attempts) + 1 + |prov|)
    {
      if ps == [] {
        return true;
      }
      var clauses := AttrClauses(ps);
      if clauses == [] {
        return true;
      }
      var err := Execute(ProvisionInsert(dealId, ProvisionType(kind), ProvisionKey(dealId, kind), clauses));
      if err.Some? {
        return false;
      }
      StoreProvenance(dealId, ProvisionType(kind), ps);
      return true;
    }

    /**
     * `store_concept_applicabilities`: one independent write per included
     * concept of each answer, under the provision key of the given type;
     * always True.
     */
    method StoreConceptApplicabilities(dealId: string, provisionType: string, answers: seq<MultiselectAnswer>)
      returns (ok: bool)
      modifies this
      ensures ok
      ensures var pid := dealId + (if provisionType == "mfn_provision" then "_mfn" else "_rp");
        var ws := ApplicabilityWrites(provisionType, pid, answers);
        log == old(log) + Committed(ws, old(attempts), failures) && attempts == old(attempts) + |ws|
    {
      if answers == [] {
        return true;
      }
      var pid := dealId + (if provisionType == "mfn_provision" then "_mfn" else "_rp");
      ExecuteEach(ApplicabilityWrites(provisionType, pid, answers));
      return true;
    }
  }
}
