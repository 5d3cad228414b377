/**
 * The write path of app/services/graph_storage.py: TypeQL escaping, the
 * subtype maps and ID schemes of the V4 `_store_*` helpers, the choice of
 * attachment relation per basket hierarchy, the per-component success and
 * error accounting of `store_rp_extraction_v4`, scalar answers, attribute
 * clauses built from a field map, and the extraction summary line.
 *
 * TypeDB is a log of committed writes. Whether a write fails is decided by a
 * failure map from the write's ordinal to the error it raises, fixed when the
 * store is created, so every possible run is covered by some map.
 */
module GraphStorage {
  import opened Wrappers
  import opened Text
  import opened PyValues
  import opened TypeQL
  import opened ExtractionSchema
  import opened JsonValues
  import opened Effects
  import Collections

  // ---------------------------------------------------------------------------
  // _escape
  // ---------------------------------------------------------------------------

  /** Text with every CR deleted. */
  function RemoveCR(s: string): string
  {
    ReplaceChar(s, '\r', "")
  }

  /**
   * `_escape`: empty text stays empty; otherwise backslashes are doubled first,
   * then quotes escaped, newlines written as the two characters `\n`, and CRs
   * deleted, by four successive `replace` calls.
   */
  function Escape(text: string): (r: string)
    ensures '\n' !in r && '\r' !in r
    ensures SafeLiteralBody(r)
    ensures Unescape(r) == RemoveCR(text)
  {
    if text == "" then ""
    else
      var r := ReplaceChar(ReplaceChar(ReplaceChar(ReplaceChar(text, '\\', "\\\\"), '"', "\\\""), '\n', "\\n"), '\r', "");
      assert r == EscapeEach(text) && '\n' !in r && '\r' !in r by { EscapeIsCharwise(text); EachHasNoLineBreak(text); }
      assert SafeLiteralBody(r) && Unescape(r) == RemoveCR(text) by { EachRoundTrip(text); }
      r
  }

  /** What `_escape` does to one character. */
  function EscapeChar(c: char): string
  {
    if c == '\\' then "\\\\"
    else if c == '"' then "\\\""
    else if c == '\n' then "\\n"
    else if c == '\r' then ""
    else [c]
  }

  function EscapeEach(s: string): string
    decreases |s|
  {
    if s == [] then [] else EscapeChar(s[0]) + EscapeEach(s[1..])
  }

  function Chain(s: string): string
  {
    ReplaceChar(ReplaceChar(ReplaceChar(ReplaceChar(s, '\\', "\\\\"), '"', "\\\""), '\n', "\\n"), '\r', "")
  }

  lemma ChainConcat(a: string, b: string)
    ensures Chain(a + b) == Chain(a) + Chain(b)
  {
    var a1, b1 := ReplaceChar(a, '\\', "\\\\"), ReplaceChar(b, '\\', "\\\\");
    ReplaceCharConcat(a, b, '\\', "\\\\");
    var a2, b2 := ReplaceChar(a1, '"', "\\\""), ReplaceChar(b1, '"', "\\\"");
    ReplaceCharConcat(a1, b1, '"', "\\\"");
    var a3, b3 := ReplaceChar(a2, '\n', "\\n"), ReplaceChar(b2, '\n', "\\n");
    ReplaceCharConcat(a2, b2, '\n', "\\n");
    ReplaceCharConcat(a3, b3, '\r', "");
  }

  lemma ChainChar(c: char)
    ensures Chain([c]) == EscapeChar(c)
  {
    var s1 := ReplaceChar([c], '\\', "\\\\");
    if c == '\\' {
      assert s1 == "\\\\";
    } else {
      assert s1 == [c];
      var s2 := ReplaceChar(s1, '"', "\\\"");
      if c == '"' {
        assert s2 == "\\\"";
      } else {
        assert s2 == [c];
        var s3 := ReplaceChar(s2, '\n', "\\n");
        if c == '\n' {
          assert s3 == "\\n";
        } else {
          assert s3 == [c];
        }
      }
    }
  }

  lemma {:induction false} EscapeIsCharwise(s: string)
    ensures Chain(s) == EscapeEach(s)
    decreases |s|
  {
    if s != [] {
      assert s == [s[0]] + s[1..];
      ChainConcat([s[0]], s[1..]);
      ChainChar(s[0]);
      EscapeIsCharwise(s[1..]);
    }
  }

  lemma {:induction false} EachHasNoLineBreak(s: string)
    ensures '\n' !in EscapeEach(s) && '\r' !in EscapeEach(s)
    decreases |s|
  {
    if s != [] {
      EachHasNoLineBreak(s[1..]);
    }
  }

  /** Unescaping what `_escape` produced gives back the input without its CRs. */
  lemma {:induction false} EachRoundTrip(s: string)
    ensures SafeLiteralBody(EscapeEach(s))
    ensures Unescape(EscapeEach(s)) == RemoveCR(s)
    decreases |s|
  {
    if s != [] {
      var e, rest := EscapeChar(s[0]), EscapeEach(s[1..]);
      EachRoundTrip(s[1..]);
      assert SafeLiteralBody(e);
      SafeConcat(e, rest);
      UnescapeConcat(e, rest);
      assert Unescape(e) == (if s[0] == '\r' then "" else [s[0]]);
      assert RemoveCR(s) == (if s[0] == '\r' then "" else [s[0]]) + RemoveCR(s[1..]);
    }
  }

  // ---------------------------------------------------------------------------
  // Subtype maps, IDs and attachment relations of the V4 store helpers
  // ---------------------------------------------------------------------------

  /**
   * `_store_builder_source_v4` type map: each listed source type names its own
   * entity type, except `debt_conversion`, which (like any unknown value) falls
   * back to the `builder_source` supertype.
   */
  function SourceEntityType(sourceType: string): (t: string)
    ensures t == "builder_source" || t == sourceType + "_source"
  {
    var typeMap := map[
      "starter_amount" := "starter_amount_source",
      "cni" := "cni_source",
      "ecf" := "ecf_source",
      "ebitda_fc" := "ebitda_fc_source",
      "equity_proceeds" := "equity_proceeds_source",
      "asset_sale_proceeds" := "asset_sale_proceeds_source",
      "investment_returns" := "investment_returns_source",
      "declined_proceeds" := "declined_proceeds_source",
      "debt_conversion" := "builder_source"];
    if sourceType in typeMap then typeMap[sourceType] else "builder_source"
  }

  /**
   * `_store_blocker_exception_v4` type map: `required_by_law` and unknown
   * values fall back to the `blocker_exception` supertype.
   */
  function ExceptionEntityType(exceptionType: string): (t: string)
    ensures t == "blocker_exception" || t == exceptionType + "_exception"
  {
    var typeMap := map[
      "nonexclusive_license" := "nonexclusive_license_exception",
      "ordinary_course" := "ordinary_course_exception",
      "intercompany" := "intercompany_exception",
      "fair_value" := "fair_value_exception",
      "license_back" := "license_back_exception",
      "immaterial_ip" := "immaterial_ip_exception",
      "required_by_law" := "blocker_exception"];
    if exceptionType in typeMap then typeMap[exceptionType] else "blocker_exception"
  }

  /**
   * Both subtype maps are total: every listed value other than the fallback
   * one names its own subtype, and the fallback value and anything unknown
   * name the supertype.
   */
  lemma SubtypeMapsTotal(x: string)
    ensures x in SourceTypeNames && x != "debt_conversion" ==> SourceEntityType(x) == x + "_source"
    ensures x !in SourceTypeNames || x == "debt_conversion" ==> SourceEntityType(x) == "builder_source"
    ensures x in ExceptionTypeNames && x != "required_by_law" ==> ExceptionEntityType(x) == x + "_exception"
    ensures x !in ExceptionTypeNames || x == "required_by_law" ==> ExceptionEntityType(x) == "blocker_exception"
  {
    if x in SourceTypeNames {
      var i :| 0 <= i < |SourceTypeNames| && SourceTypeNames[i] == x;
      assert i == 0 || i == 1 || i == 2 || i == 3 || i == 4 || i == 5 || i == 6 || i == 7 || i == 8;
    }
    if x in ExceptionTypeNames {
      var i :| 0 <= i < |ExceptionTypeNames| && ExceptionTypeNames[i] == x;
      assert i == 0 || i == 1 || i == 2 || i == 3 || i == 4 || i == 5 || i == 6;
    }
  }

  /** The seven RP basket subtypes, attached through `provision_has_basket`. */
  const RpBasketTypes: set<string> := {
    "builder_basket", "ratio_basket", "general_rp_basket", "management_equity_basket",
    "tax_distribution_basket", "holdco_overhead_basket", "equity_award_basket"}

  /** The five RDP basket subtypes, attached through `provision_has_rdp_basket`. */
  const RdpBasketTypes: set<string> := {
    "refinancing_rdp_basket", "general_rdp_basket", "ratio_rdp_basket",
    "builder_rdp_basket", "equity_funded_rdp_basket"}

  function SourceId(basketId: string, index: nat): string
  {
    basketId + "_src_" + NatToString(index)
  }

  function ExceptionId(blockerId: string, index: nat): string
  {
    blockerId + "_exc_" + NatToString(index)
  }

  function PathwayId(provisionId: string, index: nat): string
  {
    "pathway_" + provisionId + "_" + NatToString(index)
  }

  lemma SuffixInjective(prefix: string, i: nat, j: nat)
    requires prefix + NatToString(i) == prefix + NatToString(j)
    ensures i == j
  {
    assert NatToString(i) == (prefix + NatToString(i))[|prefix|..];
    assert NatToString(j) == (prefix + NatToString(j))[|prefix|..];
    NatToStringInjective(i, j);
  }

  /** Child IDs are deterministic, and distinct indices give distinct IDs. */
  lemma ChildIdsDistinct(parent: string, i: nat, j: nat)
    requires i != j
    ensures SourceId(parent, i) != SourceId(parent, j)
    ensures ExceptionId(parent, i) != ExceptionId(parent, j)
    ensures PathwayId(parent, i) != PathwayId(parent, j)
  {
    if SourceId(parent, i) == SourceId(parent, j) {
      SuffixInjective(parent + "_src_", i, j);
    }
    if ExceptionId(parent, i) == ExceptionId(parent, j) {
      SuffixInjective(parent + "_exc_", i, j);
    }
    if PathwayId(parent, i) == PathwayId(parent, j) {
      SuffixInjective("pathway_" + parent + "_", i, j);
    }
  }

  // ---------------------------------------------------------------------------
  // Writes and the store
  // ---------------------------------------------------------------------------

  /** One TypeQL write, by what it creates. */
  datatype Write =
      /** `insert $x isa <entityType>, has <id attr> "<id>"; (<parent>, $x) isa <relation>;` */
    | Entity(entityType: string, id: string, relation: string, parentId: string)
      /** `_link_blocker_to_ip_type`: a `blocker_covers_ip_type` relation to a seeded IP type. */
    | LinkIpType(blockerId: string, ipType: string)
      /** `_link_exemption_to_provision`: a `provision_has_sweep_exemption` relation. */
    | LinkExemption(provisionId: string, exemptionId: string)
      /** `_store_reallocation_v4`: a `basket_reallocates_to` relation between two baskets. */
    | Reallocate(sourceBasketId: string, targetBasketId: string)
      /** `store_scalar_answer`: a `provision_has_answer` relation carrying the answer's attribute clauses. */
    | Answer(provisionId: string, questionId: string, attrs: seq<Attr>)

  /** How one step of a component behaves when it goes wrong. */
  datatype Step =
      /** A write whose failure aborts the component. */
    | Must(w: Write)
      /** A write wrapped in its own try/except: a failure is only logged. */
    | Tolerant(w: Write)
      /** Code that raises before writing anything (an attribute the record lacks). */
    | Raise(message: string)

  /** The effect of running a plan of steps from write ordinal `at`. */
  datatype PlanRun = PlanRun(committed: seq<Write>, used: nat, err: Option<string>)

  function StepWrites(plan: seq<Step>): (ws: seq<Write>)
    ensures |ws| <= |plan|
  {
    if plan == [] then []
    else (if plan[0].Raise? then [] else [plan[0].w]) + StepWrites(plan[1..])
  }

  predicate AllMust(plan: seq<Step>)
  {
    forall i :: 0 <= i < |plan| ==> plan[i].Must?
  }

  function RunSteps(plan: seq<Step>, at: nat, failures: map<nat, string>): (r: PlanRun)
    ensures |r.committed| <= r.used <= |plan|
    decreases |plan|
  {
    if plan == [] then PlanRun([], 0, None)
    else
      match plan[0]
      case Raise(message) => PlanRun([], 0, Some(message))
      case Must(w) =>
        if FailureAt(failures, at).Some? then PlanRun([], 1, FailureAt(failures, at))
        else
          var rest := RunSteps(plan[1..], at + 1, failures);
          PlanRun([w] + rest.committed, rest.used + 1, rest.err)
      case Tolerant(w) =>
        var rest := RunSteps(plan[1..], at + 1, failures);
        PlanRun((if FailureAt(failures, at).Some? then [] else [w]) + rest.committed, rest.used + 1, rest.err)
  }

  /**
   * A plan of plain writes either commits all of them, or stops at the first
   * failing write with that write's error, leaving exactly the writes before
   * it committed.
   */
  lemma {:induction false} MustPlanOutcome(plan: seq<Step>, at: nat, failures: map<nat, string>)
    requires AllMust(plan)
    ensures var r := RunSteps(plan, at, failures);
      (r.err.None? <==> forall k :: at <= k < at + |plan| ==> k !in failures)
    ensures var r := RunSteps(plan, at, failures);
      r.err.None? ==> r.committed == StepWrites(plan) && r.used == |plan|
    ensures var r := RunSteps(plan, at, failures);
      r.err.Some? ==> (1 <= r.used && r.committed == StepWrites(plan[..r.used - 1])
        && r.err == FailureAt(failures, at + r.used - 1)
        && forall k :: at <= k < at + r.used - 1 ==> k !in failures)
    decreases |plan|
  {
    if plan != [] {
      assert plan[0].Must?;
      if FailureAt(failures, at).None? {
        MustPlanOutcome(plan[1..], at + 1, failures);
        var rest := RunSteps(plan[1..], at + 1, failures);
        if rest.err.Some? {
          assert plan[..rest.used + 1 - 1] == [plan[0]] + plan[1..][..rest.used - 1];
        }
      }
    }
  }

  /** The counters of `store_rp_extraction_v4`'s result dict. */
  datatype Counter =
    | Baskets | RdpBaskets | Sources | Blockers | Exceptions
    | SweepTiers | DeMinimis | Reallocations | Pathways

  datatype Counts = Counts(
    baskets: nat, rdpBaskets: nat, sources: nat, blockers: nat, exceptions: nat,
    sweepTiers: nat, deMinimis: nat, reallocations: nat, pathways: nat)
  {
    function Get(c: Counter): nat
    {
      match c
      case Baskets => baskets
      case RdpBaskets => rdpBaskets
      case Sources => sources
      case Blockers => blockers
      case Exceptions => exceptions
      case SweepTiers => sweepTiers
      case DeMinimis => deMinimis
      case Reallocations => reallocations
      case Pathways => pathways
    }

    function Add(c: Counter, n: nat): (r: Counts)
      ensures r.Get(c) == Get(c) + n
      ensures forall d :: d != c ==> r.Get(d) == Get(d)
    {
      match c
      case Baskets => this.(baskets := baskets + n)
      case RdpBaskets => this.(rdpBaskets := rdpBaskets + n)
      case Sources => this.(sources := sources + n)
      case Blockers => this.(blockers := blockers + n)
      case Exceptions => this.(exceptions := exceptions + n)
      case SweepTiers => this.(sweepTiers := sweepTiers + n)
      case DeMinimis => this.(deMinimis := deMinimis + n)
      case Reallocations => this.(reallocations := reallocations + n)
      case Pathways => this.(pathways := pathways + n)
    }
  }

  const ZeroCounts := Counts(0, 0, 0, 0, 0, 0, 0, 0, 0)

  datatype Bump = Bump(counter: Counter, amount: nat)

  function ApplyBumps(counts: Counts, bumps: seq<Bump>): (r: Counts)
    ensures forall c :: r.Get(c) >= counts.Get(c)
    decreases |bumps|
  {
    if bumps == [] then counts else ApplyBumps(counts.Add(bumps[0].counter, bumps[0].amount), bumps[1..])
  }

  /** The dict `store_rp_extraction_v4` returns. */
  datatype StoreResults = StoreResults(provisionId: Option<string>, counts: Counts, errors: seq<string>)

  /**
   * One guarded `try` block of `store_rp_extraction_v4`: its error label, its
   * steps, and the counters it bumps when every step went through.
   */
  datatype Component = Component(title: string, plan: seq<Step>, bumps: seq<Bump>)

  /** Results, committed log and next write ordinal. */
  datatype StoreState = StoreState(res: StoreResults, log: seq<Write>, at: nat)

  /** The error text recorded for a component: its label, then at most 100 characters of the exception. */
  function ComponentError(title: string, message: string): string
  {
    title + ": " + Take(message, 100)
  }

  function RunComponent(st: StoreState, c: Component, failures: map<nat, string>): StoreState
  {
    var run := RunSteps(c.plan, st.at, failures);
    var res :=
      if run.err.None? then st.res.(counts := ApplyBumps(st.res.counts, c.bumps))
      else st.res.(errors := st.res.errors + [ComponentError(c.title, run.err.value)]);
    StoreState(res, st.log + run.committed, st.at + run.used)
  }

  function RunAll(st: StoreState, cs: seq<Component>, failures: map<nat, string>): StoreState
    decreases |cs|
  {
    if cs == [] then st else RunAll(RunComponent(st, cs[0], failures), cs[1..], failures)
  }

  /** A failing component adds exactly one error and leaves every counter as it was. */
  lemma ComponentFailureAccounting(st: StoreState, c: Component, failures: map<nat, string>)
    requires RunSteps(c.plan, st.at, failures).err.Some?
    ensures var after := RunComponent(st, c, failures);
      after.res.counts == st.res.counts && after.res.provisionId == st.res.provisionId &&
      after.res.errors == st.res.errors + [ComponentError(c.title, RunSteps(c.plan, st.at, failures).err.value)]
  {
  }

  /**
   * Every component runs whatever happened before it: running one more
   * component after a sequence is running it on the state the sequence left.
   */
  lemma {:induction false} RunAllSnoc(st: StoreState, cs: seq<Component>, c: Component, failures: map<nat, string>)
    ensures RunAll(st, cs + [c], failures) == RunComponent(RunAll(st, cs, failures), c, failures)
    decreases |cs|
  {
    if cs != [] {
      assert (cs + [c])[1..] == cs[1..] + [c];
      RunAllSnoc(RunComponent(st, cs[0], failures), cs[1..], c, failures);
    }
  }

  function TotalBumps(cs: seq<Component>, k: Counter): nat
  {
    if cs == [] then 0 else SumBumps(cs[0].bumps, k) + TotalBumps(cs[1..], k)
  }

  function SumBumps(bumps: seq<Bump>, k: Counter): nat
  {
    if bumps == [] then 0 else (if bumps[0].counter == k then bumps[0].amount else 0) + SumBumps(bumps[1..], k)
  }

  lemma {:induction false} ApplyBumpsGet(counts: Counts, bumps: seq<Bump>, k: Counter)
    ensures ApplyBumps(counts, bumps).Get(k) == counts.Get(k) + SumBumps(bumps, k)
    decreases |bumps|
  {
    if bumps != [] {
      ApplyBumpsGet(counts.Add(bumps[0].counter, bumps[0].amount), bumps[1..], k);
    }
  }

  /**
   * Over any sequence of components: the earlier errors are kept, at most one
   * error is added per component, the provision id is untouched, committed
   * writes are never lost, every counter ends between its start and its start
   * plus all bumps, and with no new error it ends at exactly that sum.
   */
  lemma {:induction false} RunAllAccounting(st: StoreState, cs: seq<Component>, failures: map<nat, string>, k: Counter)
    ensures var fin := RunAll(st, cs, failures);
      fin.res.provisionId == st.res.provisionId &&
      st.res.errors <= fin.res.errors && |fin.res.errors| <= |st.res.errors| + |cs| &&
      st.log <= fin.log && st.at <= fin.at &&
      st.res.counts.Get(k) <= fin.res.counts.Get(k) <= st.res.counts.Get(k) + TotalBumps(cs, k) &&
      (fin.res.errors == st.res.errors ==> fin.res.counts.Get(k) == st.res.counts.Get(k) + TotalBumps(cs, k))
    decreases |cs|
  {
    if cs != [] {
      var next := RunComponent(st, cs[0], failures);
      ApplyBumpsGet(st.res.counts, cs[0].bumps, k);
      RunAllAccounting(next, cs[1..], failures, k);
      var fin := RunAll(next, cs[1..], failures);
      if RunSteps(cs[0].plan, st.at, failures).err.Some? {
        assert |next.res.errors| == |st.res.errors| + 1;
        assert fin.res.errors != st.res.errors by {
          assert |fin.res.errors| >= |next.res.errors|;
        }
      }
    }
  }

  // ---------------------------------------------------------------------------
  // The record as the store reads it
  // ---------------------------------------------------------------------------

  /** A component record the store only gates on: present, with its `exists` flag. */
  datatype GatedBasket = GatedBasket(exists_: bool)

  /**
   * The extraction as `store_rp_extraction_v4` reads it: the validated record
   * plus the components it reads that `RPExtractionV4` does not declare
   * (holdco overhead and equity award baskets, the five RDP baskets, sweep
   * exemption IDs and investment pathways).
   */
  datatype StoreRecord = StoreRecord(
    base: RPExtractionV4,
    holdcoOverheadBasket: Option<GatedBasket>,
    equityAwardBasket: Option<GatedBasket>,
    refinancingRdpBasket: Option<GatedBasket>,
    generalRdpBasket: Option<GatedBasket>,
    ratioRdpBasket: Option<GatedBasket>,
    builderRdpBasket: Option<GatedBasket>,
    equityFundedRdpBasket: Option<GatedBasket>,
    sweepExemptions: seq<string>,
    investmentPathwayCount: nat)

  predicate Present(b: Option<GatedBasket>)
  {
    b.Some? && b.value.exists_
  }

  function IfThen(cond: bool, c: Component): seq<Component>
  {
    if cond then [c] else []
  }

  /** A basket written by one insert attached to the provision. */
  function BasketComponent(title: string, entityType: string, id: string, relation: string, pid: string, counter: Counter): Component
  {
    Component(title, [Must(Entity(entityType, id, relation, pid))], [Bump(counter, 1)])
  }

  function SourceSteps(basketId: string, sources: seq<BuilderSource>, from: nat): (steps: seq<Step>)
    ensures |steps| == |sources| && AllMust(steps)
    ensures forall i :: 0 <= i < |sources| ==>
      steps[i] == Must(Entity(SourceEntityType(SourceTypeName(sources[i].sourceType)), SourceId(basketId, from + i), "builder_has_source", basketId))
    decreases |sources|
  {
    if sources == [] then []
    else
      var first := Must(Entity(SourceEntityType(SourceTypeName(sources[0].sourceType)), SourceId(basketId, from), "builder_has_source", basketId));
      [first] + SourceSteps(basketId, sources[1..], from + 1)
  }

  function ExceptionSteps(blockerId: string, exceptions: seq<BlockerException>, from: nat): (steps: seq<Step>)
    ensures |steps| == |exceptions| && AllMust(steps)
    ensures forall i :: 0 <= i < |exceptions| ==>
      steps[i] == Must(Entity(ExceptionEntityType(ExceptionTypeName(exceptions[i].exceptionType)), ExceptionId(blockerId, from + i), "blocker_has_exception", blockerId))
    decreases |exceptions|
  {
    if exceptions == [] then []
    else
      var first := Must(Entity(ExceptionEntityType(ExceptionTypeName(exceptions[0].exceptionType)), ExceptionId(blockerId, from), "blocker_has_exception", blockerId));
      [first] + ExceptionSteps(blockerId, exceptions[1..], from + 1)
  }

  function IpLinkSteps(blockerId: string, ipTypes: seq<IpType>): (steps: seq<Step>)
    ensures |steps| == |ipTypes|
    ensures forall i :: 0 <= i < |ipTypes| ==> steps[i] == Tolerant(LinkIpType(blockerId, IpTypeName(ipTypes[i])))
  {
    if ipTypes == [] then [] else [Tolerant(LinkIpType(blockerId, IpTypeName(ipTypes[0])))] + IpLinkSteps(blockerId, ipTypes[1..])
  }

  /** `_store_builder_basket_v4`: the basket, then one source per element. */
  function BuilderComponent(pid: string, b: BuilderBasket): Component
  {
    var basketId := "builder_" + pid;
    Component("Builder basket",
      [Must(Entity("builder_basket", basketId, "provision_has_basket", pid))] + SourceSteps(basketId, b.sources, 0),
      [Bump(Baskets, 1), Bump(Sources, |b.sources|)])
  }

  /** `_store_jcrew_blocker_v4`: the blocker, its exceptions, then best-effort IP-type links. */
  function JCrewComponent(pid: string, b: JCrewBlocker): Component
  {
    var blockerId := "jcrew_" + pid;
    Component("J.Crew blocker",
      [Must(Entity("jcrew_blocker", blockerId, "provision_has_blocker", pid))]
        + ExceptionSteps(blockerId, b.exceptions, 0) + IpLinkSteps(blockerId, b.coveredIpTypes),
      [Bump(Blockers, 1), Bump(Exceptions, |b.exceptions|)])
  }

  /**
   * `_store_reallocation_v4` basket map, read with `.get`: an unmapped name
   * makes the helper return without writing (and the caller still counts it).
   */
  function ReallocationBasketId(pid: string, name: string): Option<string>
  {
    var basketMap := map[
      "investment" := "investment_" + pid,
      "rdp" := "rdp_" + pid,
      "builder" := "builder_" + pid,
      "general_rp" := "general_rp_" + pid,
      "prepayment" := "prepayment_" + pid,
      "intercompany" := "intercompany_" + pid];
    if name in basketMap then Some(basketMap[name]) else None
  }

  function ReallocationSteps(pid: string, sourceName: string, targetName: string): (steps: seq<Step>)
    ensures |steps| <= 1 && AllMust(steps)
  {
    var src := ReallocationBasketId(pid, sourceName);
    var tgt := ReallocationBasketId(pid, targetName);
    if src.None? || tgt.None? then [] else [Must(Reallocate(src.value, tgt.value))]
  }

  /** Every validated reallocation names mapped baskets, so the silent return never happens for it. */
  lemma ValidatedReallocationWrites(pid: string, r: BasketReallocation)
    ensures ReallocationSteps(pid, ReallocSourceName(r.sourceBasket), ReallocTargetName(r.targetBasket))
      == [Must(Reallocate(ReallocSourceName(r.sourceBasket) + "_" + pid, ReallocTargetName(r.targetBasket) + "_" + pid))]
  {
    ValidatedNamesMapped(pid, r);
  }

  function SweepTierComponents(pid: string, tiers: seq<SweepTier>): (cs: seq<Component>)
    ensures |cs| == |tiers|
    ensures forall i :: 0 <= i < |tiers| ==> cs[i] == Component("Sweep tier",
      [Must(Entity("sweep_tier", "sweep_" + pid + "_" + FloatToString(tiers[i].leverageThreshold), "provision_has_sweep_tier", pid))],
      [Bump(SweepTiers, 1)])
  {
    if tiers == [] then []
    else [Component("Sweep tier",
      [Must(Entity("sweep_tier", "sweep_" + pid + "_" + FloatToString(tiers[0].leverageThreshold), "provision_has_sweep_tier", pid))],
      [Bump(SweepTiers, 1)])] + SweepTierComponents(pid, tiers[1..])
  }

  function DeMinimisComponents(pid: string, ts: seq<DeMinimisThreshold>): (cs: seq<Component>)
    ensures |cs| == |ts|
    ensures forall i :: 0 <= i < |ts| ==> cs[i] == Component("De minimis",
      [Must(Entity("de_minimis_threshold", "deminimis_" + pid + "_" + ThresholdTypeName(ts[i].thresholdType), "provision_has_de_minimis", pid))],
      [Bump(DeMinimis, 1)])
  {
    if ts == [] then []
    else [Component("De minimis",
      [Must(Entity("de_minimis_threshold", "deminimis_" + pid + "_" + ThresholdTypeName(ts[0].thresholdType), "provision_has_de_minimis", pid))],
      [Bump(DeMinimis, 1)])] + DeMinimisComponents(pid, ts[1..])
  }

  function ExemptionComponents(pid: string, ids: seq<string>): (cs: seq<Component>)
    ensures |cs| == |ids|
    ensures forall i :: 0 <= i < |ids| ==>
      cs[i] == Component("Sweep exemption '" + ids[i] + "'", [Must(LinkExemption(pid, ids[i]))], [])
  {
    if ids == [] then []
    else
      var first := Component("Sweep exemption '" + ids[0] + "'", [Must(LinkExemption(pid, ids[0]))], []);
      [first] + ExemptionComponents(pid, ids[1..])
  }

  function ReallocationComponents(pid: string, rs: seq<BasketReallocation>): (cs: seq<Component>)
    ensures |cs| == |rs|
    ensures forall i :: 0 <= i < |rs| ==> cs[i] == Component("Reallocation",
      ReallocationSteps(pid, ReallocSourceName(rs[i].sourceBasket), ReallocTargetName(rs[i].targetBasket)),
      [Bump(Reallocations, 1)])
  {
    if rs == [] then []
    else [Component("Reallocation",
      ReallocationSteps(pid, ReallocSourceName(rs[0].sourceBasket), ReallocTargetName(rs[0].targetBasket)),
      [Bump(Reallocations, 1)])] + ReallocationComponents(pid, rs[1..])
  }

  function PathwayComponents(pid: string, from: nat, count: nat): (cs: seq<Component>)
    ensures |cs| == count
    ensures forall i :: 0 <= i < count ==> cs[i] == Component("Investment pathway",
      [Must(Entity("investment_pathway", PathwayId(pid, from + i), "provision_has_pathway", pid))],
      [Bump(Pathways, 1)])
    decreases count
  {
    if count == 0 then []
    else [Component("Investment pathway",
      [Must(Entity("investment_pathway", PathwayId(pid, from), "provision_has_pathway", pid))],
      [Bump(Pathways, 1)])] + PathwayComponents(pid, from + 1, count - 1)
  }

  /** The blocks `store_rp_extraction_v4` guards with a condition, in source order, each under its label. */
  const GuardedTitles: seq<string> := [
    "Builder basket", "Ratio basket", "General RP basket", "Management basket", "Tax basket",
    "Holdco overhead basket", "Equity award basket",
    "Refinancing RDP basket", "General RDP basket", "Ratio RDP basket", "Builder RDP basket", "Equity-funded RDP basket",
    "J.Crew blocker", "Unsub designation"]

  /**
   * The guard of block `i`: a basket or blocker present with `exists` set,
   * or the unsubsidiary designation present and `permitted`.
   */
  function Guard(r: StoreRecord, i: nat): bool
    requires i < |GuardedTitles|
  {
    var e := r.base;
    [e.builderBasket.Some? && e.builderBasket.value.exists_,
     e.ratioBasket.Some? && e.ratioBasket.value.exists_,
     e.generalRpBasket.Some? && e.generalRpBasket.value.exists_,
     e.managementEquityBasket.Some? && e.managementEquityBasket.value.exists_,
     e.taxDistributionBasket.Some? && e.taxDistributionBasket.value.exists_,
     Present(r.holdcoOverheadBasket), Present(r.equityAwardBasket),
     Present(r.refinancingRdpBasket), Present(r.generalRdpBasket), Present(r.ratioRdpBasket),
     Present(r.builderRdpBasket), Present(r.equityFundedRdpBasket),
     e.jcrewBlocker.Some? && e.jcrewBlocker.value.exists_,
     e.unsubDesignation.Some? && e.unsubDesignation.value.permitted][i]
  }

  /** Guarded block `i` for provision `pid`, when its guard holds. */
  function GuardedBlock(pid: string, r: StoreRecord, i: nat): (c: Component)
    requires i < |GuardedTitles| && Guard(r, i)
    ensures c.title == GuardedTitles[i]
  {
    var e := r.base;
    if i == 0 then BuilderComponent(pid, e.builderBasket.value)
    else if i == 1 then BasketComponent("Ratio basket", "ratio_basket", "ratio_" + pid, "provision_has_basket", pid, Baskets)
    else if i == 2 then BasketComponent("General RP basket", "general_rp_basket", "general_rp_" + pid, "provision_has_basket", pid, Baskets)
    else if i == 3 then BasketComponent("Management basket", "management_equity_basket", "mgmt_" + pid, "provision_has_basket", pid, Baskets)
    else if i == 4 then BasketComponent("Tax basket", "tax_distribution_basket", "tax_" + pid, "provision_has_basket", pid, Baskets)
    else if i == 5 then BasketComponent("Holdco overhead basket", "holdco_overhead_basket", "holdco_" + pid, "provision_has_basket", pid, Baskets)
    else if i == 6 then BasketComponent("Equity award basket", "equity_award_basket", "eqaward_" + pid, "provision_has_basket", pid, Baskets)
    else if i == 7 then BasketComponent("Refinancing RDP basket", "refinancing_rdp_basket", "rdp_refi_" + pid, "provision_has_rdp_basket", pid, RdpBaskets)
    else if i == 8 then BasketComponent("General RDP basket", "general_rdp_basket", "rdp_general_" + pid, "provision_has_rdp_basket", pid, RdpBaskets)
    else if i == 9 then BasketComponent("Ratio RDP basket", "ratio_rdp_basket", "rdp_ratio_" + pid, "provision_has_rdp_basket", pid, RdpBaskets)
    else if i == 10 then BasketComponent("Builder RDP basket", "builder_rdp_basket", "rdp_builder_" + pid, "provision_has_rdp_basket", pid, RdpBaskets)
    else if i == 11 then BasketComponent("Equity-funded RDP basket", "equity_funded_rdp_basket", "rdp_eqfund_" + pid, "provision_has_rdp_basket", pid, RdpBaskets)
    else if i == 12 then JCrewComponent(pid, e.jcrewBlocker.value)
    else Component("Unsub designation", [Must(Entity("unsub_designation", "unsub_" + pid, "provision_has_unsub_designation", pid))], [])
  }

  /** The guarded blocks from block `k` on, each only when its guard holds. */
  function GuardedFrom(pid: string, r: StoreRecord, k: nat): seq<Component>
    requires k <= |GuardedTitles|
    decreases |GuardedTitles| - k
  {
    if k == |GuardedTitles| then []
    else (if Guard(r, k) then [GuardedBlock(pid, r, k)] else []) + GuardedFrom(pid, r, k + 1)
  }

  /** The list-valued sections: one component per element. */
  function ListParts(pid: string, r: StoreRecord): seq<Component>
  {
    SweepTierComponents(pid, r.base.sweepTiers)
    + DeMinimisComponents(pid, r.base.deMinimisThresholds)
    + ExemptionComponents(pid, r.sweepExemptions)
    + ReallocationComponents(pid, r.base.reallocations)
    + PathwayComponents(pid, 0, r.investmentPathwayCount)
  }

  /** The guarded blocks of `store_rp_extraction_v4`, in source order, for provision `pid`. */
  function Components(pid: string, r: StoreRecord): seq<Component>
  {
    GuardedFrom(pid, r, 0) + ListParts(pid, r)
  }

  // ---------------------------------------------------------------------------
  // Plans: how partial failure leaves the log
  // ---------------------------------------------------------------------------

  function Then(first: PlanRun, rest: PlanRun): PlanRun
  {
    PlanRun(first.committed + rest.committed, first.used + rest.used, rest.err)
  }

  /** Once a prefix of a plan fails, nothing after it runs. */
  lemma {:induction false} FailedPrefixStops(a: seq<Step>, b: seq<Step>, at: nat, failures: map<nat, string>)
    requires RunSteps(a, at, failures).err.Some?
    ensures RunSteps(a + b, at, failures) == RunSteps(a, at, failures)
    decreases |a|
  {
    assert (a + b)[0] == a[0];
    if !a[0].Raise? && !(a[0].Must? && FailureAt(failures, at).Some?) {
      assert (a + b)[1..] == a[1..] + b;
      FailedPrefixStops(a[1..], b, at + 1, failures);
    }
  }

  /** One step of a plan that does not stop the plan. */
  lemma RunStepsUnfold(plan: seq<Step>, at: nat, failures: map<nat, string>)
    requires plan != [] && !plan[0].Raise?
    requires plan[0].Must? ==> FailureAt(failures, at).None?
    ensures var rest := RunSteps(plan[1..], at + 1, failures);
      var head := if FailureAt(failures, at).Some? then [] else [plan[0].w];
      RunSteps(plan, at, failures) == PlanRun(head + rest.committed, rest.used + 1, rest.err)
  {
  }

  /** Best-effort steps after a plan that succeeds never make it fail. */
  lemma {:induction false} TolerantTailKeepsSuccess(a: seq<Step>, b: seq<Step>, at: nat, failures: map<nat, string>)
    requires RunSteps(a, at, failures).err.None?
    requires forall i :: 0 <= i < |b| ==> b[i].Tolerant?
    ensures RunSteps(a + b, at, failures).err.None?
    decreases |a| + |b|
  {
    if a == [] {
      assert a + b == b;
      if b != [] {
        TolerantTailKeepsSuccess([], b[1..], at + 1, failures);
        assert [] + b[1..] == b[1..];
      }
    } else {
      var ab := a + b;
      assert ab[0] == a[0] && ab[1..] == a[1..] + b;
      TolerantTailKeepsSuccess(a[1..], b, at + 1, failures);
    }
  }

  /**
   * Builder basket: when one of its writes fails part-way, the basket and the
   * sources written before the failing one stay committed, and neither the
   * basket nor the source counter moves.
   */
  lemma BuilderPartialFailure(st: StoreState, pid: string, b: BuilderBasket, failures: map<nat, string>)
    requires RunSteps(BuilderComponent(pid, b).plan, st.at, failures).err.Some?
    ensures var plan := BuilderComponent(pid, b).plan;
      var run := RunSteps(plan, st.at, failures);
      var after := RunComponent(st, BuilderComponent(pid, b), failures);
      1 <= run.used <= |plan| &&
      after.log == st.log + StepWrites(plan[..run.used - 1]) &&
      after.res.counts == st.res.counts &&
      |after.res.errors| == |st.res.errors| + 1
  {
    var plan := BuilderComponent(pid, b).plan;
    assert AllMust(plan) by {
      var basketId := "builder_" + pid;
      assert plan == [Must(Entity("builder_basket", basketId, "provision_has_basket", pid))] + SourceSteps(basketId, b.sources, 0);
    }
    MustPlanOutcome(plan, st.at, failures);
  }

  /**
   * J.Crew blocker: the same holds for the blocker and its exceptions; the
   * IP-type links after them are best effort and never fail the component.
   */
  lemma JCrewPartialFailure(st: StoreState, pid: string, b: JCrewBlocker, failures: map<nat, string>)
    requires RunSteps(JCrewComponent(pid, b).plan, st.at, failures).err.Some?
    ensures var blockerId := "jcrew_" + pid;
      var head := [Must(Entity("jcrew_blocker", blockerId, "provision_has_blocker", pid))] + ExceptionSteps(blockerId, b.exceptions, 0);
      var run := RunSteps(head, st.at, failures);
      var after := RunComponent(st, JCrewComponent(pid, b), failures);
      1 <= run.used <= |head| &&
      after.log == st.log + StepWrites(head[..run.used - 1]) &&
      after.res.counts == st.res.counts &&
      |after.res.errors| == |st.res.errors| + 1
  {
    var blockerId := "jcrew_" + pid;
    var head := [Must(Entity("jcrew_blocker", blockerId, "provision_has_blocker", pid))] + ExceptionSteps(blockerId, b.exceptions, 0);
    var tail := IpLinkSteps(blockerId, b.coveredIpTypes);
    assert JCrewComponent(pid, b).plan == head + tail;
    assert AllMust(head);
    if RunSteps(head, st.at, failures).err.None? {
      TolerantTailKeepsSuccess(head, tail, st.at, failures);
      assert false;
    }
    FailedPrefixStops(head, tail, st.at, failures);
    MustPlanOutcome(head, st.at, failures);
  }

  // ---------------------------------------------------------------------------
  // Which components run, and how they attach
  // ---------------------------------------------------------------------------

  /** A basket subtype is attached through its own hierarchy's relation, and only it. */
  predicate WellAttached(w: Write)
  {
    w.Entity? ==>
      (w.entityType in RpBasketTypes <==> w.relation == "provision_has_basket") &&
      (w.entityType in RdpBasketTypes <==> w.relation == "provision_has_rdp_basket")
  }

  predicate AllAttached(cs: seq<Component>)
  {
    forall i, j :: 0 <= i < |cs| && 0 <= j < |cs[i].plan| && !cs[i].plan[j].Raise? ==> WellAttached(cs[i].plan[j].w)
  }

  lemma AttachedConcat(a: seq<Component>, b: seq<Component>)
    requires AllAttached(a) && AllAttached(b)
    ensures AllAttached(a + b)
  {
    forall i, j | 0 <= i < |a + b| && 0 <= j < |(a + b)[i].plan| && !(a + b)[i].plan[j].Raise?
      ensures WellAttached((a + b)[i].plan[j].w)
    {
      if i >= |a| {
        assert (a + b)[i] == b[i - |a|];
      }
    }
  }

  /** Every basket subtype name ends in `t` (of `basket`). */
  lemma NotBasketName(name: string)
    requires |name| > 0 && name[|name| - 1] != 't'
    ensures name !in RpBasketTypes + RdpBasketTypes
  {
  }

  lemma SourceTypesAreNotBaskets(t: SourceType)
    ensures SourceEntityType(SourceTypeName(t)) !in RpBasketTypes + RdpBasketTypes
  {
    var x := SourceTypeName(t);
    var e := SourceEntityType(x);
    if e != "builder_source" {
      assert e == x + "_source" && e[|e| - 1] == (x + "_source")[|x| + 6];
    }
    NotBasketName(e);
  }

  lemma ExceptionTypesAreNotBaskets(t: ExceptionType)
    ensures ExceptionEntityType(ExceptionTypeName(t)) !in RpBasketTypes + RdpBasketTypes
  {
    var x := ExceptionTypeName(t);
    var e := ExceptionEntityType(x);
    if e != "blocker_exception" {
      assert e == x + "_exception" && e[|e| - 1] == (x + "_exception")[|x| + 9];
    }
    NotBasketName(e);
  }

  /** Every write of `plan` that runs is attached as its type demands. */
  predicate PlanAttached(plan: seq<Step>)
  {
    forall j :: 0 <= j < |plan| && !plan[j].Raise? ==> WellAttached(plan[j].w)
  }

  lemma PlanAttachedConcat(a: seq<Step>, b: seq<Step>)
    requires PlanAttached(a) && PlanAttached(b)
    ensures PlanAttached(a + b)
  {
    forall j | 0 <= j < |a + b| && !(a + b)[j].Raise? ensures WellAttached((a + b)[j].w) {
      if j >= |a| {
        assert (a + b)[j] == b[j - |a|];
      }
    }
  }

  lemma SingleAttached(c: Component)
    requires PlanAttached(c.plan)
    ensures AllAttached([c])
  {
  }

  lemma BuilderAttached(pid: string, b: BuilderBasket)
    ensures AllAttached([BuilderComponent(pid, b)])
  {
    var basketId := "builder_" + pid;
    var sources := SourceSteps(basketId, b.sources, 0);
    forall j | 0 <= j < |sources| ensures WellAttached(sources[j].w) {
      SourceTypesAreNotBaskets(b.sources[j].sourceType);
    }
    PlanAttachedConcat([Must(Entity("builder_basket", basketId, "provision_has_basket", pid))], sources);
    SingleAttached(BuilderComponent(pid, b));
  }

  lemma JCrewAttached(pid: string, b: JCrewBlocker)
    ensures AllAttached([JCrewComponent(pid, b)])
  {
    var blockerId := "jcrew_" + pid;
    var head := [Must(Entity("jcrew_blocker", blockerId, "provision_has_blocker", pid))];
    var exceptions := ExceptionSteps(blockerId, b.exceptions, 0);
    var links := IpLinkSteps(blockerId, b.coveredIpTypes);
    forall j | 0 <= j < |exceptions| ensures WellAttached(exceptions[j].w) {
      ExceptionTypesAreNotBaskets(b.exceptions[j].exceptionType);
    }
    assert "jcrew_blocker" !in RpBasketTypes + RdpBasketTypes;
    PlanAttachedConcat(head, exceptions);
    PlanAttachedConcat(head + exceptions, links);
    SingleAttached(JCrewComponent(pid, b));
  }

  lemma BlockAttached(pid: string, r: StoreRecord, i: nat)
    requires i < |GuardedTitles| && Guard(r, i)
    ensures AllAttached([GuardedBlock(pid, r, i)])
  {
    if i == 0 {
      BuilderAttached(pid, r.base.builderBasket.value);
    } else if i == 1 {
      BasketAttached("Ratio basket", "ratio_basket", "ratio_" + pid, "provision_has_basket", pid, Baskets);
    } else if i == 2 {
      BasketAttached("General RP basket", "general_rp_basket", "general_rp_" + pid, "provision_has_basket", pid, Baskets);
    } else if i == 3 {
      BasketAttached("Management basket", "management_equity_basket", "mgmt_" + pid, "provision_has_basket", pid, Baskets);
    } else if i == 4 {
      BasketAttached("Tax basket", "tax_distribution_basket", "tax_" + pid, "provision_has_basket", pid, Baskets);
    } else if i == 5 {
      BasketAttached("Holdco overhead basket", "holdco_overhead_basket", "holdco_" + pid, "provision_has_basket", pid, Baskets);
    } else if i == 6 {
      BasketAttached("Equity award basket", "equity_award_basket", "eqaward_" + pid, "provision_has_basket", pid, Baskets);
    } else if i == 7 {
      BasketAttached("Refinancing RDP basket", "refinancing_rdp_basket", "rdp_refi_" + pid, "provision_has_rdp_basket", pid, RdpBaskets);
    } else if i == 8 {
      BasketAttached("General RDP basket", "general_rdp_basket", "rdp_general_" + pid, "provision_has_rdp_basket", pid, RdpBaskets);
    } else if i == 9 {
      BasketAttached("Ratio RDP basket", "ratio_rdp_basket", "rdp_ratio_" + pid, "provision_has_rdp_basket", pid, RdpBaskets);
    } else if i == 10 {
      BasketAttached("Builder RDP basket", "builder_rdp_basket", "rdp_builder_" + pid, "provision_has_rdp_basket", pid, RdpBaskets);
    } else if i == 11 {
      BasketAttached("Equity-funded RDP basket", "equity_funded_rdp_basket", "rdp_eqfund_" + pid, "provision_has_rdp_basket", pid, RdpBaskets);
    } else if i == 12 {
      JCrewAttached(pid, r.base.jcrewBlocker.value);
    }
  }

  lemma BasketAttached(title: string, entityType: string, id: string, relation: string, pid: string, counter: Counter)
    requires (entityType in RpBasketTypes && relation == "provision_has_basket")
      || (entityType in RdpBasketTypes && relation == "provision_has_rdp_basket")
    ensures AllAttached([BasketComponent(title, entityType, id, relation, pid, counter)])
  {
    assert RpBasketTypes !! RdpBasketTypes;
    SingleAttached(BasketComponent(title, entityType, id, relation, pid, counter));
  }

  lemma {:induction false} GuardedAttached(pid: string, r: StoreRecord, k: nat)
    requires k <= |GuardedTitles|
    ensures AllAttached(GuardedFrom(pid, r, k))
    decreases |GuardedTitles| - k
  {
    if k < |GuardedTitles| {
      GuardedAttached(pid, r, k + 1);
      var head := if Guard(r, k) then [GuardedBlock(pid, r, k)] else [];
      if Guard(r, k) {
        BlockAttached(pid, r, k);
      }
      AttachedConcat(head, GuardedFrom(pid, r, k + 1));
    }
  }

  lemma SweepsAttached(pid: string, tiers: seq<SweepTier>)
    ensures AllAttached(SweepTierComponents(pid, tiers))
  {
    var cs := SweepTierComponents(pid, tiers);
    assert "sweep_tier" !in RpBasketTypes + RdpBasketTypes;
    forall i, j | 0 <= i < |cs| && 0 <= j < |cs[i].plan| && !cs[i].plan[j].Raise? ensures WellAttached(cs[i].plan[j].w) {
      assert cs[i].plan[j].w.entityType == "sweep_tier";
      assert cs[i].plan[j].w.relation == "provision_has_sweep_tier";
    }
  }

  lemma DeMinimisAttached(pid: string, ts: seq<DeMinimisThreshold>)
    ensures AllAttached(DeMinimisComponents(pid, ts))
  {
  }

  lemma ReallocationsAttached(pid: string, rs: seq<BasketReallocation>)
    ensures AllAttached(ReallocationComponents(pid, rs))
  {
    var cs := ReallocationComponents(pid, rs);
    forall i, j | 0 <= i < |cs| && 0 <= j < |cs[i].plan| && !cs[i].plan[j].Raise? ensures WellAttached(cs[i].plan[j].w) {
      var steps := ReallocationSteps(pid, ReallocSourceName(rs[i].sourceBasket), ReallocTargetName(rs[i].targetBasket));
      assert cs[i].plan == steps;
    }
  }

  lemma ExemptionsAttached(pid: string, ids: seq<string>)
    ensures AllAttached(ExemptionComponents(pid, ids))
  {
    var cs := ExemptionComponents(pid, ids);
    forall i, j | 0 <= i < |cs| && 0 <= j < |cs[i].plan| && !cs[i].plan[j].Raise? ensures WellAttached(cs[i].plan[j].w) {
      assert cs[i].plan[j].w.LinkExemption?;
    }
  }

  lemma PathwaysAttached(pid: string, count: nat)
    ensures AllAttached(PathwayComponents(pid, 0, count))
  {
    var cs := PathwayComponents(pid, 0, count);
    assert "investment_pathway" !in RpBasketTypes + RdpBasketTypes;
    forall i, j | 0 <= i < |cs| && 0 <= j < |cs[i].plan| && !cs[i].plan[j].Raise? ensures WellAttached(cs[i].plan[j].w) {
      assert cs[i].plan[j].w.entityType == "investment_pathway";
      assert cs[i].plan[j].w.relation == "provision_has_pathway";
    }
  }

  lemma ListAttached(pid: string, r: StoreRecord)
    ensures AllAttached(ListParts(pid, r))
  {
    var e := r.base;
    var s1, s2, s3 := SweepTierComponents(pid, e.sweepTiers), DeMinimisComponents(pid, e.deMinimisThresholds), ExemptionComponents(pid, r.sweepExemptions);
    var s4, s5 := ReallocationComponents(pid, e.reallocations), PathwayComponents(pid, 0, r.investmentPathwayCount);
    SweepsAttached(pid, e.sweepTiers);
    DeMinimisAttached(pid, e.deMinimisThresholds);
    ExemptionsAttached(pid, r.sweepExemptions);
    ReallocationsAttached(pid, e.reallocations);
    PathwaysAttached(pid, r.investmentPathwayCount);
    AttachedConcat(s1, s2);
    AttachedConcat(s1 + s2, s3);
    AttachedConcat(s1 + s2 + s3, s4);
    AttachedConcat(s1 + s2 + s3 + s4, s5);
  }

  /**
   * Relation choice never crosses hierarchies: across everything the store
   * writes, the seven RP basket subtypes attach only via
   * `provision_has_basket` and the five RDP subtypes only via
   * `provision_has_rdp_basket`.
   */
  lemma RelationsNeverCross(pid: string, r: StoreRecord)
    ensures AllAttached(Components(pid, r))
  {
    GuardedAttached(pid, r, 0);
    ListAttached(pid, r);
    AttachedConcat(GuardedFrom(pid, r, 0), ListParts(pid, r));
  }

  // ---------------------------------------------------------------------------
  // Gating: which components are attempted
  // ---------------------------------------------------------------------------

  function Titles(cs: seq<Component>): (ts: seq<string>)
    ensures |ts| == |cs| && forall i :: 0 <= i < |cs| ==> ts[i] == cs[i].title
  {
    seq(|cs|, i requires 0 <= i < |cs| => cs[i].title)
  }

  lemma TitlesConcat(a: seq<Component>, b: seq<Component>)
    ensures Titles(a + b) == Titles(a) + Titles(b)
  {
  }

  /** How many components of `cs` carry title `t`. */
  function Attempts(cs: seq<Component>, t: string): nat
  {
    multiset(Titles(cs))[t]
  }

  lemma AttemptsConcat(a: seq<Component>, b: seq<Component>, t: string)
    ensures Attempts(a + b, t) == Attempts(a, t) + Attempts(b, t)
  {
    TitlesConcat(a, b);
  }

  /** Every component of `cs` has title `t`. */
  lemma {:induction false} UniformAttempts(cs: seq<Component>, t: string, u: string)
    requires forall i :: 0 <= i < |cs| ==> cs[i].title == t
    ensures Attempts(cs, t) == |cs|
    ensures u != t ==> Attempts(cs, u) == 0
    decreases |cs|
  {
    if cs != [] {
      UniformAttempts(cs[1..], t, u);
      assert cs == [cs[0]] + cs[1..];
      AttemptsConcat([cs[0]], cs[1..], t);
      AttemptsConcat([cs[0]], cs[1..], u);
    }
  }

  /** Exemption components carry titles of their own, shared with no other block. */
  lemma {:induction false} ExemptionAttempts(pid: string, ids: seq<string>, u: string)
    requires !StartsWith(u, "Sweep exemption '")
    ensures Attempts(ExemptionComponents(pid, ids), u) == 0
    decreases |ids|
  {
    if ids != [] {
      var cs := ExemptionComponents(pid, ids);
      ExemptionAttempts(pid, ids[1..], u);
      assert cs == [cs[0]] + ExemptionComponents(pid, ids[1..]);
      assert StartsWith(cs[0].title, "Sweep exemption '") by {
        assert cs[0].title == "Sweep exemption '" + (ids[0] + "'");
      }
      AttemptsConcat([cs[0]], ExemptionComponents(pid, ids[1..]), u);
    }
  }

  /** No two guarded blocks share a label, and no label is one the list-valued sections use. */
  lemma GuardedTitlesDistinct(i: nat)
    requires i < |GuardedTitles|
    ensures forall j :: 0 <= j < |GuardedTitles| && j != i ==> GuardedTitles[j] != GuardedTitles[i]
    ensures !StartsWith(GuardedTitles[i], "Sweep exemption '")
    ensures GuardedTitles[i] !in {"Sweep tier", "De minimis", "Reallocation", "Investment pathway"}
  {
    assert GuardedTitles[i][0] != 'S';
  }

  lemma {:induction false} UnguardedAttempts(pid: string, r: StoreRecord, k: nat, t: string)
    requires k <= |GuardedTitles| && t !in GuardedTitles
    ensures Attempts(GuardedFrom(pid, r, k), t) == 0
    decreases |GuardedTitles| - k
  {
    if k < |GuardedTitles| {
      UnguardedAttempts(pid, r, k + 1, t);
      var head := if Guard(r, k) then [GuardedBlock(pid, r, k)] else [];
      AttemptsConcat(head, GuardedFrom(pid, r, k + 1), t);
    }
  }

  lemma {:induction false} GuardedFromAttempts(pid: string, r: StoreRecord, k: nat, i: nat)
    requires k <= |GuardedTitles| && i < |GuardedTitles|
    ensures Attempts(GuardedFrom(pid, r, k), GuardedTitles[i]) == if k <= i && Guard(r, i) then 1 else 0
    decreases |GuardedTitles| - k
  {
    if k < |GuardedTitles| {
      GuardedFromAttempts(pid, r, k + 1, i);
      var head := if Guard(r, k) then [GuardedBlock(pid, r, k)] else [];
      HeadAttempts(pid, r, k, i);
      AttemptsConcat(head, GuardedFrom(pid, r, k + 1), GuardedTitles[i]);
    }
  }

  /** Guarded block `k`, when present, is attempted under its own label only. */
  lemma HeadAttempts(pid: string, r: StoreRecord, k: nat, i: nat)
    requires k < |GuardedTitles| && i < |GuardedTitles|
    ensures Attempts(if Guard(r, k) then [GuardedBlock(pid, r, k)] else [], GuardedTitles[i])
      == if k == i && Guard(r, i) then 1 else 0
  {
    GuardedTitlesDistinct(i);
    if Guard(r, k) {
      var c := GuardedBlock(pid, r, k);
      assert Titles([c]) == [GuardedTitles[k]];
    } else {
      assert Titles([]) == [];
    }
  }

  lemma ListAttemptsOfGuarded(pid: string, r: StoreRecord, i: nat)
    requires i < |GuardedTitles|
    ensures Attempts(ListParts(pid, r), GuardedTitles[i]) == 0
  {
    var t := GuardedTitles[i];
    GuardedTitlesDistinct(i);
    var e := r.base;
    var s1, s2, s3 := SweepTierComponents(pid, e.sweepTiers), DeMinimisComponents(pid, e.deMinimisThresholds), ExemptionComponents(pid, r.sweepExemptions);
    var s4, s5 := ReallocationComponents(pid, e.reallocations), PathwayComponents(pid, 0, r.investmentPathwayCount);
    UniformAttempts(s1, "Sweep tier", t);
    UniformAttempts(s2, "De minimis", t);
    ExemptionAttempts(pid, r.sweepExemptions, t);
    UniformAttempts(s4, "Reallocation", t);
    UniformAttempts(s5, "Investment pathway", t);
    AttemptsConcat(s1, s2, t);
    AttemptsConcat(s1 + s2, s3, t);
    AttemptsConcat(s1 + s2 + s3, s4, t);
    AttemptsConcat(s1 + s2 + s3 + s4, s5, t);
  }

  /**
   * Gating: each guarded block is attempted exactly once when its guard
   * holds (a basket or blocker present with `exists` set, the unsubsidiary
   * designation `permitted`) and never otherwise.
   */
  lemma GuardedBlocksAttempted(pid: string, r: StoreRecord, i: nat)
    requires i < |GuardedTitles|
    ensures Attempts(Components(pid, r), GuardedTitles[i]) == if Guard(r, i) then 1 else 0
  {
    GuardedFromAttempts(pid, r, 0, i);
    ListAttemptsOfGuarded(pid, r, i);
    AttemptsConcat(GuardedFrom(pid, r, 0), ListParts(pid, r), GuardedTitles[i]);
  }

  /** Every element of the list-valued sections is attempted, once each. */
  lemma ListSectionsAttempted(pid: string, r: StoreRecord)
    ensures Attempts(Components(pid, r), "Sweep tier") == |r.base.sweepTiers|
    ensures Attempts(Components(pid, r), "De minimis") == |r.base.deMinimisThresholds|
    ensures Attempts(Components(pid, r), "Reallocation") == |r.base.reallocations|
    ensures Attempts(Components(pid, r), "Investment pathway") == r.investmentPathwayCount
  {
    ListSectionAttempted(pid, r, "Sweep tier");
    ListSectionAttempted(pid, r, "De minimis");
    ListSectionAttempted(pid, r, "Reallocation");
    ListSectionAttempted(pid, r, "Investment pathway");
  }

  lemma ListTitleFacts(t: string)
    requires t in {"Sweep tier", "De minimis", "Reallocation", "Investment pathway"}
    ensures t !in GuardedTitles && !StartsWith(t, "Sweep exemption '")
  {
    if t == "Investment pathway" {
      assert t[0] != 'S';
    } else {
      assert |t| < 17;
    }
  }

  lemma ListPartsAttempts(pid: string, r: StoreRecord, t: string)
    requires !StartsWith(t, "Sweep exemption '")
    ensures Attempts(ListParts(pid, r), t) ==
      (if t == "Sweep tier" then |r.base.sweepTiers| else 0)
      + (if t == "De minimis" then |r.base.deMinimisThresholds| else 0)
      + (if t == "Reallocation" then |r.base.reallocations| else 0)
      + (if t == "Investment pathway" then r.investmentPathwayCount else 0)
  {
    var e := r.base;
    var s1, s2, s3 := SweepTierComponents(pid, e.sweepTiers), DeMinimisComponents(pid, e.deMinimisThresholds), ExemptionComponents(pid, r.sweepExemptions);
    var s4, s5 := ReallocationComponents(pid, e.reallocations), PathwayComponents(pid, 0, r.investmentPathwayCount);
    UniformAttempts(s1, "Sweep tier", t);
    UniformAttempts(s2, "De minimis", t);
    ExemptionAttempts(pid, r.sweepExemptions, t);
    UniformAttempts(s4, "Reallocation", t);
    UniformAttempts(s5, "Investment pathway", t);
    AttemptsConcat(s1, s2, t);
    AttemptsConcat(s1 + s2, s3, t);
    AttemptsConcat(s1 + s2 + s3, s4, t);
    AttemptsConcat(s1 + s2 + s3 + s4, s5, t);
  }

  lemma ListSectionAttempted(pid: string, r: StoreRecord, t: string)
    requires t in {"Sweep tier", "De minimis", "Reallocation", "Investment pathway"}
    ensures Attempts(Components(pid, r), t) ==
      (if t == "Sweep tier" then |r.base.sweepTiers| else 0)
      + (if t == "De minimis" then |r.base.deMinimisThresholds| else 0)
      + (if t == "Reallocation" then |r.base.reallocations| else 0)
      + (if t == "Investment pathway" then r.investmentPathwayCount else 0)
  {
    ListTitleFacts(t);
    ListPartsAttempts(pid, r, t);
    UnguardedAttempts(pid, r, 0, t);
    AttemptsConcat(GuardedFrom(pid, r, 0), ListParts(pid, r), t);
  }

  // ---------------------------------------------------------------------------
  // store_rp_extraction_v4
  // ---------------------------------------------------------------------------

  /** `_gen_id("rp_prov")`, the random suffix supplied by the caller. */
  function ProvisionId(dealId: string, suffix: string): string
  {
    "rp_prov_" + dealId + "_" + suffix
  }

  /** `_create_rp_provision_v4`: the provision, attached to its deal. */
  function ProvisionWrite(pid: string, dealId: string): Write
  {
    Entity("rp_provision", pid, "deal_has_provision", dealId)
  }

  /** The error text of the top-level handler: at most 200 characters of the exception. */
  function TopLevelError(message: string): string
  {
    "Top-level error: " + Take(message, 200)
  }

  /**
   * The whole store: the provision insert, then every component in order.
   * A failing provision insert lands in the top-level handler, so nothing
   * else runs and `provision_id` stays None.
   */
  function StoreSpec(dealId: string, suffix: string, r: StoreRecord, log: seq<Write>, at: nat, failures: map<nat, string>): (st: StoreState)
    ensures log <= st.log && at < st.at
    ensures st.res.provisionId.Some? <==> at !in failures
  {
    var pid := ProvisionId(dealId, suffix);
    match FailureAt(failures, at)
    case Some(msg) => StoreState(StoreResults(None, ZeroCounts, [TopLevelError(msg)]), log, at + 1)
    case None =>
      RunAllAccounting(StoreState(StoreResults(Some(pid), ZeroCounts, []), log + [ProvisionWrite(pid, dealId)], at + 1),
        Components(pid, r), failures, Baskets);
      RunAll(StoreState(StoreResults(Some(pid), ZeroCounts, []), log + [ProvisionWrite(pid, dealId)], at + 1),
        Components(pid, r), failures)
  }

  /**
   * Counters start at zero and `provision_id` is set exactly when the
   * provision insert succeeds. Then every counter ends at most at the sum of
   * the bumps of all components, and exactly there when no error was recorded;
   * each component adds at most one error.
   */
  lemma StoreAccounting(dealId: string, suffix: string, r: StoreRecord, log: seq<Write>, at: nat, failures: map<nat, string>, k: Counter)
    ensures var fin := StoreSpec(dealId, suffix, r, log, at, failures);
      (fin.res.provisionId.Some? <==> at !in failures) &&
      (at in failures ==> fin.res.counts == ZeroCounts && fin.res.errors == [TopLevelError(failures[at])] && fin.log == log) &&
      (at !in failures ==>
        fin.res.provisionId == Some(ProvisionId(dealId, suffix)) &&
        log + [ProvisionWrite(ProvisionId(dealId, suffix), dealId)] <= fin.log &&
        |fin.res.errors| <= |Components(ProvisionId(dealId, suffix), r)| &&
        fin.res.counts.Get(k) <= TotalBumps(Components(ProvisionId(dealId, suffix), r), k) &&
        (fin.res.errors == [] ==> fin.res.counts.Get(k) == TotalBumps(Components(ProvisionId(dealId, suffix), r), k)))
  {
    if at !in failures {
      var pid := ProvisionId(dealId, suffix);
      RunAllAccounting(StoreState(StoreResults(Some(pid), ZeroCounts, []), log + [ProvisionWrite(pid, dealId)], at + 1),
        Components(pid, r), failures, k);
    }
  }

  /** A step that lets the plan go on moves its write (if committed) into the finished part. */
  lemma PlanContinues(done: PlanRun, plan: seq<Step>, i: nat, at: nat, failures: map<nat, string>)
    requires i < |plan| && !plan[i].Raise? && (plan[i].Must? ==> FailureAt(failures, at).None?)
    ensures var head := if FailureAt(failures, at).Some? then [] else [plan[i].w];
      Then(done, RunSteps(plan[i..], at, failures))
        == Then(PlanRun(done.committed + head, done.used + 1, None), RunSteps(plan[i + 1..], at + 1, failures))
  {
    assert plan[i..][0] == plan[i] && plan[i..][1..] == plan[i + 1..];
    RunStepsUnfold(plan[i..], at, failures);
    var head := if FailureAt(failures, at).Some? then [] else [plan[i].w];
    var rest := RunSteps(plan[i + 1..], at + 1, failures);
    assert done.committed + (head + rest.committed) == (done.committed + head) + rest.committed;
  }

  /** A step that stops the plan ends it with that step's error. */
  lemma PlanStops(done: PlanRun, plan: seq<Step>, i: nat, at: nat, failures: map<nat, string>)
    requires i < |plan| && (plan[i].Raise? || (plan[i].Must? && FailureAt(failures, at).Some?))
    ensures Then(done, RunSteps(plan[i..], at, failures))
      == if plan[i].Raise? then PlanRun(done.committed, done.used, Some(plan[i].message))
         else PlanRun(done.committed, done.used + 1, FailureAt(failures, at))
  {
    assert plan[i..][0] == plan[i];
    assert done.committed + [] == done.committed;
  }

  /** Running the components from `i` on is running component `i`, then the rest. */
  lemma RunAllStep(st: StoreState, cs: seq<Component>, i: nat, failures: map<nat, string>)
    requires i < |cs|
    ensures RunAll(st, cs[i..], failures) == RunAll(RunComponent(st, cs[i], failures), cs[i + 1..], failures)
  {
    assert cs[i..][0] == cs[i] && cs[i..][1..] == cs[i + 1..];
  }

  /** TypeDB as a log of committed writes; write number `n` fails with `failures[n]` when `n` is a key. */
  class Graph {
    var log: seq<Write>
    var attempts: nat
    const failures: map<nat, string>

    constructor (failures: map<nat, string>)
      ensures this.failures == failures && log == [] && attempts == 0
    {
      this.failures := failures;
      log := [];
      attempts := 0;
    }

    /** `_execute_query` for one write: it commits, or raises and leaves the log alone. */
    method Execute(w: Write) returns (err: Option<string>)
      modifies this
      ensures err == FailureAt(failures, old(attempts))
      ensures attempts == old(attempts) + 1
      ensures log == old(log) + (if err.None? then [w] else [])
    {
      err := FailureAt(failures, attempts);
      if err.None? {
        log := log + [w];
      }
      attempts := attempts + 1;
    }

    /** Runs one component's steps, stopping at the first error that is not tolerated. */
    method RunPlan(plan: seq<Step>) returns (err: Option<string>)
      modifies this
      ensures var run := RunSteps(plan, old(attempts), failures);
        err == run.err && log == old(log) + run.committed && attempts == old(attempts) + run.used
    {
      ghost var log0, at0 := log, attempts;
      ghost var done := PlanRun([], 0, None);
      assert Then(done, RunSteps(plan[0..], at0, failures)) == RunSteps(plan, at0, failures) by {
        assert plan[0..] == plan;
        assert [] + RunSteps(plan, at0, failures).committed == RunSteps(plan, at0, failures).committed;
      }
      var i := 0;
      while i < |plan|
        invariant 0 <= i <= |plan|
        invariant log == log0 + done.committed && attempts == at0 + done.used && done.err.None?
        invariant Then(done, RunSteps(plan[i..], attempts, failures)) == RunSteps(plan, at0, failures)
      {
        ghost var at := attempts;
        match plan[i] {
          case Raise(message) =>
            PlanStops(done, plan, i, at, failures);
            return Some(message);
          case Must(w) =>
            var e := Execute(w);
            if e.Some? {
              PlanStops(done, plan, i, at, failures);
              return e;
            }
            PlanContinues(done, plan, i, at, failures);
            done := PlanRun(done.committed + [w], done.used + 1, None);
          case Tolerant(w) =>
            var ignored := Execute(w);
            PlanContinues(done, plan, i, at, failures);
            done := PlanRun(done.committed + (if ignored.None? then [w] else []), done.used + 1, None);
        }
        i := i + 1;
      }
      assert plan[i..] == [];
      assert done.committed + [] == done.committed;
      return None;
    }

    /**
     * `store_rp_extraction_v4`: the provision insert, then each guarded block
     * and each element of the list-valued sections in source order; a block
     * that raises records one error and the store goes on with the next.
     */
    method StoreRpExtraction(dealId: string, suffix: string, r: StoreRecord) returns (res: StoreResults)
      modifies this
      ensures var fin := StoreSpec(dealId, suffix, r, old(log), old(attempts), failures);
        res == fin.res && log == fin.log && attempts == fin.at
    {
      res := StoreResults(None, ZeroCounts, []);
      var pid := ProvisionId(dealId, suffix);
      var e := Execute(ProvisionWrite(pid, dealId));
      if e.Some? {
        res := res.(errors := res.errors + [TopLevelError(e.value)]);
        return;
      }
      res := RunComponents(StoreResults(Some(pid), ZeroCounts, []), Components(pid, r));
    }

    /** Runs components in order: each either adds its bumps to the counters or records one error. */
    method RunComponents(start: StoreResults, cs: seq<Component>) returns (res: StoreResults)
      modifies this
      ensures var fin := RunAll(StoreState(start, old(log), old(attempts)), cs, failures);
        res == fin.res && log == fin.log && attempts == fin.at
    {
      res := start;
      ghost var spec := RunAll(StoreState(start, log, attempts), cs, failures);
      assert cs[0..] == cs;
      var i := 0;
      while i < |cs|
        invariant 0 <= i <= |cs|
        invariant RunAll(StoreState(res, log, attempts), cs[i..], failures) == spec
      {
        RunAllStep(StoreState(res, log, attempts), cs, i, failures);
        var c := cs[i];
        var err := RunPlan(c.plan);
        if err.None? {
          res := res.(counts := ApplyBumps(res.counts, c.bumps));
        } else {
          res := res.(errors := res.errors + [ComponentError(c.title, err.value)]);
        }
        i := i + 1;
      }
      assert cs[i..] == [];
    }

    /**
     * `store_scalar_answer`: one insert of a fresh `provision_has_answer`
     * relation (no existing answer is matched or replaced); a failing write
     * propagates to the caller.
     */
    method StoreScalarAnswer(provisionId: string, questionId: string, dealId: string, suffix: string, value: Value,
      sourceText: Option<string>, sourcePage: Option<int>, sourceSection: Option<string>, confidence: Option<string>)
      returns (r: Result<string>)
      modifies this
      ensures var w := Answer(provisionId, questionId,
          ScalarAnswerAttrs(AnswerId(dealId, suffix), value, sourceText, sourcePage, sourceSection, confidence));
        match FailureAt(failures, old(attempts))
        case None => r == Success(AnswerId(dealId, suffix)) && log == old(log) + [w]
        case Some(msg) => r == Failure(msg) && log == old(log)
      ensures attempts == old(attempts) + 1
    {
      var answerId := AnswerId(dealId, suffix);
      var attrs := ScalarAnswerAttrs(answerId, value, sourceText, sourcePage, sourceSection, confidence);
      var err := Execute(Answer(provisionId, questionId, attrs));
      if err.Some? {
        return Failure(err.value);
      }
      return Success(answerId);
    }
  }

  // ---------------------------------------------------------------------------
  // The store as written, on a validated RPExtractionV4
  // ---------------------------------------------------------------------------

  /**
   * The five blocks that run before the first undeclared extraction field,
   * as written: the builder, ratio, management and tax helpers each read a
   * field their record does not declare while building the insert, so they
   * raise before any write.
   */
  function AsWrittenDeclaredBlocks(pid: string, e: RPExtractionV4): seq<Component>
  {
    (if e.builderBasket.Some? && e.builderBasket.value.exists_
     then [Component("Builder basket", [Raise(NoAttribute("BuilderBasket", "default_condition"))],
             [Bump(Baskets, 1), Bump(Sources, |e.builderBasket.value.sources|)])]
     else [])
    + IfThen(e.ratioBasket.Some? && e.ratioBasket.value.exists_,
        Component("Ratio basket", [Raise(NoAttribute("RatioBasket", "test_date_type"))], [Bump(Baskets, 1)]))
    + IfThen(e.generalRpBasket.Some? && e.generalRpBasket.value.exists_,
        BasketComponent("General RP basket", "general_rp_basket", "general_rp_" + pid, "provision_has_basket", pid, Baskets))
    + IfThen(e.managementEquityBasket.Some? && e.managementEquityBasket.value.exists_,
        Component("Management basket", [Raise(NoAttribute("ManagementEquityBasket", "eligible_person_scope"))], [Bump(Baskets, 1)]))
    + IfThen(e.taxDistributionBasket.Some? && e.taxDistributionBasket.value.exists_,
        Component("Tax basket", [Raise(NoAttribute("TaxDistributionBasket", "hypothetical_tax_rate"))], [Bump(Baskets, 1)]))
  }

  /** The top-level error the read of `extraction.holdco_overhead_basket` produces. */
  const HoldcoReadError := TopLevelError(NoAttribute("RPExtractionV4", "holdco_overhead_basket"))

  /**
   * `store_rp_extraction_v4` as written, on the record `parse_claude_response`
   * validates: after the five declared-field blocks, reading the undeclared
   * `holdco_overhead_basket` raises into the top-level handler, so every later
   * block is skipped.
   */
  function StoreAsWritten(dealId: string, suffix: string, e: RPExtractionV4, log: seq<Write>, at: nat, failures: map<nat, string>): (st: StoreState)
    ensures st.res.errors != []
    ensures at !in failures ==> st.res.errors[|st.res.errors| - 1] == HoldcoReadError
  {
    var pid := ProvisionId(dealId, suffix);
    match FailureAt(failures, at)
    case Some(msg) => StoreState(StoreResults(None, ZeroCounts, [TopLevelError(msg)]), log, at + 1)
    case None =>
      var mid := RunAll(StoreState(StoreResults(Some(pid), ZeroCounts, []), log + [ProvisionWrite(pid, dealId)], at + 1),
        AsWrittenDeclaredBlocks(pid, e), failures);
      mid.(res := mid.res.(errors := mid.res.errors + [HoldcoReadError]))
  }

  predicate Raises(c: Component)
  {
    |c.plan| > 0 && c.plan[0].Raise?
  }

  /** The bumps of the components that do not raise at once. */
  function SafeBumps(cs: seq<Component>, k: Counter): nat
  {
    if cs == [] then 0 else (if Raises(cs[0]) then 0 else SumBumps(cs[0].bumps, k)) + SafeBumps(cs[1..], k)
  }

  lemma {:induction false} SafeBumpsConcat(a: seq<Component>, b: seq<Component>, k: Counter)
    ensures SafeBumps(a + b, k) == SafeBumps(a, k) + SafeBumps(b, k)
    decreases |a|
  {
    if a == [] {
      assert a + b == b;
    } else {
      assert (a + b)[0] == a[0] && (a + b)[1..] == a[1..] + b;
      SafeBumpsConcat(a[1..], b, k);
    }
  }

  /** A component that raises at once never moves a counter. */
  lemma {:induction false} RunAllSafeBound(st: StoreState, cs: seq<Component>, failures: map<nat, string>, k: Counter)
    ensures RunAll(st, cs, failures).res.counts.Get(k) <= st.res.counts.Get(k) + SafeBumps(cs, k)
    decreases |cs|
  {
    if cs != [] {
      var next := RunComponent(st, cs[0], failures);
      ApplyBumpsGet(st.res.counts, cs[0].bumps, k);
      RunAllSafeBound(next, cs[1..], failures, k);
    }
  }

  lemma SafeBumpsSingle(c: Component, k: Counter)
    ensures SafeBumps([c], k) == if Raises(c) then 0 else SumBumps(c.bumps, k)
  {
    assert [c][1..] == [];
  }

  lemma AsWrittenSafeBumps(pid: string, e: RPExtractionV4, k: Counter)
    ensures SafeBumps(AsWrittenDeclaredBlocks(pid, e), k) <= if k == Baskets then 1 else 0
  {
    var n := if e.builderBasket.Some? then |e.builderBasket.value.sources| else 0;
    var x0 := Component("Builder basket", [Raise(NoAttribute("BuilderBasket", "default_condition"))], [Bump(Baskets, 1), Bump(Sources, n)]);
    var x1 := Component("Ratio basket", [Raise(NoAttribute("RatioBasket", "test_date_type"))], [Bump(Baskets, 1)]);
    var x2 := BasketComponent("General RP basket", "general_rp_basket", "general_rp_" + pid, "provision_has_basket", pid, Baskets);
    var x3 := Component("Management basket", [Raise(NoAttribute("ManagementEquityBasket", "eligible_person_scope"))], [Bump(Baskets, 1)]);
    var x4 := Component("Tax basket", [Raise(NoAttribute("TaxDistributionBasket", "hypothetical_tax_rate"))], [Bump(Baskets, 1)]);
    var b0 := e.builderBasket.Some? && e.builderBasket.value.exists_;
    var b1 := e.ratioBasket.Some? && e.ratioBasket.value.exists_;
    var b2 := e.generalRpBasket.Some? && e.generalRpBasket.value.exists_;
    var b3 := e.managementEquityBasket.Some? && e.managementEquityBasket.value.exists_;
    var b4 := e.taxDistributionBasket.Some? && e.taxDistributionBasket.value.exists_;
    RaisingBlockBumps(b0, x0, k);
    RaisingBlockBumps(b1, x1, k);
    OneBasketBumps(b2, x2, k);
    RaisingBlockBumps(b3, x3, k);
    RaisingBlockBumps(b4, x4, k);
    SafeBumpsOfFive(IfThen(b0, x0), IfThen(b1, x1), IfThen(b2, x2), IfThen(b3, x3), IfThen(b4, x4), k);
  }

  lemma RaisingBlockBumps(cond: bool, c: Component, k: Counter)
    requires Raises(c)
    ensures SafeBumps(IfThen(cond, c), k) == 0
  {
    if cond {
      SafeBumpsSingle(c, k);
    }
  }

  lemma OneBasketBumps(cond: bool, c: Component, k: Counter)
    requires !Raises(c) && c.bumps == [Bump(Baskets, 1)]
    ensures SafeBumps(IfThen(cond, c), k) <= if k == Baskets then 1 else 0
  {
    if cond {
      SafeBumpsSingle(c, k);
      assert c.bumps[1..] == [];
    }
  }

  lemma SafeBumpsOfFive(a: seq<Component>, b: seq<Component>, c: seq<Component>, d: seq<Component>, e: seq<Component>, k: Counter)
    ensures SafeBumps(a + b + c + d + e, k) == SafeBumps(a, k) + SafeBumps(b, k) + SafeBumps(c, k) + SafeBumps(d, k) + SafeBumps(e, k)
  {
    SafeBumpsConcat(a, b, k);
    SafeBumpsConcat(a + b, c, k);
    SafeBumpsConcat(a + b + c, d, k);
    SafeBumpsConcat(a + b + c + d, e, k);
  }

  /**
   * As written, a stored validated extraction never gets past the basket
   * blocks: whenever the provision insert succeeds the last error is the
   * top-level one from the holdco read, at most one basket (the general RP
   * basket) is counted, and no source, RDP basket, blocker, exception, sweep
   * tier, de minimis threshold, reallocation or pathway is ever counted.
   */
  lemma AsWrittenSkipsLaterBlocks(dealId: string, suffix: string, e: RPExtractionV4, log: seq<Write>, at: nat, failures: map<nat, string>, k: Counter)
    requires at !in failures
    ensures var fin := StoreAsWritten(dealId, suffix, e, log, at, failures);
      |fin.res.errors| >= 1 && fin.res.errors[|fin.res.errors| - 1] == HoldcoReadError &&
      fin.res.counts.Get(k) <= if k == Baskets then 1 else 0
  {
    var pid := ProvisionId(dealId, suffix);
    var st := StoreState(StoreResults(Some(pid), ZeroCounts, []), log + [ProvisionWrite(pid, dealId)], at + 1);
    RunAllSafeBound(st, AsWrittenDeclaredBlocks(pid, e), failures, k);
    AsWrittenSafeBumps(pid, e, k);
  }

  /**
   * The corrected store reaches the blocker: with every write succeeding, a
   * record whose J.Crew blocker exists gets it counted, where the store as
   * written on the same extraction counts none.
   */
  lemma CorrectedStoreCountsBlocker(dealId: string, suffix: string, r: StoreRecord, log: seq<Write>, at: nat)
    requires r.base.jcrewBlocker.Some? && r.base.jcrewBlocker.value.exists_
    ensures StoreSpec(dealId, suffix, r, log, at, map[]).res.counts.Get(Blockers) >= 1
    ensures StoreAsWritten(dealId, suffix, r.base, log, at, map[]).res.counts.Get(Blockers) == 0
  {
    var pid := ProvisionId(dealId, suffix);
    var st := StoreState(StoreResults(Some(pid), ZeroCounts, []), log + [ProvisionWrite(pid, dealId)], at + 1);
    AsWrittenSkipsLaterBlocks(dealId, suffix, r.base, log, at, map[], Blockers);
    var cs := Components(pid, r);
    ComponentsNoRaise(pid, r);
    NoFailuresNoErrors(st, cs);
    RunAllAccounting(st, cs, map[], Blockers);
    BlockerBumped(pid, r);
  }

  /** With no failing write and no raising step, no component records an error. */
  lemma {:induction false} NoFailuresNoErrors(st: StoreState, cs: seq<Component>)
    requires NoRaise(cs)
    ensures RunAll(st, cs, map[]).res.errors == st.res.errors
    decreases |cs|
  {
    if cs != [] {
      NoFailureRunsAll(cs[0].plan, st.at);
      assert NoRaise(cs[1..]) by {
        forall i, j | 0 <= i < |cs[1..]| && 0 <= j < |cs[1..][i].plan| ensures !cs[1..][i].plan[j].Raise? {
          assert cs[1..][i] == cs[i + 1];
        }
      }
      NoFailuresNoErrors(RunComponent(st, cs[0], map[]), cs[1..]);
    }
  }

  lemma {:induction false} NoFailureRunsAll(plan: seq<Step>, at: nat)
    requires forall j :: 0 <= j < |plan| ==> !plan[j].Raise?
    ensures RunSteps(plan, at, map[]).err.None?
    decreases |plan|
  {
    if plan != [] {
      NoFailureRunsAll(plan[1..], at + 1);
    }
  }

  lemma {:induction false} TotalBumpsConcat(a: seq<Component>, b: seq<Component>, k: Counter)
    ensures TotalBumps(a + b, k) == TotalBumps(a, k) + TotalBumps(b, k)
    decreases |a|
  {
    if a == [] {
      assert a + b == b;
    } else {
      assert (a + b)[0] == a[0] && (a + b)[1..] == a[1..] + b;
      TotalBumpsConcat(a[1..], b, k);
    }
  }

  lemma {:induction false} GuardedBlockerBumps(pid: string, r: StoreRecord, k: nat)
    requires k <= 12 && Guard(r, 12)
    ensures TotalBumps(GuardedFrom(pid, r, k), Blockers) >= 1
    decreases 12 - k
  {
    var head := if Guard(r, k) then [GuardedBlock(pid, r, k)] else [];
    TotalBumpsConcat(head, GuardedFrom(pid, r, k + 1), Blockers);
    if k < 12 {
      GuardedBlockerBumps(pid, r, k + 1);
    } else {
      var b := r.base.jcrewBlocker.value;
      assert head == [JCrewComponent(pid, b)];
      var bs := head[0].bumps;
      assert bs == [Bump(Blockers, 1), Bump(Exceptions, |b.exceptions|)];
      assert bs[1..][1..] == [];
      assert SumBumps(bs, Blockers) >= 1;
      assert TotalBumps(head, Blockers) >= 1 by {
        assert head[1..] == [];
      }
    }
  }

  lemma BlockerBumped(pid: string, r: StoreRecord)
    requires r.base.jcrewBlocker.Some? && r.base.jcrewBlocker.value.exists_
    ensures TotalBumps(Components(pid, r), Blockers) >= 1
  {
    assert Guard(r, 12);
    GuardedBlockerBumps(pid, r, 0);
    TotalBumpsConcat(GuardedFrom(pid, r, 0), ListParts(pid, r), Blockers);
  }

  /** No step of any component raises by itself. */
  predicate NoRaise(cs: seq<Component>)
  {
    forall i, j :: 0 <= i < |cs| && 0 <= j < |cs[i].plan| ==> !cs[i].plan[j].Raise?
  }

  lemma NoRaiseConcat(a: seq<Component>, b: seq<Component>)
    requires NoRaise(a) && NoRaise(b)
    ensures NoRaise(a + b)
  {
    forall i, j | 0 <= i < |a + b| && 0 <= j < |(a + b)[i].plan| ensures !(a + b)[i].plan[j].Raise? {
      if i >= |a| {
        assert (a + b)[i] == b[i - |a|];
      }
    }
  }

  lemma BuilderNoRaise(pid: string, b: BuilderBasket)
    ensures NoRaise([BuilderComponent(pid, b)])
  {
  }

  lemma JCrewNoRaise(pid: string, b: JCrewBlocker)
    ensures NoRaise([JCrewComponent(pid, b)])
  {
    var plan := JCrewComponent(pid, b).plan;
    var head := [Must(Entity("jcrew_blocker", "jcrew_" + pid, "provision_has_blocker", pid))] + ExceptionSteps("jcrew_" + pid, b.exceptions, 0);
    var tail := IpLinkSteps("jcrew_" + pid, b.coveredIpTypes);
    assert plan == head + tail;
    forall j | 0 <= j < |plan| ensures !plan[j].Raise? {
      if j >= |head| {
        assert plan[j] == tail[j - |head|];
      }
    }
  }

  lemma BlockNoRaise(pid: string, r: StoreRecord, i: nat)
    requires i < |GuardedTitles| && Guard(r, i)
    ensures NoRaise([GuardedBlock(pid, r, i)])
  {
    if i == 0 {
      BuilderNoRaise(pid, r.base.builderBasket.value);
    } else if i == 1 {
      BasketNoRaise("Ratio basket", "ratio_basket", "ratio_" + pid, "provision_has_basket", pid, Baskets);
    } else if i == 2 {
      BasketNoRaise("General RP basket", "general_rp_basket", "general_rp_" + pid, "provision_has_basket", pid, Baskets);
    } else if i == 3 {
      BasketNoRaise("Management basket", "management_equity_basket", "mgmt_" + pid, "provision_has_basket", pid, Baskets);
    } else if i == 4 {
      BasketNoRaise("Tax basket", "tax_distribution_basket", "tax_" + pid, "provision_has_basket", pid, Baskets);
    } else if i == 5 {
      BasketNoRaise("Holdco overhead basket", "holdco_overhead_basket", "holdco_" + pid, "provision_has_basket", pid, Baskets);
    } else if i == 6 {
      BasketNoRaise("Equity award basket", "equity_award_basket", "eqaward_" + pid, "provision_has_basket", pid, Baskets);
    } else if i == 7 {
      BasketNoRaise("Refinancing RDP basket", "refinancing_rdp_basket", "rdp_refi_" + pid, "provision_has_rdp_basket", pid, RdpBaskets);
    } else if i == 8 {
      BasketNoRaise("General RDP basket", "general_rdp_basket", "rdp_general_" + pid, "provision_has_rdp_basket", pid, RdpBaskets);
    } else if i == 9 {
      BasketNoRaise("Ratio RDP basket", "ratio_rdp_basket", "rdp_ratio_" + pid, "provision_has_rdp_basket", pid, RdpBaskets);
    } else if i == 10 {
      BasketNoRaise("Builder RDP basket", "builder_rdp_basket", "rdp_builder_" + pid, "provision_has_rdp_basket", pid, RdpBaskets);
    } else if i == 11 {
      BasketNoRaise("Equity-funded RDP basket", "equity_funded_rdp_basket", "rdp_eqfund_" + pid, "provision_has_rdp_basket", pid, RdpBaskets);
    } else if i == 12 {
      JCrewNoRaise(pid, r.base.jcrewBlocker.value);
    }
  }

  lemma BasketNoRaise(title: string, entityType: string, id: string, relation: string, pid: string, counter: Counter)
    ensures NoRaise([BasketComponent(title, entityType, id, relation, pid, counter)])
  {
  }

  lemma {:induction false} GuardedNoRaise(pid: string, r: StoreRecord, k: nat)
    requires k <= |GuardedTitles|
    ensures NoRaise(GuardedFrom(pid, r, k))
    decreases |GuardedTitles| - k
  {
    if k < |GuardedTitles| {
      GuardedNoRaise(pid, r, k + 1);
      var head := if Guard(r, k) then [GuardedBlock(pid, r, k)] else [];
      if Guard(r, k) {
        BlockNoRaise(pid, r, k);
      }
      NoRaiseConcat(head, GuardedFrom(pid, r, k + 1));
    }
  }

  lemma ReallocationsNoRaise(pid: string, rs: seq<BasketReallocation>)
    ensures NoRaise(ReallocationComponents(pid, rs))
  {
    var cs := ReallocationComponents(pid, rs);
    forall i, j | 0 <= i < |cs| && 0 <= j < |cs[i].plan| ensures !cs[i].plan[j].Raise? {
      assert cs[i].plan == ReallocationSteps(pid, ReallocSourceName(rs[i].sourceBasket), ReallocTargetName(rs[i].targetBasket));
    }
  }

  lemma ListPartsNoRaise(pid: string, r: StoreRecord)
    ensures NoRaise(ListParts(pid, r))
  {
    var e := r.base;
    var s1, s2, s3 := SweepTierComponents(pid, e.sweepTiers), DeMinimisComponents(pid, e.deMinimisThresholds), ExemptionComponents(pid, r.sweepExemptions);
    var s4, s5 := ReallocationComponents(pid, e.reallocations), PathwayComponents(pid, 0, r.investmentPathwayCount);
    ReallocationsNoRaise(pid, e.reallocations);
    NoRaiseConcat(s1, s2);
    NoRaiseConcat(s1 + s2, s3);
    NoRaiseConcat(s1 + s2 + s3, s4);
    NoRaiseConcat(s1 + s2 + s3 + s4, s5);
  }

  lemma ComponentsNoRaise(pid: string, r: StoreRecord)
    ensures NoRaise(Components(pid, r))
  {
    ListPartsNoRaise(pid, r);
    GuardedNoRaise(pid, r, 0);
    NoRaiseConcat(GuardedFrom(pid, r, 0), ListParts(pid, r));
  }

  // ---------------------------------------------------------------------------
  // Helpers that raise once they are reached
  // ---------------------------------------------------------------------------

  /** With no failing write, a plan that never raises commits every write in order. */
  lemma {:induction false} NoFailureCommitsAll(plan: seq<Step>, at: nat)
    requires forall j :: 0 <= j < |plan| ==> !plan[j].Raise?
    ensures RunSteps(plan, at, map[]) == PlanRun(StepWrites(plan), |plan|, None)
    ensures |StepWrites(plan)| == |plan|
    ensures forall j :: 0 <= j < |plan| ==> StepWrites(plan)[j] == plan[j].w
    decreases |plan|
  {
    if plan != [] {
      NoFailureCommitsAll(plan[1..], at + 1);
      assert StepWrites(plan) == [plan[0].w] + StepWrites(plan[1..]);
      forall j | 1 <= j < |plan|
        ensures StepWrites(plan)[j] == plan[j].w
      {
        assert plan[1..][j - 1] == plan[j];
      }
    }
  }

  /** A component that never raises, run with no failing write: all its writes commit and all its bumps apply. */
  lemma CleanComponent(st: StoreState, c: Component, k: Counter)
    requires forall j :: 0 <= j < |c.plan| ==> !c.plan[j].Raise?
    ensures var after := RunComponent(st, c, map[]);
      after.log == st.log + StepWrites(c.plan) && after.res.errors == st.res.errors &&
      after.res.counts.Get(k) == st.res.counts.Get(k) + SumBumps(c.bumps, k)
  {
    NoFailureCommitsAll(c.plan, st.at);
    ApplyBumpsGet(st.res.counts, c.bumps, k);
  }

  /**
   * `_store_builder_source_v4` as written reads `not_otherwise_applied`,
   * which `BuilderSource` does not declare, before its insert: the first
   * source raises and the loop over the sources stops there.
   */
  function AsWrittenSourceSteps(sources: seq<BuilderSource>): (steps: seq<Step>)
    ensures |steps| <= 1
  {
    if sources == [] then [] else [Raise(NoAttribute("BuilderSource", "not_otherwise_applied"))]
  }

  /**
   * The builder block with its undeclared `default_condition` read (line
   * 761) corrected, so its basket insert goes through, and the source
   * helper as written. As written, line 761 raises before the insert.
   */
  function AsWrittenBuilderSources(pid: string, b: BuilderBasket): Component
  {
    Component("Builder basket",
      [Must(Entity("builder_basket", "builder_" + pid, "provision_has_basket", pid))] + AsWrittenSourceSteps(b.sources),
      [Bump(Baskets, 1), Bump(Sources, |b.sources|)])
  }

  /**
   * With every write succeeding, a builder basket with a source keeps its
   * basket insert but records an error and counts neither the basket nor
   * any source.
   */
  lemma AsWrittenSourcesRaise(st: StoreState, pid: string, b: BuilderBasket)
    requires b.sources != []
    ensures var after := RunComponent(st, AsWrittenBuilderSources(pid, b), map[]);
      after.log == st.log + [Entity("builder_basket", "builder_" + pid, "provision_has_basket", pid)] &&
      after.res.counts == st.res.counts &&
      after.res.errors == st.res.errors + [ComponentError("Builder basket", NoAttribute("BuilderSource", "not_otherwise_applied"))]
  {
    var plan := AsWrittenBuilderSources(pid, b).plan;
    var msg := NoAttribute("BuilderSource", "not_otherwise_applied");
    var basket := Entity("builder_basket", "builder_" + pid, "provision_has_basket", pid);
    assert plan[0] == Must(basket) && plan[1..] == [Raise(msg)];
    assert RunSteps(plan[1..], st.at + 1, map[]) == PlanRun([], 0, Some(msg));
    assert RunSteps(plan, st.at, map[]) == PlanRun([basket], 1, Some(msg));
    assert Take(msg, 100) == msg;
  }

  /**
   * The builder block corrected: with every write succeeding it writes the
   * basket and then each source under its own id, and counts the basket and
   * every source.
   */
  lemma BuilderStoresSources(st: StoreState, pid: string, b: BuilderBasket)
    ensures var after := RunComponent(st, BuilderComponent(pid, b), map[]);
      var basketId := "builder_" + pid;
      |after.log| == |st.log| + 1 + |b.sources| && after.log[..|st.log|] == st.log &&
      after.log[|st.log|] == Entity("builder_basket", basketId, "provision_has_basket", pid) &&
      (forall i :: 0 <= i < |b.sources| ==>
        after.log[|st.log| + 1 + i] == Entity(SourceEntityType(SourceTypeName(b.sources[i].sourceType)), SourceId(basketId, i), "builder_has_source", basketId)) &&
      after.res.errors == st.res.errors &&
      after.res.counts.Get(Baskets) == st.res.counts.Get(Baskets) + 1 &&
      after.res.counts.Get(Sources) == st.res.counts.Get(Sources) + |b.sources|
  {
    var c := BuilderComponent(pid, b);
    var basketId := "builder_" + pid;
    BuilderNoRaise(pid, b);
    NoFailureCommitsAll(c.plan, st.at);
    CleanComponent(st, c, Baskets);
    CleanComponent(st, c, Sources);
    TwoBumps(Baskets, 1, Sources, |b.sources|, Baskets);
    TwoBumps(Baskets, 1, Sources, |b.sources|, Sources);
    var after := RunComponent(st, c, map[]);
    var ws := StepWrites(c.plan);
    assert after.log == st.log + ws;
    assert |c.plan| == 1 + |b.sources|;
    assert ws[0] == c.plan[0].w;
    forall i | 0 <= i < |b.sources|
      ensures after.log[|st.log| + 1 + i] ==
        Entity(SourceEntityType(SourceTypeName(b.sources[i].sourceType)), SourceId(basketId, i), "builder_has_source", basketId)
    {
      assert c.plan[1 + i] == SourceSteps(basketId, b.sources, 0)[i];
      assert after.log[|st.log| + 1 + i] == ws[1 + i];
    }
  }

  lemma TwoBumps(a: Counter, n: nat, b: Counter, m: nat, k: Counter)
    ensures SumBumps([Bump(a, n), Bump(b, m)], k) == (if a == k then n else 0) + (if b == k then m else 0)
  {
    var bs := [Bump(a, n), Bump(b, m)];
    assert bs[1..] == [Bump(b, m)] && bs[1..][1..] == [];
    assert SumBumps(bs[1..][1..], k) == 0;
    assert SumBumps(bs[1..], k) == (if b == k then m else 0);
  }

  /**
   * `_store_jcrew_blocker_v4` as written reads `covers_exclusive_licensing`,
   * which `JCrewBlocker` does not declare, before its first insert.
   */
  function AsWrittenJCrewComponent(pid: string, b: JCrewBlocker): Component
  {
    Component("J.Crew blocker", [Raise(NoAttribute("JCrewBlocker", "covers_exclusive_licensing"))],
      [Bump(Blockers, 1), Bump(Exceptions, |b.exceptions|)])
  }

  /** As written, whatever the database does, the blocker block writes nothing, counts nothing and records one error. */
  lemma AsWrittenBlockerNeverStored(st: StoreState, pid: string, b: JCrewBlocker, failures: map<nat, string>)
    ensures var after := RunComponent(st, AsWrittenJCrewComponent(pid, b), failures);
      after.log == st.log && after.at == st.at && after.res.counts == st.res.counts &&
      after.res.errors == st.res.errors + [ComponentError("J.Crew blocker", NoAttribute("JCrewBlocker", "covers_exclusive_licensing"))]
  {
  }

  /**
   * The blocker block corrected: with every write succeeding it writes the
   * blocker first, then its exceptions and IP-type links, and counts the
   * blocker and every exception.
   */
  lemma JCrewStoresBlocker(st: StoreState, pid: string, b: JCrewBlocker)
    ensures var after := RunComponent(st, JCrewComponent(pid, b), map[]);
      |after.log| == |st.log| + 1 + |b.exceptions| + |b.coveredIpTypes| && after.log[..|st.log|] == st.log &&
      after.log[|st.log|] == Entity("jcrew_blocker", "jcrew_" + pid, "provision_has_blocker", pid) &&
      after.res.errors == st.res.errors &&
      after.res.counts.Get(Blockers) == st.res.counts.Get(Blockers) + 1 &&
      after.res.counts.Get(Exceptions) == st.res.counts.Get(Exceptions) + |b.exceptions|
  {
    var c := JCrewComponent(pid, b);
    JCrewNoRaise(pid, b);
    NoFailureCommitsAll(c.plan, st.at);
    CleanComponent(st, c, Blockers);
    CleanComponent(st, c, Exceptions);
    TwoBumps(Blockers, 1, Exceptions, |b.exceptions|, Blockers);
    TwoBumps(Blockers, 1, Exceptions, |b.exceptions|, Exceptions);
  }

  /**
   * `_store_reallocation_v4` as written: past the basket-map check it reads
   * `reduces_source_basket`, which `BasketReallocation` does not declare,
   * before its insert.
   */
  function AsWrittenReallocationSteps(pid: string, sourceName: string, targetName: string): (steps: seq<Step>)
    ensures |steps| <= 1
  {
    var src := ReallocationBasketId(pid, sourceName);
    var tgt := ReallocationBasketId(pid, targetName);
    if src.None? || tgt.None? then [] else [Raise(NoAttribute("BasketReallocation", "reduces_source_basket"))]
  }

  /** A validated reallocation names two mapped baskets. */
  lemma ValidatedNamesMapped(pid: string, r: BasketReallocation)
    ensures ReallocationBasketId(pid, ReallocSourceName(r.sourceBasket)) == Some(ReallocSourceName(r.sourceBasket) + "_" + pid)
    ensures ReallocationBasketId(pid, ReallocTargetName(r.targetBasket)) == Some(ReallocTargetName(r.targetBasket) + "_" + pid)
  {
    match r.sourceBasket {
      case FromInvestment => assert "investment" + "_" + pid == "investment_" + pid;
      case FromRdp => assert "rdp" + "_" + pid == "rdp_" + pid;
      case FromBuilder => assert "builder" + "_" + pid == "builder_" + pid;
      case FromGeneralRp => assert "general_rp" + "_" + pid == "general_rp_" + pid;
      case FromPrepayment => assert "prepayment" + "_" + pid == "prepayment_" + pid;
      case FromIntercompany => assert "intercompany" + "_" + pid == "intercompany_" + pid;
    }
    match r.targetBasket {
      case ToGeneralRp => assert "general_rp" + "_" + pid == "general_rp_" + pid;
      case ToInvestment => assert "investment" + "_" + pid == "investment_" + pid;
      case ToRdp => assert "rdp" + "_" + pid == "rdp_" + pid;
      case ToBuilder => assert "builder" + "_" + pid == "builder_" + pid;
    }
  }

  /**
   * As written, whatever the database does, every validated reallocation
   * writes nothing, is not counted and records one error.
   */
  lemma AsWrittenReallocationRaises(st: StoreState, pid: string, r: BasketReallocation, failures: map<nat, string>)
    ensures var steps := AsWrittenReallocationSteps(pid, ReallocSourceName(r.sourceBasket), ReallocTargetName(r.targetBasket));
      var after := RunComponent(st, Component("Reallocation", steps, [Bump(Reallocations, 1)]), failures);
      after.log == st.log && after.res.counts == st.res.counts &&
      after.res.errors == st.res.errors + [ComponentError("Reallocation", NoAttribute("BasketReallocation", "reduces_source_basket"))]
  {
    ValidatedNamesMapped(pid, r);
  }

  /**
   * The reallocation block corrected: with every write succeeding, a
   * validated reallocation writes its relation between the two baskets and
   * is counted.
   */
  lemma ReallocationStored(st: StoreState, pid: string, r: BasketReallocation)
    ensures var after := RunComponent(st, ReallocationComponents(pid, [r])[0], map[]);
      after.log == st.log + [Reallocate(ReallocSourceName(r.sourceBasket) + "_" + pid, ReallocTargetName(r.targetBasket) + "_" + pid)] &&
      after.res.errors == st.res.errors &&
      after.res.counts.Get(Reallocations) == st.res.counts.Get(Reallocations) + 1
  {
    var c := ReallocationComponents(pid, [r])[0];
    ValidatedReallocationWrites(pid, r);
    CleanComponent(st, c, Reallocations);
    assert c.bumps[1..] == [];
    assert StepWrites(c.plan) == [Reallocate(ReallocSourceName(r.sourceBasket) + "_" + pid, ReallocTargetName(r.targetBasket) + "_" + pid)];
  }

  // ---------------------------------------------------------------------------
  // store_scalar_answer
  // ---------------------------------------------------------------------------

  /** `_gen_id("ans")`, the random suffix supplied by the caller. */
  function AnswerId(dealId: string, suffix: string): string
  {
    "ans_" + dealId + "_" + suffix
  }

  const AnswerValueNames := ["answer_boolean", "answer_integer", "answer_double", "answer_string"]

  /**
   * The typed value clause: a bool is checked before an int (a Python bool is
   * an int), then float and str; anything else is written as its `str()`.
   */
  function AnswerValueAttr(value: Value): (a: Attr)
    ensures a.name in AnswerValueNames
    ensures a.name == "answer_boolean" <==> value.VBool?
    ensures a.name == "answer_integer" <==> value.VInt?
    ensures a.name == "answer_double" <==> value.VFloat?
    ensures value.VBool? ==> a.value == LBool(value.b)
    ensures value.VInt? ==> a.value == LLong(value.i)
    ensures value.VFloat? ==> a.value == LDouble(value.f)
    ensures a.name == "answer_string" ==>
      a.value.LString? && SafeLiteralBody(a.value.escaped) && Unescape(a.value.escaped) == RemoveCR(Str(value))
  {
    match value
    case VBool(b) => Attr("answer_boolean", LBool(b))
    case VInt(i) => Attr("answer_integer", LLong(i))
    case VFloat(f) => Attr("answer_double", LDouble(f))
    case VStr(s) => Attr("answer_string", LString(Escape(s)))
    case _ => Attr("answer_string", LString(Escape(Str(value))))
  }

  /** A clause that is added only when `cond` holds. */
  function OptClause(cond: bool, a: Attr): seq<Attr>
  {
    if cond then [a] else []
  }

  /** The attribute clauses of the inserted `provision_has_answer` relation. */
  function ScalarAnswerAttrs(answerId: string, value: Value, sourceText: Option<string>, sourcePage: Option<int>,
    sourceSection: Option<string>, confidence: Option<string>): seq<Attr>
  {
    [Attr("answer_id", LString(answerId)), AnswerValueAttr(value)]
    + OptClause(sourceText.Some? && sourceText.value != "", Attr("source_text", LString(Escape(Take(sourceText.GetOr(""), 2000)))))
    + OptClause(sourcePage.Some?, Attr("source_page", LLong(sourcePage.GetOr(0))))
    + OptClause(sourceSection.Some? && sourceSection.value != "", Attr("source_section", LString(Escape(sourceSection.GetOr("")))))
    + OptClause(confidence.Some? && confidence.value != "", Attr("confidence", LString(confidence.GetOr(""))))
  }

  /** Number of clauses among `attrs` named `name`. */
  function CountNamed(attrs: seq<Attr>, name: string): nat
  {
    if attrs == [] then 0 else (if attrs[0].name == name then 1 else 0) + CountNamed(attrs[1..], name)
  }

  lemma {:induction false} CountNamedConcat(a: seq<Attr>, b: seq<Attr>, name: string)
    ensures CountNamed(a + b, name) == CountNamed(a, name) + CountNamed(b, name)
    decreases |a|
  {
    if a == [] {
      assert a + b == b;
    } else {
      assert (a + b)[1..] == a[1..] + b;
      CountNamedConcat(a[1..], b, name);
    }
  }

  lemma CountOptClause(cond: bool, a: Attr, name: string)
    ensures CountNamed(OptClause(cond, a), name) == if cond && a.name == name then 1 else 0
  {
    if cond {
      assert [a][1..] == [];
    }
  }

  lemma CountPair(a: Attr, b: Attr, name: string)
    ensures CountNamed([a, b], name) == (if a.name == name then 1 else 0) + (if b.name == name then 1 else 0)
  {
    assert [a, b][1..] == [b] && [b][1..] == [];
    assert CountNamed([b], name) == (if b.name == name then 1 else 0) + CountNamed([], name);
  }

  lemma CountFive(h: seq<Attr>, p: seq<Attr>, q: seq<Attr>, r: seq<Attr>, s: seq<Attr>, name: string)
    ensures CountNamed(h + p + q + r + s, name)
      == CountNamed(h, name) + CountNamed(p, name) + CountNamed(q, name) + CountNamed(r, name) + CountNamed(s, name)
  {
    CountNamedConcat(h + p + q + r, s, name);
    CountNamedConcat(h + p + q, r, name);
    CountNamedConcat(h + p, q, name);
    CountNamedConcat(h, p, name);
  }

  /** Clause count of a two-clause head followed by four optional clauses. */
  lemma CountClauses(h0: Attr, h1: Attr, c1: bool, a1: Attr, c2: bool, a2: Attr, c3: bool, a3: Attr, c4: bool, a4: Attr, name: string)
    ensures CountNamed([h0, h1] + OptClause(c1, a1) + OptClause(c2, a2) + OptClause(c3, a3) + OptClause(c4, a4), name)
      == (if h0.name == name then 1 else 0) + (if h1.name == name then 1 else 0)
       + (if c1 && a1.name == name then 1 else 0) + (if c2 && a2.name == name then 1 else 0)
       + (if c3 && a3.name == name then 1 else 0) + (if c4 && a4.name == name then 1 else 0)
  {
    CountFive([h0, h1], OptClause(c1, a1), OptClause(c2, a2), OptClause(c3, a3), OptClause(c4, a4), name);
    CountPair(h0, h1, name);
    CountOptClause(c1, a1, name);
    CountOptClause(c2, a2, name);
    CountOptClause(c3, a3, name);
    CountOptClause(c4, a4, name);
  }

  /** How many clauses of each name an answer carries. */
  lemma ScalarAnswerCounts(answerId: string, value: Value, sourceText: Option<string>, sourcePage: Option<int>,
    sourceSection: Option<string>, confidence: Option<string>, name: string)
    ensures CountNamed(ScalarAnswerAttrs(answerId, value, sourceText, sourcePage, sourceSection, confidence), name)
      == (if name == "answer_id" then 1 else 0)
       + (if AnswerValueAttr(value).name == name then 1 else 0)
       + (if name == "source_text" && sourceText.Some? && sourceText.value != "" then 1 else 0)
       + (if name == "source_page" && sourcePage.Some? then 1 else 0)
       + (if name == "source_section" && sourceSection.Some? && sourceSection.value != "" then 1 else 0)
       + (if name == "confidence" && confidence.Some? && confidence.value != "" then 1 else 0)
  {
    CountClauses(Attr("answer_id", LString(answerId)), AnswerValueAttr(value),
      sourceText.Some? && sourceText.value != "", Attr("source_text", LString(Escape(Take(sourceText.GetOr(""), 2000)))),
      sourcePage.Some?, Attr("source_page", LLong(sourcePage.GetOr(0))),
      sourceSection.Some? && sourceSection.value != "", Attr("source_section", LString(Escape(sourceSection.GetOr("")))),
      confidence.Some? && confidence.value != "", Attr("confidence", LString(confidence.GetOr(""))), name);
  }

  /**
   * An answer carries its ID first and exactly one typed value clause, the
   * one its value's type selects; the source text is cut to 2000 characters
   * before escaping and reads back as that prefix without CRs.
   */
  lemma ScalarAnswerShape(answerId: string, value: Value, sourceText: Option<string>, sourcePage: Option<int>,
    sourceSection: Option<string>, confidence: Option<string>)
    ensures var attrs := ScalarAnswerAttrs(answerId, value, sourceText, sourcePage, sourceSection, confidence);
      attrs[0] == Attr("answer_id", LString(answerId)) && attrs[1] == AnswerValueAttr(value) &&
      CountNamed(attrs, "answer_boolean") + CountNamed(attrs, "answer_integer")
        + CountNamed(attrs, "answer_double") + CountNamed(attrs, "answer_string") == 1 &&
      CountNamed(attrs, "answer_id") == 1
    ensures sourceText.Some? && sourceText.value != "" ==>
      var t := ScalarAnswerAttrs(answerId, value, sourceText, sourcePage, sourceSection, confidence)[2];
      t.name == "source_text" && t.value.LString? && SafeLiteralBody(t.value.escaped)
        && Unescape(t.value.escaped) == RemoveCR(Take(sourceText.value, 2000))
  {
    var st := Attr("source_text", LString(Escape(Take(sourceText.GetOr(""), 2000))));
    ValueClauseOnce(Attr("answer_id", LString(answerId)), AnswerValueAttr(value),
      sourceText.Some? && sourceText.value != "", st,
      sourcePage.Some?, Attr("source_page", LLong(sourcePage.GetOr(0))),
      sourceSection.Some? && sourceSection.value != "", Attr("source_section", LString(Escape(sourceSection.GetOr("")))),
      confidence.Some? && confidence.value != "", Attr("confidence", LString(confidence.GetOr(""))));
    if sourceText.Some? && sourceText.value != "" {
      ThirdClause([Attr("answer_id", LString(answerId)), AnswerValueAttr(value)], OptClause(true, st),
        OptClause(sourcePage.Some?, Attr("source_page", LLong(sourcePage.GetOr(0)))),
        OptClause(sourceSection.Some? && sourceSection.value != "", Attr("source_section", LString(Escape(sourceSection.GetOr(""))))),
        OptClause(confidence.Some? && confidence.value != "", Attr("confidence", LString(confidence.GetOr("")))));
    }
  }

  lemma ThirdClause(h: seq<Attr>, p: seq<Attr>, q: seq<Attr>, r: seq<Attr>, s: seq<Attr>)
    requires |h| == 2 && |p| == 1
    ensures (h + p + q + r + s)[2] == p[0]
  {
  }

  /** With the ID first, one value clause second and only non-value options after them, the value clause is unique. */
  lemma ValueClauseOnce(h0: Attr, h1: Attr, c1: bool, a1: Attr, c2: bool, a2: Attr, c3: bool, a3: Attr, c4: bool, a4: Attr)
    requires h0.name == "answer_id" && h1.name in AnswerValueNames
    requires a1.name == "source_text" && a2.name == "source_page" && a3.name == "source_section" && a4.name == "confidence"
    ensures var attrs := [h0, h1] + OptClause(c1, a1) + OptClause(c2, a2) + OptClause(c3, a3) + OptClause(c4, a4);
      attrs[0] == h0 && attrs[1] == h1 &&
      CountNamed(attrs, "answer_boolean") + CountNamed(attrs, "answer_integer")
        + CountNamed(attrs, "answer_double") + CountNamed(attrs, "answer_string") == 1 &&
      CountNamed(attrs, "answer_id") == 1
  {
    CountClauses(h0, h1, c1, a1, c2, a2, c3, a3, c4, a4, "answer_boolean");
    CountClauses(h0, h1, c1, a1, c2, a2, c3, a3, c4, a4, "answer_integer");
    CountClauses(h0, h1, c1, a1, c2, a2, c3, a3, c4, a4, "answer_double");
    CountClauses(h0, h1, c1, a1, c2, a2, c3, a3, c4, a4, "answer_string");
    CountClauses(h0, h1, c1, a1, c2, a2, c3, a3, c4, a4, "answer_id");
  }

  // ---------------------------------------------------------------------------
  // _build_attrs_from_data
  // ---------------------------------------------------------------------------

  /** One entry of a field map: the JSON key, its declared type name and the TypeQL attribute. */
  datatype FieldSpec = FieldSpec(key: string, ftype: string, tqlName: string)

  predicate KnownFieldType(ftype: string)
  {
    ftype == "string" || ftype == "bool" || ftype == "double" || ftype == "int"
  }

  /** The clause one present value produces, or None for a type name the map does not know. */
  function FieldAttr(v: Value, f: FieldSpec, parseFloat: string -> Option<real>, parseInt: string -> Option<int>): Result<Option<Attr>>
  {
    if f.ftype == "string" then Success(Some(Attr(f.tqlName, LString(Escape(Take(Str(v), 2000))))))
    else if f.ftype == "bool" then
      Success(Some(Attr(f.tqlName, if v.VBool? then LBool(v.b) else LWord(Lower(Str(v))))))
    else if f.ftype == "double" then
      var x :- PyFloat(v, parseFloat);
      Success(Some(Attr(f.tqlName, LDouble(x))))
    else if f.ftype == "int" then
      var i :- PyInt(v, parseInt);
      Success(Some(Attr(f.tqlName, LLong(i))))
    else Success(None)
  }

  /** A field whose value is present and whose type the map knows produces a clause. */
  predicate Kept(data: map<string, Value>, f: FieldSpec)
  {
    Get(data, f.key) != VNone && KnownFieldType(f.ftype)
  }

  /** A kept numeric field whose value `float()` or `int()` rejects. */
  predicate ConversionFails(data: map<string, Value>, f: FieldSpec, parseFloat: string -> Option<real>, parseInt: string -> Option<int>)
  {
    Kept(data, f) &&
    ((f.ftype == "double" && PyFloat(Get(data, f.key), parseFloat).Failure?) ||
     (f.ftype == "int" && PyInt(Get(data, f.key), parseInt).Failure?))
  }

  /** The attribute names of the kept fields, in field-map order. */
  function KeptNames(data: map<string, Value>, fieldMap: seq<FieldSpec>): seq<string>
  {
    if fieldMap == [] then []
    else (if Kept(data, fieldMap[0]) then [fieldMap[0].tqlName] else []) + KeptNames(data, fieldMap[1..])
  }

  /** A string literal body that is well formed and reads back as at most `n` characters. */
  predicate BoundedLiteral(a: Attr, n: nat)
  {
    a.value.LString? ==> SafeLiteralBody(a.value.escaped) && |Unescape(a.value.escaped)| <= n
  }

  lemma {:induction false} RemoveCRShorter(s: string)
    ensures |RemoveCR(s)| <= |s|
    decreases |s|
  {
    if s != [] {
      RemoveCRShorter(s[1..]);
    }
  }

  /**
   * `_build_attrs_from_data`: one clause per field of the map, in its order,
   * for each value that is present and of a known type; string values are
   * stringified, cut to 2000 characters and escaped. The first value
   * `float()` or `int()` rejects raises out of the whole call.
   */
  function BuildAttrsFromData(data: map<string, Value>, fieldMap: seq<FieldSpec>,
    parseFloat: string -> Option<real>, parseInt: string -> Option<int>): (r: Result<seq<Attr>>)
    ensures r.Failure? <==> exists i :: 0 <= i < |fieldMap| && ConversionFails(data, fieldMap[i], parseFloat, parseInt)
    ensures r.Success? ==> Names(r.value) == KeptNames(data, fieldMap)
    ensures r.Success? ==> forall a :: a in r.value ==> BoundedLiteral(a, 2000)
  {
    if fieldMap == [] then Success([])
    else
      var f := fieldMap[0];
      var v := Get(data, f.key);
      var head :- if v == VNone then Success(None) else FieldAttr(v, f, parseFloat, parseInt);
      var rest :- BuildAttrsFromData(data, fieldMap[1..], parseFloat, parseInt);
      assert forall i :: 1 <= i < |fieldMap| ==> fieldMap[i] == fieldMap[1..][i - 1];
      if head.Some? then
        assert BoundedLiteral(head.value, 2000) by {
          if f.ftype == "string" { RemoveCRShorter(Take(Str(v), 2000)); }
        }
        Success([head.value] + rest)
      else Success(rest)
  }

  // ---------------------------------------------------------------------------
  // summarize_extraction
  // ---------------------------------------------------------------------------

  /** Nearest integer to `x`, ties to the even one, as `.0f` formatting rounds. */
  function RoundHalfEven(x: real): (n: int)
    ensures (n as real) - 0.5 <= x <= (n as real) + 0.5
  {
    var f := x.Floor;
    var d := x - f as real;
    if d < 0.5 then f
    else if d > 0.5 then f + 1
    else if f % 2 == 0 then f else f + 1
  }

  /** `f"{x:.0f}"`: a negative value keeps its sign even when it rounds to zero. */
  function FormatFixed0(x: real): string
  {
    if x < 0.0 then "-" + NatToString(RoundHalfEven(-x)) else NatToString(RoundHalfEven(x))
  }

  /** `f"{v}"` for an `Optional[float]`. */
  function OptFloatText(v: Option<real>): string
  {
    match v
    case None => "None"
    case Some(x) => FloatToString(x)
  }

  /** How many of the five RDP baskets are present with `exists` set. */
  function RdpCount(r: StoreRecord): (n: nat)
    ensures n <= 5
    ensures n == 0 <==> (!Present(r.refinancingRdpBasket) && !Present(r.generalRdpBasket) && !Present(r.ratioRdpBasket)
      && !Present(r.builderRdpBasket) && !Present(r.equityFundedRdpBasket))
  {
    (if Present(r.refinancingRdpBasket) then 1 else 0) + (if Present(r.generalRdpBasket) then 1 else 0)
    + (if Present(r.ratioRdpBasket) then 1 else 0) + (if Present(r.builderRdpBasket) then 1 else 0)
    + (if Present(r.equityFundedRdpBasket) then 1 else 0)
  }

  /** A part of at least six characters, present when `cond` holds. */
  predicate LongParts(ps: seq<string>)
  {
    forall i :: 0 <= i < |ps| ==> |ps[i]| >= 6
  }

  function BuilderPart(b: Option<BuilderBasket>): (ps: seq<string>)
    ensures LongParts(ps) && (ps == [] <==> !(b.Some? && b.value.exists_))
  {
    if b.Some? && b.value.exists_ then ["builder(" + NatToString(|b.value.sources|) + " sources)"] else []
  }

  function RatioPart(b: Option<RatioBasket>): (ps: seq<string>)
    ensures LongParts(ps) && (ps == [] <==> !(b.Some? && b.value.exists_))
  {
    if b.Some? && b.value.exists_ then
      ["ratio(" + OptFloatText(b.value.ratioThreshold) + "x " + (if b.value.hasNoWorseTest then "\U{2713}no-worse" else "") + ")"]
    else []
  }

  function JCrewPart(b: Option<JCrewBlocker>): (ps: seq<string>)
    ensures LongParts(ps) && (ps == [] <==> !(b.Some? && b.value.exists_))
  {
    if b.Some? && b.value.exists_ then
      ["jcrew(" + (if b.value.coversDesignation then "\U{2713}desig" else "\U{2717}desig") + ", "
        + NatToString(|b.value.exceptions|) + " exc)"]
    else []
  }

  /** The unsub cap in millions with no decimals; a missing or zero cap reads "uncapped". */
  function UnsubPart(u: Option<UnsubDesignation>): (ps: seq<string>)
    ensures LongParts(ps) && (ps == [] <==> !(u.Some? && u.value.permitted))
  {
    if u.Some? && u.value.permitted then
      var cap := u.value.dollarCap;
      ["unsub(" + (if cap.Some? && cap.value != 0.0 then "$" + FormatFixed0(cap.value / 1000000.0) + "M" else "uncapped") + ")"]
    else []
  }

  /** A part whose text is `name + "(" + n + suffix`, present when `n` is positive. */
  function CountPart(name: string, n: nat, suffix: string): (ps: seq<string>)
    requires |name| + |suffix| >= 4
    ensures LongParts(ps) && (ps == [] <==> n == 0)
  {
    if n > 0 then [name + "(" + NatToString(n) + suffix] else []
  }

  function FlagPart(cond: bool, text: string): (ps: seq<string>)
    requires |text| >= 6
    ensures LongParts(ps) && (ps == [] <==> !cond)
  {
    if cond then [text] else []
  }

  lemma LongPartsConcat(a: seq<string>, b: seq<string>)
    requires LongParts(a) && LongParts(b)
    ensures LongParts(a + b)
  {
    assert forall i :: |a| <= i < |a + b| ==> (a + b)[i] == b[i - |a|];
  }

  /** The summary's parts, in the order the source appends them. */
  function SummaryParts(r: StoreRecord): (ps: seq<string>)
    ensures LongParts(ps)
  {
    var e := r.base;
    var a := BuilderPart(e.builderBasket) + RatioPart(e.ratioBasket) + JCrewPart(e.jcrewBlocker) + UnsubPart(e.unsubDesignation);
    var b := CountPart("sweeps", |e.sweepTiers|, " tiers)") + FlagPart(Present(r.holdcoOverheadBasket), "holdco")
      + FlagPart(Present(r.equityAwardBasket), "equity_award");
    var c := CountPart("realloc", |e.reallocations|, ")") + CountPart("pathways", r.investmentPathwayCount, ")")
      + CountPart("rdp", RdpCount(r), " baskets)");
    assert LongParts(a + b + c) by {
      LongPartsConcat(BuilderPart(e.builderBasket), RatioPart(e.ratioBasket));
      LongPartsConcat(BuilderPart(e.builderBasket) + RatioPart(e.ratioBasket), JCrewPart(e.jcrewBlocker));
      LongPartsConcat(BuilderPart(e.builderBasket) + RatioPart(e.ratioBasket) + JCrewPart(e.jcrewBlocker), UnsubPart(e.unsubDesignation));
      LongPartsConcat(CountPart("sweeps", |e.sweepTiers|, " tiers)"), FlagPart(Present(r.holdcoOverheadBasket), "holdco"));
      LongPartsConcat(CountPart("sweeps", |e.sweepTiers|, " tiers)") + FlagPart(Present(r.holdcoOverheadBasket), "holdco"),
        FlagPart(Present(r.equityAwardBasket), "equity_award"));
      LongPartsConcat(CountPart("realloc", |e.reallocations|, ")"), CountPart("pathways", r.investmentPathwayCount, ")"));
      LongPartsConcat(CountPart("realloc", |e.reallocations|, ")") + CountPart("pathways", r.investmentPathwayCount, ")"),
        CountPart("rdp", RdpCount(r), " baskets)"));
      LongPartsConcat(a, b);
      LongPartsConcat(a + b, c);
    }
    a + b + c
  }

  /** `summarize_extraction`: the parts joined by ", ", or "empty" when the join is empty. */
  function Summarize(r: StoreRecord): (s: string)
    ensures s != ""
  {
    var joined := Join(SummaryParts(r), ", ");
    if joined == "" then "empty" else joined
  }

  /** Whether anything the summary reports on is present. */
  predicate HasSummaryContent(r: StoreRecord)
  {
    var e := r.base;
    (e.builderBasket.Some? && e.builderBasket.value.exists_) || (e.ratioBasket.Some? && e.ratioBasket.value.exists_)
    || (e.jcrewBlocker.Some? && e.jcrewBlocker.value.exists_) || (e.unsubDesignation.Some? && e.unsubDesignation.value.permitted)
    || |e.sweepTiers| > 0 || Present(r.holdcoOverheadBasket) || Present(r.equityAwardBasket)
    || |e.reallocations| > 0 || r.investmentPathwayCount > 0 || Present(r.refinancingRdpBasket)
    || Present(r.generalRdpBasket) || Present(r.ratioRdpBasket) || Present(r.builderRdpBasket) || Present(r.equityFundedRdpBasket)
  }

  lemma {:induction false} JoinStartsWithFirst(parts: seq<string>, sep: string)
    requires parts != []
    ensures StartsWith(Join(parts, sep), parts[0])
  {
    if |parts| > 1 {
      assert Join(parts, sep) == parts[0] + (sep + Join(parts[1..], sep));
    }
  }

  lemma SummaryPartsEmpty(r: StoreRecord)
    ensures SummaryParts(r) == [] <==> !HasSummaryContent(r)
  {
  }

  /** The summary is "empty" exactly when nothing it reports on is present. */
  lemma SummaryEmptyIff(r: StoreRecord)
    ensures Summarize(r) == "empty" <==> !HasSummaryContent(r)
  {
    SummaryPartsEmpty(r);
    var parts := SummaryParts(r);
    if parts != [] {
      JoinStartsWithFirst(parts, ", ");
      assert |Join(parts, ", ")| >= 6;
    }
  }

  /**
   * `summarize_extraction` as written, on a validated `RPExtractionV4`: the
   * parts for the builder, ratio, J.Crew, unsub and sweep sections are built,
   * then reading `holdco_overhead_basket`, which the record does not declare,
   * raises.
   */
  function SummarizeAsWritten(e: RPExtractionV4): (r: Result<string>)
    ensures r.Failure? && r.error != ""
  {
    Failure(NoAttribute("RPExtractionV4", "holdco_overhead_basket"))
  }

  // ---------------------------------------------------------------------------
  // parse_claude_response
  // ---------------------------------------------------------------------------

  /** `s.split(sep)[0]`: the text before the first `sep`, or all of it. */
  function Before(s: string, sep: string): (r: string)
    ensures StartsWith(s, r)
    ensures !Contains(s, sep) ==> r == s
  {
    var k := Find(s, sep);
    if k == -1 then s else s[..k]
  }

  /** The text after the first `sep`; with `Before`, `s.split(sep)[1]` is `Before(After(s, sep), sep)`. */
  function After(s: string, sep: string): (r: string)
    requires Contains(s, sep)
    ensures EndsWith(s, r) && |r| + |sep| <= |s|
  {
    var k := Find(s, sep);
    s[k + |sep|..]
  }

  /** The JSON text after fence removal and stripping, before the braces are located. */
  function JsonCandidate(response: string): string
  {
    var t :=
      if Contains(response, "```json") then Before(After(response, "```json"), "```")
      else if Contains(response, "```") then
        var part := Before(After(response, "```"), "```");
        if StartsWith(part, "JSON") || StartsWith(part, "json") then part[4..] else part
      else Strip(response);
    Strip(t)
  }

  /**
   * `parse_claude_response`: strip a ```json (or bare ```) fence, take the
   * outermost braces, decode, and validate; each stage fails with its own
   * message. The decoder's own error text is not reproduced.
   */
  function ParseClaudeResponse(response: string, decode: Decoder): (r: Result<RPExtractionV4>)
    ensures Delimited(JsonCandidate(response), '{', '}').None? ==> r == Failure("No JSON object found in Claude response")
    ensures r.Success? ==> var slice := Delimited(JsonCandidate(response), '{', '}');
      slice.Some? && decode(slice.value).Some? && ValidateExtraction(decode(slice.value).value) == r
  {
    var slice := Delimited(JsonCandidate(response), '{', '}');
    if slice.None? then Failure("No JSON object found in Claude response")
    else DecodeAndValidate(slice.value, decode)
  }

  /** The decode and validate stages of `parse_claude_response` on the sliced text. */
  function DecodeAndValidate(body: string, decode: Decoder): (r: Result<RPExtractionV4>)
    ensures r.Success? ==> decode(body).Some? && ValidateExtraction(decode(body).value) == r
  {
    match decode(body)
    case None => Failure("Failed to parse Claude response as JSON")
    case Some(j) =>
      var v := ValidateExtraction(j);
      if v.Failure? then Failure("Failed to validate extraction output: " + v.error) else v
  }

  lemma StripIdempotent(s: string)
    ensures Strip(Strip(s)) == Strip(s)
  {
    var t := Strip(s);
    if t != [] {
      assert LStrip(t) == t;
      assert RStrip(t) == t;
    }
  }

  lemma NoBacktickNoFence(s: string, fence: string)
    requires '`' !in s && |fence| > 0 && fence[0] == '`'
    ensures !Contains(s, fence)
  {
    forall i | 0 <= i <= |s| ensures !OccursAt(s, fence, i) {
      if i + |fence| <= |s| {
        assert s[i..i + |fence|][0] == s[i];
      }
    }
  }

  /** A fence directly after backtick-free text is found at that text's end. */
  lemma FenceFoundAt(p: string, fence: string, rest: string)
    requires '`' !in p && |fence| > 0 && fence[0] == '`'
    ensures Find(p + fence + rest, fence) == |p|
  {
    var s := p + fence + rest;
    assert s[|p|..|p| + |fence|] == fence;
    assert OccursAt(s, fence, |p|);
    forall j | 0 <= j < |p| ensures !OccursAt(s, fence, j) {
      assert s[j] == p[j];
      if j + |fence| <= |s| { assert s[j..j + |fence|][0] == s[j]; }
    }
  }

  /**
   * Fences are transparent: a reply that wraps text `b` in a ```json fence,
   * with backtick-free prose before it and anything after it, parses exactly
   * as `b` on its own.
   */
  lemma FenceTransparent(p: string, b: string, q: string, decode: Decoder)
    requires '`' !in p && '`' !in b
    ensures ParseClaudeResponse(p + "```json" + b + "```" + q, decode) == ParseClaudeResponse(b, decode)
  {
    var s := p + "```json" + b + "```" + q;
    assert s == p + "```json" + (b + "```" + q);
    FenceFoundAt(p, "```json", b + "```" + q);
    assert OccursAt(s, "```json", |p|);
    assert After(s, "```json") == b + "```" + q;
    FenceFoundAt(b, "```", q);
    assert Before(b + "```" + q, "```") == b;
    NoBacktickNoFence(b, "```json");
    NoBacktickNoFence(b, "```");
    StripIdempotent(b);
  }

  /** Text that already is one braced object with no surrounding space goes to the decoder whole. */
  lemma BareObjectDecodedWhole(o: string)
    requires |o| >= 2 && o[0] == '{' && o[|o| - 1] == '}' && '`' !in o
    ensures Delimited(JsonCandidate(o), '{', '}') == Some(o)
  {
    NoBacktickNoFence(o, "```json");
    NoBacktickNoFence(o, "```");
    assert LStrip(o) == o && RStrip(o) == o;
    assert Strip(o) == o;
    assert OccursAt(o, "{", 0) by { assert o[0..1] == "{"; }
    assert OccursAt(o, "}", |o| - 1) by { assert o[|o| - 1..|o|] == "}"; }
    assert o[0..|o|] == o;
  }

  // ---------------------------------------------------------------------
  // Extraction instructions of the prompt
  // ---------------------------------------------------------------------

  /**
   * One `extraction_metadata` row as `build_claude_prompt` reads it. A
   * missing, None or empty attribute or section hint is "" (all three are
   * falsy); a missing priority is None.
   */
  datatype MetadataEntry = MetadataEntry(
    targetEntityType: string,
    targetAttribute: string,
    extractionPrompt: string,
    sectionHint: string,
    priority: Option<int>)

  /** `x.get('extraction_priority', 99)`. */
  function PriorityOf(m: MetadataEntry): int
  {
    if m.priority.Some? then m.priority.value else 99
  }

  function PriorityKey(m: MetadataEntry): Collections.SortKey
  {
    Collections.SortKey(PriorityOf(m), 0)
  }

  /** The instruction block of one row: its heading, its prompt and, when there is one, where to look. */
  function InstructionBlock(m: MetadataEntry): string
  {
    "### " + m.targetEntityType + (if m.targetAttribute != "" then "." + m.targetAttribute else "") + "\n"
      + m.extractionPrompt + "\n"
      + (if m.sectionHint != "" then "(Look in: " + m.sectionHint + ")\n" else "")
      + "\n"
  }

  /** The blocks of the rows, in the given order. */
  function Instructions(ms: seq<MetadataEntry>): string
  {
    if ms == [] then "" else InstructionBlock(ms[0]) + Instructions(ms[1..])
  }

  lemma {:induction false} InstructionsSnoc(ms: seq<MetadataEntry>, m: MetadataEntry)
    ensures Instructions(ms + [m]) == Instructions(ms) + InstructionBlock(m)
  {
    if ms == [] {
      assert [m][1..] == [];
    } else {
      assert (ms + [m])[0] == ms[0] && (ms + [m])[1..] == ms[1..] + [m];
      InstructionsSnoc(ms[1..], m);
    }
  }

  /** The rows in prompt order: by ascending priority, a missing one counting 99. */
  function PromptOrder(metadata: seq<MetadataEntry>): seq<MetadataEntry>
  {
    Collections.SortBy(metadata, PriorityKey)
  }

  /**
   * The prompt order holds the same rows, by non-decreasing priority, and
   * rows of equal priority keep the order in which they were loaded.
   */
  lemma PromptOrderShape(metadata: seq<MetadataEntry>, p: int)
    ensures var o := PromptOrder(metadata);
      multiset(o) == multiset(metadata) &&
      (forall i, j :: 0 <= i < j < |o| ==> PriorityOf(o[i]) <= PriorityOf(o[j])) &&
      Collections.WithKey(o, PriorityKey, Collections.SortKey(p, 0)) == Collections.WithKey(metadata, PriorityKey, Collections.SortKey(p, 0))
  {
    Collections.SortByStable(metadata, PriorityKey, Collections.SortKey(p, 0));
  }

  /** The instruction section `build_claude_prompt` appends: one block per row, in prompt order. */
  method BuildInstructions(metadata: seq<MetadataEntry>) returns (text: string)
    ensures text == Instructions(PromptOrder(metadata))
  {
    var ordered := PromptOrder(metadata);
    text := "";
    for i := 0 to |ordered|
      invariant text == Instructions(ordered[..i])
    {
      InstructionsSnoc(ordered[..i], ordered[i]);
      assert ordered[..i + 1] == ordered[..i] + [ordered[i]];
      text := text + InstructionBlock(ordered[i]);
    }
    assert ordered[..|ordered|] == ordered;
  }
}
