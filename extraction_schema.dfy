/**
 * The V4 restricted-payments extraction record (the Pydantic models in
 * app/schemas/extraction_output_v4.py) and its validation from decoded JSON.
 * Every Literal becomes a closed datatype with a parser and a printer, every
 * `Optional` an Option, every list a seq; defaults and required fields are
 * those of the Pydantic declarations.
 */
module ExtractionSchema {
  import opened Wrappers
  import opened JsonValues

  // ---------------------------------------------------------------------------
  // Closed enumerations
  // ---------------------------------------------------------------------------

  datatype Confidence = High | Medium | Low

  const ConfidenceNames: seq<string> := ["high", "medium", "low"]

  function ConfidenceName(c: Confidence): (s: string)
    ensures ParseConfidence(s) == Some(c)
  {
    match c
    case High => "high"
    case Medium => "medium"
    case Low => "low"
  }

  function ParseConfidence(s: string): (r: Option<Confidence>)
    ensures r.Some? <==> s in ConfidenceNames
  {
    if s == "high" then Some(High)
    else if s == "medium" then Some(Medium)
    else if s == "low" then Some(Low)
    else None
  }

  datatype SourceType =
    | StarterAmount | Cni | Ecf | EbitdaFc | EquityProceeds
    | AssetSaleProceeds | InvestmentReturns | DeclinedProceeds | DebtConversion

  const SourceTypeNames: seq<string> := [
    "starter_amount", "cni", "ecf", "ebitda_fc", "equity_proceeds",
    "asset_sale_proceeds", "investment_returns", "declined_proceeds", "debt_conversion"]

  function SourceTypeName(t: SourceType): (s: string)
    ensures ParseSourceType(s) == Some(t)
  {
    match t
    case StarterAmount => "starter_amount"
    case Cni => "cni"
    case Ecf => "ecf"
    case EbitdaFc => "ebitda_fc"
    case EquityProceeds => "equity_proceeds"
    case AssetSaleProceeds => "asset_sale_proceeds"
    case InvestmentReturns => "investment_returns"
    case DeclinedProceeds => "declined_proceeds"
    case DebtConversion => "debt_conversion"
  }

  function ParseSourceType(s: string): (r: Option<SourceType>)
    ensures r.Some? <==> s in SourceTypeNames
  {
    if s == "starter_amount" then Some(StarterAmount)
    else if s == "cni" then Some(Cni)
    else if s == "ecf" then Some(Ecf)
    else if s == "ebitda_fc" then Some(EbitdaFc)
    else if s == "equity_proceeds" then Some(EquityProceeds)
    else if s == "asset_sale_proceeds" then Some(AssetSaleProceeds)
    else if s == "investment_returns" then Some(InvestmentReturns)
    else if s == "declined_proceeds" then Some(DeclinedProceeds)
    else if s == "debt_conversion" then Some(DebtConversion)
    else None
  }

  datatype RatioType = FirstLien | Secured | Total | SeniorSecured | Net

  const RatioTypeNames: seq<string> := ["first_lien", "secured", "total", "senior_secured", "net"]

  function RatioTypeName(t: RatioType): (s: string)
    ensures ParseRatioType(s) == Some(t)
  {
    match t
    case FirstLien => "first_lien"
    case Secured => "secured"
    case Total => "total"
    case SeniorSecured => "senior_secured"
    case Net => "net"
  }

  function ParseRatioType(s: string): (r: Option<RatioType>)
    ensures r.Some? <==> s in RatioTypeNames
  {
    if s == "first_lien" then Some(FirstLien)
    else if s == "secured" then Some(Secured)
    else if s == "total" then Some(Total)
    else if s == "senior_secured" then Some(SeniorSecured)
    else if s == "net" then Some(Net)
    else None
  }

  datatype ExceptionType =
    | NonexclusiveLicense | OrdinaryCourse | Intercompany | FairValue
    | LicenseBack | ImmaterialIp | RequiredByLaw

  const ExceptionTypeNames: seq<string> := [
    "nonexclusive_license", "ordinary_course", "intercompany", "fair_value",
    "license_back", "immaterial_ip", "required_by_law"]

  function ExceptionTypeName(t: ExceptionType): (s: string)
    ensures ParseExceptionType(s) == Some(t)
  {
    match t
    case NonexclusiveLicense => "nonexclusive_license"
    case OrdinaryCourse => "ordinary_course"
    case Intercompany => "intercompany"
    case FairValue => "fair_value"
    case LicenseBack => "license_back"
    case ImmaterialIp => "immaterial_ip"
    case RequiredByLaw => "required_by_law"
  }

  function ParseExceptionType(s: string): (r: Option<ExceptionType>)
    ensures r.Some? <==> s in ExceptionTypeNames
  {
    if s == "nonexclusive_license" then Some(NonexclusiveLicense)
    else if s == "ordinary_course" then Some(OrdinaryCourse)
    else if s == "intercompany" then Some(Intercompany)
    else if s == "fair_value" then Some(FairValue)
    else if s == "license_back" then Some(LicenseBack)
    else if s == "immaterial_ip" then Some(ImmaterialIp)
    else if s == "required_by_law" then Some(RequiredByLaw)
    else None
  }

  datatype IpType = Patents | Trademarks | Copyrights | TradeSecrets | Licenses | DomainNames

  const IpTypeNames: seq<string> := [
    "patents", "trademarks", "copyrights", "trade_secrets", "licenses", "domain_names"]

  function IpTypeName(t: IpType): (s: string)
    ensures ParseIpType(s) == Some(t)
  {
    match t
    case Patents => "patents"
    case Trademarks => "trademarks"
    case Copyrights => "copyrights"
    case TradeSecrets => "trade_secrets"
    case Licenses => "licenses"
    case DomainNames => "domain_names"
  }

  function ParseIpType(s: string): (r: Option<IpType>)
    ensures r.Some? <==> s in IpTypeNames
  {
    if s == "patents" then Some(Patents)
    else if s == "trademarks" then Some(Trademarks)
    else if s == "copyrights" then Some(Copyrights)
    else if s == "trade_secrets" then Some(TradeSecrets)
    else if s == "licenses" then Some(Licenses)
    else if s == "domain_names" then Some(DomainNames)
    else None
  }

  datatype BoundParty = Borrower | Guarantors | RestrictedSubs | LoanParties | Holdings

  const BoundPartyNames: seq<string> := [
    "borrower", "guarantors", "restricted_subs", "loan_parties", "holdings"]

  function BoundPartyName(p: BoundParty): (s: string)
    ensures ParseBoundParty(s) == Some(p)
  {
    match p
    case Borrower => "borrower"
    case Guarantors => "guarantors"
    case RestrictedSubs => "restricted_subs"
    case LoanParties => "loan_parties"
    case Holdings => "holdings"
  }

  function ParseBoundParty(s: string): (r: Option<BoundParty>)
    ensures r.Some? <==> s in BoundPartyNames
  {
    if s == "borrower" then Some(Borrower)
    else if s == "guarantors" then Some(Guarantors)
    else if s == "restricted_subs" then Some(RestrictedSubs)
    else if s == "loan_parties" then Some(LoanParties)
    else if s == "holdings" then Some(Holdings)
    else None
  }

  datatype AppliesTo = AssetSales | EcfSweep | DebtIssuance | AllSweeps

  const AppliesToNames: seq<string> := ["asset_sales", "ecf", "debt_issuance", "all"]

  function AppliesToName(a: AppliesTo): (s: string)
    ensures ParseAppliesTo(s) == Some(a)
  {
    match a
    case AssetSales => "asset_sales"
    case EcfSweep => "ecf"
    case DebtIssuance => "debt_issuance"
    case AllSweeps => "all"
  }

  function ParseAppliesTo(s: string): (r: Option<AppliesTo>)
    ensures r.Some? <==> s in AppliesToNames
  {
    if s == "asset_sales" then Some(AssetSales)
    else if s == "ecf" then Some(EcfSweep)
    else if s == "debt_issuance" then Some(DebtIssuance)
    else if s == "all" then Some(AllSweeps)
    else None
  }

  datatype ThresholdType = Individual | Annual

  const ThresholdTypeNames: seq<string> := ["individual", "annual"]

  function ThresholdTypeName(t: ThresholdType): (s: string)
    ensures ParseThresholdType(s) == Some(t)
  {
    match t
    case Individual => "individual"
    case Annual => "annual"
  }

  function ParseThresholdType(s: string): (r: Option<ThresholdType>)
    ensures r.Some? <==> s in ThresholdTypeNames
  {
    if s == "individual" then Some(Individual)
    else if s == "annual" then Some(Annual)
    else None
  }

  /** The baskets capacity can be moved out of. */
  datatype ReallocSource =
    | FromInvestment | FromRdp | FromBuilder | FromGeneralRp | FromPrepayment | FromIntercompany

  const ReallocSourceNames: seq<string> := [
    "investment", "rdp", "builder", "general_rp", "prepayment", "intercompany"]

  function ReallocSourceName(b: ReallocSource): (s: string)
    ensures ParseReallocSource(s) == Some(b)
  {
    match b
    case FromInvestment => "investment"
    case FromRdp => "rdp"
    case FromBuilder => "builder"
    case FromGeneralRp => "general_rp"
    case FromPrepayment => "prepayment"
    case FromIntercompany => "intercompany"
  }

  function ParseReallocSource(s: string): (r: Option<ReallocSource>)
    ensures r.Some? <==> s in ReallocSourceNames
  {
    if s == "investment" then Some(FromInvestment)
    else if s == "rdp" then Some(FromRdp)
    else if s == "builder" then Some(FromBuilder)
    else if s == "general_rp" then Some(FromGeneralRp)
    else if s == "prepayment" then Some(FromPrepayment)
    else if s == "intercompany" then Some(FromIntercompany)
    else None
  }

  /** The baskets capacity can be moved into. */
  datatype ReallocTarget = ToGeneralRp | ToInvestment | ToRdp | ToBuilder

  const ReallocTargetNames: seq<string> := ["general_rp", "investment", "rdp", "builder"]

  function ReallocTargetName(b: ReallocTarget): (s: string)
    ensures ParseReallocTarget(s) == Some(b)
  {
    match b
    case ToGeneralRp => "general_rp"
    case ToInvestment => "investment"
    case ToRdp => "rdp"
    case ToBuilder => "builder"
  }

  function ParseReallocTarget(s: string): (r: Option<ReallocTarget>)
    ensures r.Some? <==> s in ReallocTargetNames
  {
    if s == "general_rp" then Some(ToGeneralRp)
    else if s == "investment" then Some(ToInvestment)
    else if s == "rdp" then Some(ToRdp)
    else if s == "builder" then Some(ToBuilder)
    else None
  }

  /** The sizes of the closed enumerations, each listed without repetition. */
  lemma EnumerationSizes()
    ensures |ConfidenceNames| == 3 && |SourceTypeNames| == 9 && |RatioTypeNames| == 5
    ensures |ExceptionTypeNames| == 7 && |IpTypeNames| == 6 && |BoundPartyNames| == 5
    ensures |AppliesToNames| == 4 && |ThresholdTypeNames| == 2
    ensures |ReallocSourceNames| == 6 && |ReallocTargetNames| == 4
    ensures forall i, j :: 0 <= i < j < |SourceTypeNames| ==> SourceTypeNames[i] != SourceTypeNames[j]
    ensures forall i, j :: 0 <= i < j < |ExceptionTypeNames| ==> ExceptionTypeNames[i] != ExceptionTypeNames[j]
    ensures forall i, j :: 0 <= i < j < |ConfidenceNames| ==> ConfidenceNames[i] != ConfidenceNames[j]
    ensures forall i, j :: 0 <= i < j < |RatioTypeNames| ==> RatioTypeNames[i] != RatioTypeNames[j]
    ensures forall i, j :: 0 <= i < j < |IpTypeNames| ==> IpTypeNames[i] != IpTypeNames[j]
    ensures forall i, j :: 0 <= i < j < |BoundPartyNames| ==> BoundPartyNames[i] != BoundPartyNames[j]
    ensures forall i, j :: 0 <= i < j < |AppliesToNames| ==> AppliesToNames[i] != AppliesToNames[j]
    ensures forall i, j :: 0 <= i < j < |ThresholdTypeNames| ==> ThresholdTypeNames[i] != ThresholdTypeNames[j]
    ensures forall i, j :: 0 <= i < j < |ReallocSourceNames| ==> ReallocSourceNames[i] != ReallocSourceNames[j]
    ensures forall i, j :: 0 <= i < j < |ReallocTargetNames| ==> ReallocTargetNames[i] != ReallocTargetNames[j]
  {
  }

  /** "prepayment" and "intercompany" can only be a reallocation source. */
  lemma SourceOnlyBaskets()
    ensures ParseReallocSource("prepayment").Some? && ParseReallocTarget("prepayment").None?
    ensures ParseReallocSource("intercompany").Some? && ParseReallocTarget("intercompany").None?
    ensures forall t :: ParseReallocSource(ReallocTargetName(t)).Some?
  {
    forall t: ReallocTarget ensures ParseReallocSource(ReallocTargetName(t)).Some? {
      match t
      case ToGeneralRp =>
      case ToInvestment =>
      case ToRdp =>
      case ToBuilder =>
    }
  }

  // ---------------------------------------------------------------------------
  // Records
  // ---------------------------------------------------------------------------

  datatype Provenance = Provenance(
    sectionReference: Option<string>,
    verbatimText: Option<string>,
    sourcePage: Option<int>,
    confidence: Confidence)

  datatype BuilderSource = BuilderSource(
    sourceType: SourceType,
    percentage: Option<real>,
    dollarAmount: Option<real>,
    ebitdaPercentage: Option<real>,
    fcMultiplier: Option<real>,
    floorAmount: Option<real>,
    usesGreaterOf: bool,
    isPrimaryTest: bool,
    provenance: Option<Provenance>)

  datatype BuilderBasket = BuilderBasket(
    exists_: bool,
    basketName: Option<string>,
    startDateLanguage: Option<string>,
    usesGreatestOfTests: bool,
    sources: seq<BuilderSource>,
    provenance: Option<Provenance>)

  datatype RatioBasket = RatioBasket(
    exists_: bool,
    ratioThreshold: Option<real>,
    ratioType: RatioType,
    isUnlimitedIfMet: bool,
    hasNoWorseTest: bool,
    noWorseThreshold: Option<real>,
    provenance: Option<Provenance>)

  datatype GeneralRPBasket = GeneralRPBasket(
    exists_: bool,
    dollarCap: Option<real>,
    ebitdaPercentage: Option<real>,
    usesGreaterOf: bool,
    requiresNoDefault: bool,
    requiresRatioTest: bool,
    ratioThreshold: Option<real>,
    provenance: Option<Provenance>)

  datatype ManagementEquityBasket = ManagementEquityBasket(
    exists_: bool,
    annualCap: Option<real>,
    ebitdaPercentage: Option<real>,
    usesGreaterOf: bool,
    permitsCarryforward: bool,
    postIpoIncrease: Option<real>,
    coveredPersons: seq<string>,
    provenance: Option<Provenance>)

  datatype TaxDistributionBasket = TaxDistributionBasket(
    exists_: bool,
    isUnlimited: bool,
    standaloneTaxpayerLimit: bool,
    coveredTaxGroups: seq<string>,
    provenance: Option<Provenance>)

  datatype BlockerException = BlockerException(
    exceptionType: ExceptionType,
    scopeLimitation: Option<string>,
    provenance: Option<Provenance>)

  datatype JCrewBlocker = JCrewBlocker(
    exists_: bool,
    coversTransfer: bool,
    coversDesignation: bool,
    coveredIpTypes: seq<IpType>,
    boundParties: seq<BoundParty>,
    exceptions: seq<BlockerException>,
    materialIpDefinition: Option<string>,
    provenance: Option<Provenance>)

  datatype UnsubDesignation = UnsubDesignation(
    permitted: bool,
    dollarCap: Option<real>,
    ebitdaPercentage: Option<real>,
    usesGreaterOf: bool,
    requiresNoDefault: bool,
    requiresBoardApproval: bool,
    requiresRatioTest: bool,
    ratioThreshold: Option<real>,
    permitsEquityDividend: bool,
    permitsAssetDividend: bool,
    provenance: Option<Provenance>)

  datatype SweepTier = SweepTier(
    leverageThreshold: real,
    sweepPercentage: real,
    isHighestTier: bool,
    appliesTo: AppliesTo,
    provenance: Option<Provenance>)

  datatype DeMinimisThreshold = DeMinimisThreshold(
    thresholdType: ThresholdType,
    dollarAmount: real,
    ebitdaPercentage: Option<real>,
    usesGreaterOf: bool,
    permitsCarryforward: bool,
    provenance: Option<Provenance>)

  datatype BasketReallocation = BasketReallocation(
    sourceBasket: ReallocSource,
    targetBasket: ReallocTarget,
    reallocationCap: Option<real>,
    ebitdaPercentage: Option<real>,
    usesGreaterOf: bool,
    isBidirectional: bool,
    provenance: Option<Provenance>)

  datatype RPExtractionV4 = RPExtractionV4(
    builderBasket: Option<BuilderBasket>,
    ratioBasket: Option<RatioBasket>,
    generalRpBasket: Option<GeneralRPBasket>,
    managementEquityBasket: Option<ManagementEquityBasket>,
    taxDistributionBasket: Option<TaxDistributionBasket>,
    jcrewBlocker: Option<JCrewBlocker>,
    unsubDesignation: Option<UnsubDesignation>,
    sweepTiers: seq<SweepTier>,
    deMinimisThresholds: seq<DeMinimisThreshold>,
    reallocations: seq<BasketReallocation>,
    extractionVersion: string,
    extractionConfidence: Confidence)

  // ---------------------------------------------------------------------------
  // Field readers: how one declared field is read from a decoded object
  // ---------------------------------------------------------------------------

  type Fields = map<string, Json>

  /** `Optional[float] = None`: absent or null is None; an int is widened. */
  function OptFloat(o: Fields, k: string): (r: Result<Option<real>>)
    ensures k !in o ==> r == Success(None)
  {
    if k !in o then Success(None)
    else match o[k]
      case JNull => Success(None)
      case JInt(i) => Success(Some(i as real))
      case JFloat(f) => Success(Some(f))
      case _ => Failure(k + ": Input should be a valid number")
  }

  /** `float = Field(...)`: required, no default. */
  function ReqFloat(o: Fields, k: string): (r: Result<real>)
    ensures k !in o ==> r.Failure?
  {
    if k !in o then Failure(k + ": Field required")
    else match o[k]
      case JInt(i) => Success(i as real)
      case JFloat(f) => Success(f)
      case _ => Failure(k + ": Input should be a valid number")
  }

  /** `bool = False`. */
  function Flag(o: Fields, k: string): (r: Result<bool>)
    ensures k !in o ==> r == Success(false)
  {
    if k !in o then Success(false)
    else match o[k]
      case JBool(b) => Success(b)
      case _ => Failure(k + ": Input should be a valid boolean")
  }

  /** `Optional[str] = None`. */
  function OptStr(o: Fields, k: string): (r: Result<Option<string>>)
    ensures k !in o ==> r == Success(None)
  {
    if k !in o then Success(None)
    else match o[k]
      case JNull => Success(None)
      case JStr(s) => Success(Some(s))
      case _ => Failure(k + ": Input should be a valid string")
  }

  /** `Optional[int] = None`. */
  function OptInt(o: Fields, k: string): (r: Result<Option<int>>)
    ensures k !in o ==> r == Success(None)
  {
    if k !in o then Success(None)
    else match o[k]
      case JNull => Success(None)
      case JInt(i) => Success(Some(i))
      case _ => Failure(k + ": Input should be a valid integer")
  }

  /** `str = d`. */
  function StrOr(o: Fields, k: string, d: string): (r: Result<string>)
    ensures k !in o ==> r == Success(d)
  {
    if k !in o then Success(d)
    else match o[k]
      case JStr(s) => Success(s)
      case _ => Failure(k + ": Input should be a valid string")
  }

  /** A Literal field: `parse` accepts exactly the listed values. */
  function Literal<T>(o: Fields, k: string, parse: string -> Option<T>, default: Option<T>): (r: Result<T>)
    ensures k !in o ==> (r.Success? <==> default.Some?)
    ensures k !in o && default.Some? ==> r == Success(default.value)
    ensures k in o ==> (r.Success? <==> o[k].JStr? && parse(o[k].s).Some?)
    ensures k in o && r.Success? ==> Some(r.value) == parse(o[k].s)
  {
    if k !in o then
      if default.Some? then Success(default.value) else Failure(k + ": Field required")
    else match o[k]
      case JStr(s) =>
        (match parse(s)
         case Some(v) => Success(v)
         case None => Failure(k + ": Input should be one of the listed values"))
      case _ => Failure(k + ": Input should be a valid string")
  }

  /** Each element validated in order; the first failure fails the list. */
  function EachOf<T>(items: seq<Json>, validate: Json -> Result<T>): (r: Result<seq<T>>)
    ensures r.Success? <==> forall i :: 0 <= i < |items| ==> validate(items[i]).Success?
    ensures r.Success? ==> |r.value| == |items|
    ensures r.Success? ==> forall i :: 0 <= i < |items| ==> validate(items[i]) == Success(r.value[i])
  {
    if items == [] then Success([])
    else
      match validate(items[0])
      case Failure(e) => Failure(e)
      case Success(v) =>
        match EachOf(items[1..], validate)
        case Failure(e) => Failure(e)
        case Success(vs) =>
          assert forall i :: 1 <= i < |items| ==> items[i] == items[1..][i - 1];
          Success([v] + vs)
  }

  /** `List[T] = Field(default_factory=list)`. */
  function ListOf<T>(o: Fields, k: string, validate: Json -> Result<T>): (r: Result<seq<T>>)
    ensures k !in o ==> r == Success([])
    ensures k in o && r.Success? ==> o[k].JArray? && |r.value| == |o[k].items|
    ensures k in o && r.Success? ==>
      forall i :: 0 <= i < |o[k].items| ==> validate(o[k].items[i]) == Success(r.value[i])
  {
    if k !in o then Success([])
    else match o[k]
      case JArray(items) => EachOf(items, validate)
      case _ => Failure(k + ": Input should be a valid list")
  }

  /** `Optional[Model] = None`. */
  function OptModel<T>(o: Fields, k: string, validate: Json -> Result<T>): (r: Result<Option<T>>)
    ensures k !in o ==> r == Success(None)
    ensures k in o && o[k] != JNull ==> (r.Success? <==> validate(o[k]).Success?)
  {
    if k !in o then Success(None)
    else if o[k] == JNull then Success(None)
    else
      match validate(o[k])
      case Failure(e) => Failure(e)
      case Success(v) => Success(Some(v))
  }

  function StrItem(j: Json): Result<string>
  {
    if j.JStr? then Success(j.s) else Failure("Input should be a valid string")
  }

  function LiteralItem<T>(parse: string -> Option<T>): Json -> Result<T>
  {
    (j: Json) => if j.JStr? && parse(j.s).Some? then Success(parse(j.s).value)
         else Failure("Input should be one of the listed values")
  }

  // ---------------------------------------------------------------------------
  // model_validate, one model at a time
  // ---------------------------------------------------------------------------

  function ValidateProvenance(j: Json): Result<Provenance>
  {
    if !j.JObject? then Failure("Input should be a valid dictionary") else
    var o := j.fields;
    var sectionReference :- OptStr(o, "section_reference");
    var verbatimText :- OptStr(o, "verbatim_text");
    var sourcePage :- OptInt(o, "source_page");
    var confidence :- Literal(o, "confidence", ParseConfidence, Some(Medium));
    Success(Provenance(sectionReference, verbatimText, sourcePage, confidence))
  }

  function ValidateBuilderSource(j: Json): Result<BuilderSource>
  {
    if !j.JObject? then Failure("Input should be a valid dictionary") else
    var o := j.fields;
    var sourceType :- Literal(o, "source_type", ParseSourceType, None);
    var percentage :- OptFloat(o, "percentage");
    var dollarAmount :- OptFloat(o, "dollar_amount");
    var ebitdaPercentage :- OptFloat(o, "ebitda_percentage");
    var fcMultiplier :- OptFloat(o, "fc_multiplier");
    var floorAmount :- OptFloat(o, "floor_amount");
    var usesGreaterOf :- Flag(o, "uses_greater_of");
    var isPrimaryTest :- Flag(o, "is_primary_test");
    var provenance :- OptModel(o, "provenance", ValidateProvenance);
    Success(BuilderSource(sourceType, percentage, dollarAmount, ebitdaPercentage,
      fcMultiplier, floorAmount, usesGreaterOf, isPrimaryTest, provenance))
  }

  function ValidateBuilderBasket(j: Json): Result<BuilderBasket>
  {
    if !j.JObject? then Failure("Input should be a valid dictionary") else
    var o := j.fields;
    var exists_ :- Flag(o, "exists");
    var basketName :- OptStr(o, "basket_name");
    var startDateLanguage :- OptStr(o, "start_date_language");
    var usesGreatestOfTests :- Flag(o, "uses_greatest_of_tests");
    var sources :- ListOf(o, "sources", ValidateBuilderSource);
    var provenance :- OptModel(o, "provenance", ValidateProvenance);
    Success(BuilderBasket(exists_, basketName, startDateLanguage, usesGreatestOfTests, sources, provenance))
  }

  function ValidateRatioBasket(j: Json): Result<RatioBasket>
  {
    if !j.JObject? then Failure("Input should be a valid dictionary") else
    var o := j.fields;
    var exists_ :- Flag(o, "exists");
    var ratioThreshold :- OptFloat(o, "ratio_threshold");
    var ratioType :- Literal(o, "ratio_type", ParseRatioType, Some(FirstLien));
    var isUnlimitedIfMet :- Flag(o, "is_unlimited_if_met");
    var hasNoWorseTest :- Flag(o, "has_no_worse_test");
    var noWorseThreshold :- OptFloat(o, "no_worse_threshold");
    var provenance :- OptModel(o, "provenance", ValidateProvenance);
    Success(RatioBasket(exists_, ratioThreshold, ratioType, isUnlimitedIfMet,
      hasNoWorseTest, noWorseThreshold, provenance))
  }

  function ValidateGeneralRPBasket(j: Json): Result<GeneralRPBasket>
  {
    if !j.JObject? then Failure("Input should be a valid dictionary") else
    var o := j.fields;
    var exists_ :- Flag(o, "exists");
    var dollarCap :- OptFloat(o, "dollar_cap");
    var ebitdaPercentage :- OptFloat(o, "ebitda_percentage");
    var usesGreaterOf :- Flag(o, "uses_greater_of");
    var requiresNoDefault :- Flag(o, "requires_no_default");
    var requiresRatioTest :- Flag(o, "requires_ratio_test");
    var ratioThreshold :- OptFloat(o, "ratio_threshold");
    var provenance :- OptModel(o, "provenance", ValidateProvenance);
    Success(GeneralRPBasket(exists_, dollarCap, ebitdaPercentage, usesGreaterOf,
      requiresNoDefault, requiresRatioTest, ratioThreshold, provenance))
  }

  function ValidateManagementEquityBasket(j: Json): Result<ManagementEquityBasket>
  {
    if !j.JObject? then Failure("Input should be a valid dictionary") else
    var o := j.fields;
    var exists_ :- Flag(o, "exists");
    var annualCap :- OptFloat(o, "annual_cap");
    var ebitdaPercentage :- OptFloat(o, "ebitda_percentage");
    var usesGreaterOf :- Flag(o, "uses_greater_of");
    var permitsCarryforward :- Flag(o, "permits_carryforward");
    var postIpoIncrease :- OptFloat(o, "post_ipo_increase");
    var coveredPersons :- ListOf(o, "covered_persons", StrItem);
    var provenance :- OptModel(o, "provenance", ValidateProvenance);
    Success(ManagementEquityBasket(exists_, annualCap, ebitdaPercentage, usesGreaterOf,
      permitsCarryforward, postIpoIncrease, coveredPersons, provenance))
  }

  function ValidateTaxDistributionBasket(j: Json): Result<TaxDistributionBasket>
  {
    if !j.JObject? then Failure("Input should be a valid dictionary") else
    var o := j.fields;
    var exists_ :- Flag(o, "exists");
    var isUnlimited :- Flag(o, "is_unlimited");
    var standaloneTaxpayerLimit :- Flag(o, "standalone_taxpayer_limit");
    var coveredTaxGroups :- ListOf(o, "covered_tax_groups", StrItem);
    var provenance :- OptModel(o, "provenance", ValidateProvenance);
    Success(TaxDistributionBasket(exists_, isUnlimited, standaloneTaxpayerLimit, coveredTaxGroups, provenance))
  }

  function ValidateBlockerException(j: Json): Result<BlockerException>
  {
    if !j.JObject? then Failure("Input should be a valid dictionary") else
    var o := j.fields;
    var exceptionType :- Literal(o, "exception_type", ParseExceptionType, None);
    var scopeLimitation :- OptStr(o, "scope_limitation");
    var provenance :- OptModel(o, "provenance", ValidateProvenance);
    Success(BlockerException(exceptionType, scopeLimitation, provenance))
  }

  function ValidateJCrewBlocker(j: Json): Result<JCrewBlocker>
  {
    if !j.JObject? then Failure("Input should be a valid dictionary") else
    var o := j.fields;
    var exists_ :- Flag(o, "exists");
    var coversTransfer :- Flag(o, "covers_transfer");
    var coversDesignation :- Flag(o, "covers_designation");
    var coveredIpTypes :- ListOf(o, "covered_ip_types", LiteralItem(ParseIpType));
    var boundParties :- ListOf(o, "bound_parties", LiteralItem(ParseBoundParty));
    var exceptions :- ListOf(o, "exceptions", ValidateBlockerException);
    var materialIpDefinition :- OptStr(o, "material_ip_definition");
    var provenance :- OptModel(o, "provenance", ValidateProvenance);
    Success(JCrewBlocker(exists_, coversTransfer, coversDesignation, coveredIpTypes,
      boundParties, exceptions, materialIpDefinition, provenance))
  }

  function ValidateUnsubDesignation(j: Json): Result<UnsubDesignation>
  {
    if !j.JObject? then Failure("Input should be a valid dictionary") else
    var o := j.fields;
    var permitted :- Flag(o, "permitted");
    var dollarCap :- OptFloat(o, "dollar_cap");
    var ebitdaPercentage :- OptFloat(o, "ebitda_percentage");
    var usesGreaterOf :- Flag(o, "uses_greater_of");
    var requiresNoDefault :- Flag(o, "requires_no_default");
    var requiresBoardApproval :- Flag(o, "requires_board_approval");
    var requiresRatioTest :- Flag(o, "requires_ratio_test");
    var ratioThreshold :- OptFloat(o, "ratio_threshold");
    var permitsEquityDividend :- Flag(o, "permits_equity_dividend");
    var permitsAssetDividend :- Flag(o, "permits_asset_dividend");
    var provenance :- OptModel(o, "provenance", ValidateProvenance);
    Success(UnsubDesignation(permitted, dollarCap, ebitdaPercentage, usesGreaterOf,
      requiresNoDefault, requiresBoardApproval, requiresRatioTest, ratioThreshold,
      permitsEquityDividend, permitsAssetDividend, provenance))
  }

  function ValidateSweepTier(j: Json): (r: Result<SweepTier>)
    ensures j.JObject? && ("leverage_threshold" !in j.fields || "sweep_percentage" !in j.fields) ==> r.Failure?
  {
    if !j.JObject? then Failure("Input should be a valid dictionary") else
    var o := j.fields;
    var leverageThreshold :- ReqFloat(o, "leverage_threshold");
    var sweepPercentage :- ReqFloat(o, "sweep_percentage");
    var isHighestTier :- Flag(o, "is_highest_tier");
    var appliesTo :- Literal(o, "applies_to", ParseAppliesTo, Some(AssetSales));
    var provenance :- OptModel(o, "provenance", ValidateProvenance);
    Success(SweepTier(leverageThreshold, sweepPercentage, isHighestTier, appliesTo, provenance))
  }

  function ValidateDeMinimisThreshold(j: Json): (r: Result<DeMinimisThreshold>)
    ensures j.JObject? && ("threshold_type" !in j.fields || "dollar_amount" !in j.fields) ==> r.Failure?
  {
    if !j.JObject? then Failure("Input should be a valid dictionary") else
    var o := j.fields;
    var thresholdType :- Literal(o, "threshold_type", ParseThresholdType, None);
    var dollarAmount :- ReqFloat(o, "dollar_amount");
    var ebitdaPercentage :- OptFloat(o, "ebitda_percentage");
    var usesGreaterOf :- Flag(o, "uses_greater_of");
    var permitsCarryforward :- Flag(o, "permits_carryforward");
    var provenance :- OptModel(o, "provenance", ValidateProvenance);
    Success(DeMinimisThreshold(thresholdType, dollarAmount, ebitdaPercentage, usesGreaterOf,
      permitsCarryforward, provenance))
  }

  function ValidateBasketReallocation(j: Json): (r: Result<BasketReallocation>)
    ensures j.JObject? && ("source_basket" !in j.fields || "target_basket" !in j.fields) ==> r.Failure?
  {
    if !j.JObject? then Failure("Input should be a valid dictionary") else
    var o := j.fields;
    var sourceBasket :- Literal(o, "source_basket", ParseReallocSource, None);
    var targetBasket :- Literal(o, "target_basket", ParseReallocTarget, None);
    var reallocationCap :- OptFloat(o, "reallocation_cap");
    var ebitdaPercentage :- OptFloat(o, "ebitda_percentage");
    var usesGreaterOf :- Flag(o, "uses_greater_of");
    var isBidirectional :- Flag(o, "is_bidirectional");
    var provenance :- OptModel(o, "provenance", ValidateProvenance);
    Success(BasketReallocation(sourceBasket, targetBasket, reallocationCap, ebitdaPercentage,
      usesGreaterOf, isBidirectional, provenance))
  }

  /** `RPExtractionV4.model_validate`. Keys the model does not declare are ignored. */
  function ValidateExtraction(j: Json): (r: Result<RPExtractionV4>)
    ensures r.Success? ==> j.JObject?
    ensures r.Success? && "extraction_version" !in j.fields ==> r.value.extractionVersion == "4.0"
    ensures r.Success? && "reallocations" !in j.fields ==> r.value.reallocations == []
  {
    if !j.JObject? then Failure("Input should be a valid dictionary") else
    var o := j.fields;
    var builderBasket :- OptModel(o, "builder_basket", ValidateBuilderBasket);
    var ratioBasket :- OptModel(o, "ratio_basket", ValidateRatioBasket);
    var generalRpBasket :- OptModel(o, "general_rp_basket", ValidateGeneralRPBasket);
    var managementEquityBasket :- OptModel(o, "management_equity_basket", ValidateManagementEquityBasket);
    var taxDistributionBasket :- OptModel(o, "tax_distribution_basket", ValidateTaxDistributionBasket);
    var jcrewBlocker :- OptModel(o, "jcrew_blocker", ValidateJCrewBlocker);
    var unsubDesignation :- OptModel(o, "unsub_designation", ValidateUnsubDesignation);
    var sweepTiers :- ListOf(o, "sweep_tiers", ValidateSweepTier);
    var deMinimisThresholds :- ListOf(o, "de_minimis_thresholds", ValidateDeMinimisThreshold);
    var reallocations :- ListOf(o, "reallocations", ValidateBasketReallocation);
    var extractionVersion :- StrOr(o, "extraction_version", "4.0");
    var extractionConfidence :- Literal(o, "extraction_confidence", ParseConfidence, Some(Medium));
    Success(RPExtractionV4(builderBasket, ratioBasket, generalRpBasket, managementEquityBasket,
      taxDistributionBasket, jcrewBlocker, unsubDesignation, sweepTiers, deMinimisThresholds,
      reallocations, extractionVersion, extractionConfidence))
  }

  // ---------------------------------------------------------------------------
  // Properties of validation
  // ---------------------------------------------------------------------------

  /** An empty object validates to the all-defaults record. */
  lemma EmptyExtractionValidates()
    ensures ValidateExtraction(JObject(map[])) ==
      Success(RPExtractionV4(None, None, None, None, None, None, None, [], [], [], "4.0", Medium))
  {
  }

  /** Defaults of the component models when only the gate flag is supplied. */
  lemma ComponentDefaults()
    ensures ValidateRatioBasket(JObject(map[])) ==
      Success(RatioBasket(false, None, FirstLien, false, false, None, None))
    ensures ValidateUnsubDesignation(JObject(map[])) ==
      Success(UnsubDesignation(false, None, None, false, false, false, false, None, false, false, None))
    ensures ValidateProvenance(JObject(map[])) == Success(Provenance(None, None, None, Medium))
    ensures ValidateBuilderBasket(JObject(map["exists" := JBool(true)])) ==
      Success(BuilderBasket(true, None, None, false, [], None))
  {
  }

  /** A sweep tier needs only its two thresholds; `applies_to` defaults to asset sales. */
  lemma SweepTierDefaults(lev: real, pct: real)
    ensures ValidateSweepTier(JObject(map["leverage_threshold" := JFloat(lev), "sweep_percentage" := JFloat(pct)]))
      == Success(SweepTier(lev, pct, false, AssetSales, None))
  {
  }

  /** Every listed enumeration value is accepted in its field, and only those. */
  lemma {:induction false} BuilderSourceTypeAccepted(s: string)
    ensures ValidateBuilderSource(JObject(map["source_type" := JStr(s)])).Success? <==> s in SourceTypeNames
    ensures s in SourceTypeNames ==>
      ValidateBuilderSource(JObject(map["source_type" := JStr(s)])).value.sourceType == ParseSourceType(s).value
  {
  }

  lemma {:induction false} ExceptionTypeAccepted(s: string)
    ensures ValidateBlockerException(JObject(map["exception_type" := JStr(s)])).Success? <==> s in ExceptionTypeNames
  {
  }

  /** A builder source or blocker exception without its type is rejected. */
  lemma RequiredTypes(o: Fields)
    ensures "source_type" !in o ==> ValidateBuilderSource(JObject(o)).Failure?
    ensures "exception_type" !in o ==> ValidateBlockerException(JObject(o)).Failure?
  {
  }

  /** Nested lists keep the supplied values in the supplied order. */
  lemma {:induction false} SourcesKeepOrder(o: Fields)
    requires ValidateBuilderBasket(JObject(o)).Success?
    requires "sources" in o
    ensures o["sources"].JArray?
    ensures var b := ValidateBuilderBasket(JObject(o)).value;
      |b.sources| == |o["sources"].items| &&
      forall i :: 0 <= i < |b.sources| ==> ValidateBuilderSource(o["sources"].items[i]) == Success(b.sources[i])
  {
    var r := ListOf(o, "sources", ValidateBuilderSource);
    assert r.Success?;
  }
}
