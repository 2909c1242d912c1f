/** The records exchanged between the agents: closed enumerations with their string values,
    optional metric fields, ESG scores on a 1..10 scale, analyst reports with a confidence in
    [0, 1], portfolio allocations, and the risk and review verdicts. Pydantic's construction-time
    validation is modelled as a constructor function returning a `Result`. */
module Schemas {
  import opened Common

  // ---------------------------------------------------------------------------
  // Recommendation

  datatype Recommendation = StrongBuy | Buy | Neutral | Sell | StrongSell

  /** Every recommendation, in declaration order. */
  const ALL_RECOMMENDATIONS: seq<Recommendation> := [StrongBuy, Buy, Neutral, Sell, StrongSell]

  /** The enum's string value. */
  function RecommendationValue(r: Recommendation): string
  {
    match r
    case StrongBuy => "STRONG_BUY"
    case Buy => "BUY"
    case Neutral => "NEUTRAL"
    case Sell => "SELL"
    case StrongSell => "STRONG_SELL"
  }

  /** Coercion of a string to the enum, as validation does; anything else is rejected. */
  function ParseRecommendation(s: string): (r: Option<Recommendation>)
    ensures r.Some? ==> RecommendationValue(r.value) == s
  {
    if s == "STRONG_BUY" then Some(StrongBuy)
    else if s == "BUY" then Some(Buy)
    else if s == "NEUTRAL" then Some(Neutral)
    else if s == "SELL" then Some(Sell)
    else if s == "STRONG_SELL" then Some(StrongSell)
    else None
  }

  /** The enum is closed: exactly five distinct values, each recovered from its string. */
  lemma RecommendationClosed()
    ensures |ALL_RECOMMENDATIONS| == 5
    ensures forall r: Recommendation :: r in ALL_RECOMMENDATIONS
    ensures forall i, j :: 0 <= i < j < 5 ==>
      RecommendationValue(ALL_RECOMMENDATIONS[i]) != RecommendationValue(ALL_RECOMMENDATIONS[j])
    ensures forall r: Recommendation :: ParseRecommendation(RecommendationValue(r)) == Some(r)
    ensures forall s :: ParseRecommendation(s).Some? <==>
      exists i :: 0 <= i < 5 && RecommendationValue(ALL_RECOMMENDATIONS[i]) == s
  {
    forall r: Recommendation
      ensures r in ALL_RECOMMENDATIONS
    {
      match r
      case StrongBuy => assert ALL_RECOMMENDATIONS[0] == r;
      case Buy => assert ALL_RECOMMENDATIONS[1] == r;
      case Neutral => assert ALL_RECOMMENDATIONS[2] == r;
      case Sell => assert ALL_RECOMMENDATIONS[3] == r;
      case StrongSell => assert ALL_RECOMMENDATIONS[4] == r;
    }
    forall s | ParseRecommendation(s).Some?
      ensures exists i :: 0 <= i < 5 && RecommendationValue(ALL_RECOMMENDATIONS[i]) == s
    {
      var r := ParseRecommendation(s).value;
      var i := match r
        case StrongBuy => 0 case Buy => 1 case Neutral => 2 case Sell => 3 case StrongSell => 4;
      assert RecommendationValue(ALL_RECOMMENDATIONS[i]) == s;
    }
  }

  // ---------------------------------------------------------------------------
  // Metrics

  /** Market metrics of one stock; every figure is optional, the currency defaults to CHF. */
  datatype Metrics = Metrics(
    marketCap: Option<real>,
    peRatio: Option<real>,
    pegRatio: Option<real>,
    dividendYield: Option<real>,
    eps: Option<real>,
    profitMargin: Option<real>,
    high52Week: Option<real>,
    low52Week: Option<real>,
    analystTargetPrice: Option<real>,
    currency: string)

  const DEFAULT_CURRENCY := "CHF"

  /** The input keys of the nine figures, in declaration order; the 52-week bounds are read
      from their aliases. */
  const METRIC_KEYS: seq<string> := ["market_cap", "pe_ratio", "peg_ratio", "dividend_yield", "eps",
    "profit_margin", "52_week_high", "52_week_low", "analyst_target_price"]

  function Lookup(fields: map<string, real>, key: string): Option<real>
  {
    if key in fields then Some(fields[key]) else None
  }

  /** Building `Metrics` from input fields: a missing figure is `None`, a missing currency is CHF. */
  function MetricsFromFields(fields: map<string, real>, currency: Option<string>): (m: Metrics)
    ensures m.currency == currency.GetOr(DEFAULT_CURRENCY)
    ensures fields == map[] && currency.None? ==>
      m == Metrics(None, None, None, None, None, None, None, None, None, "CHF")
  {
    Metrics(Lookup(fields, "market_cap"), Lookup(fields, "pe_ratio"), Lookup(fields, "peg_ratio"),
      Lookup(fields, "dividend_yield"), Lookup(fields, "eps"), Lookup(fields, "profit_margin"),
      Lookup(fields, "52_week_high"), Lookup(fields, "52_week_low"),
      Lookup(fields, "analyst_target_price"), currency.GetOr(DEFAULT_CURRENCY))
  }

  function Put(fields: map<string, real>, key: string, v: Option<real>): map<string, real>
  {
    if v.Some? then fields[key := v.value] else fields
  }

  /** The map holding each present value under its key. */
  function FromPairs(keys: seq<string>, vals: seq<Option<real>>): map<string, real>
    requires |keys| == |vals|
  {
    if |keys| == 0 then map[]
    else Put(FromPairs(keys[..|keys| - 1], vals[..|vals| - 1]), keys[|keys| - 1], vals[|vals| - 1])
  }

  predicate Distinct(keys: seq<string>)
  {
    forall i, j :: 0 <= i < j < |keys| ==> keys[i] != keys[j]
  }

  /** Only the given keys can be present. */
  lemma {:induction false} FromPairsDomain(keys: seq<string>, vals: seq<Option<real>>, k: string)
    requires |keys| == |vals|
    requires forall i :: 0 <= i < |keys| ==> keys[i] != k
    ensures k !in FromPairs(keys, vals)
    decreases |keys|
  {
    if |keys| > 0 {
      var n := |keys|;
      assert forall i :: 0 <= i < n - 1 ==> keys[..n - 1][i] == keys[i];
      FromPairsDomain(keys[..n - 1], vals[..n - 1], k);
    }
  }

  /** With distinct keys, each key looks up its own value. */
  lemma {:induction false} LookupFromPairs(keys: seq<string>, vals: seq<Option<real>>, i: int)
    requires |keys| == |vals| && Distinct(keys) && 0 <= i < |keys|
    ensures Lookup(FromPairs(keys, vals), keys[i]) == vals[i]
    decreases |keys|
  {
    var n := |keys|;
    var pk, pv := keys[..n - 1], vals[..n - 1];
    assert forall j :: 0 <= j < n - 1 ==> pk[j] == keys[j];
    if i < n - 1 {
      LookupFromPairs(pk, pv, i);
      assert keys[n - 1] != keys[i];
    } else {
      FromPairsDomain(pk, pv, keys[i]);
    }
  }

  /** The nine figures in the order of `METRIC_KEYS`. */
  function FieldValues(m: Metrics): seq<Option<real>>
  {
    [m.marketCap, m.peRatio, m.pegRatio, m.dividendYield, m.eps, m.profitMargin,
     m.high52Week, m.low52Week, m.analystTargetPrice]
  }

  /** Serialising by alias, leaving out absent figures. */
  function MetricsToFields(m: Metrics): map<string, real>
  {
    FromPairs(METRIC_KEYS, FieldValues(m))
  }

  /** Serialising and rebuilding gives back the same metrics. */
  lemma MetricsRoundTrip(m: Metrics)
    ensures MetricsFromFields(MetricsToFields(m), Some(m.currency)) == m
  {
    var ks, vs := METRIC_KEYS, FieldValues(m);
    assert Distinct(ks);
    forall i | 0 <= i < 9
      ensures Lookup(MetricsToFields(m), ks[i]) == vs[i]
    {
      LookupFromPairs(ks, vs, i);
    }
    var f := MetricsToFields(m);
    assert Lookup(f, ks[0]) == m.marketCap && Lookup(f, ks[1]) == m.peRatio;
    assert Lookup(f, ks[2]) == m.pegRatio && Lookup(f, ks[3]) == m.dividendYield;
    assert Lookup(f, ks[4]) == m.eps && Lookup(f, ks[5]) == m.profitMargin;
    assert Lookup(f, ks[6]) == m.high52Week && Lookup(f, ks[7]) == m.low52Week;
    assert Lookup(f, ks[8]) == m.analystTargetPrice;
  }

  // ---------------------------------------------------------------------------
  // ESG

  datatype ESGRating = Low | Medium | High | NotAvailable

  function ESGRatingValue(r: ESGRating): string
  {
    match r
    case Low => "Low"
    case Medium => "Medium"
    case High => "High"
    case NotAvailable => "N/A"
  }

  function ParseESGRating(s: string): (r: Option<ESGRating>)
    ensures r.Some? ==> ESGRatingValue(r.value) == s
  {
    if s == "Low" then Some(Low)
    else if s == "Medium" then Some(Medium)
    else if s == "High" then Some(High)
    else if s == "N/A" then Some(NotAvailable)
    else None
  }

  lemma ESGRatingRoundTrip(r: ESGRating)
    ensures ParseESGRating(ESGRatingValue(r)) == Some(r)
  {
  }

  /** Governance risk scores on a 1..10 scale (lower is better). */
  datatype ESGMetrics = ESGMetrics(
    overallRisk: Option<int>,
    overallRiskRating: ESGRating,
    boardRisk: Option<int>,
    auditRisk: Option<int>,
    compensationRisk: Option<int>,
    shareholderRightsRisk: Option<int>)
  {
    predicate Valid()
    {
      ValidScore(overallRisk) && ValidScore(boardRisk) && ValidScore(auditRisk) &&
      ValidScore(compensationRisk) && ValidScore(shareholderRightsRisk)
    }
  }

  /** A score is absent or an integer from 1 to 10. */
  predicate ValidScore(s: Option<int>)
  {
    s.None? || 1 <= s.value <= 10
  }

  /** Constructing `ESGMetrics`: rejected when any given score is outside 1..10; the rating
      defaults to "N/A". */
  function MakeESGMetrics(overall: Option<int>, rating: Option<ESGRating>, board: Option<int>,
                          audit: Option<int>, compensation: Option<int>, shareholder: Option<int>)
    : (r: Result<ESGMetrics, string>)
    ensures r.Ok? <==> ValidScore(overall) && ValidScore(board) && ValidScore(audit) &&
                       ValidScore(compensation) && ValidScore(shareholder)
    ensures r.Ok? ==> r.value.Valid()
    ensures r.Ok? ==> r.value.overallRiskRating == rating.GetOr(NotAvailable)
    ensures r.Ok? ==> (r.value.overallRisk == overall && r.value.boardRisk == board &&
                       r.value.auditRisk == audit && r.value.compensationRisk == compensation &&
                       r.value.shareholderRightsRisk == shareholder)
  {
    var m := ESGMetrics(overall, rating.GetOr(NotAvailable), board, audit, compensation, shareholder);
    if m.Valid() then Ok(m) else Err("score out of range 1..10")
  }

  /** The all-default record is valid and rated "N/A". */
  lemma DefaultESGMetrics()
    ensures MakeESGMetrics(None, None, None, None, None, None) ==
      Ok(ESGMetrics(None, NotAvailable, None, None, None, None))
    ensures ESGRatingValue(NotAvailable) == "N/A"
  {
  }

  // ---------------------------------------------------------------------------
  // Analyst report

  datatype AnalystReport = AnalystReport(
    ticker: string,
    company: string,
    sector: string,
    industry: string,
    recommendation: Recommendation,
    confidenceScore: real,
    keyDrivers: seq<string>,
    risks: seq<string>,
    technicalView: string,
    esgAssessment: string,
    metrics: Metrics,
    esgMetrics: Option<ESGMetrics>)
  {
    predicate Valid()
    {
      0.0 <= confidenceScore <= 1.0 && (esgMetrics.Some? ==> esgMetrics.value.Valid())
    }
  }

  /** Constructing a report: rejected unless the confidence lies in [0, 1] and the nested ESG
      record is valid; the ESG assessment text defaults to the empty string. */
  function MakeAnalystReport(ticker: string, company: string, sector: string, industry: string,
                             recommendation: Recommendation, confidence: real,
                             keyDrivers: seq<string>, risks: seq<string>, technicalView: string,
                             esgAssessment: Option<string>, metrics: Metrics,
                             esgMetrics: Option<ESGMetrics>)
    : (r: Result<AnalystReport, string>)
    ensures r.Ok? <==> 0.0 <= confidence <= 1.0 && (esgMetrics.Some? ==> esgMetrics.value.Valid())
    ensures r.Ok? ==> r.value.Valid() && r.value.confidenceScore == confidence
    ensures r.Ok? ==> r.value.ticker == ticker && r.value.esgAssessment == esgAssessment.GetOr("")
  {
    var rep := AnalystReport(ticker, company, sector, industry, recommendation, confidence,
      keyDrivers, risks, technicalView, esgAssessment.GetOr(""), metrics, esgMetrics);
    if rep.Valid() then Ok(rep) else Err("invalid analyst report")
  }

  // ---------------------------------------------------------------------------
  // Portfolio: no constraint on the weights, neither per allocation nor on their sum.

  datatype PortfolioAllocation = PortfolioAllocation(ticker: string, weight: real, reasoning: string)

  datatype Portfolio = Portfolio(allocations: seq<PortfolioAllocation>, timestamp: string)

  // ---------------------------------------------------------------------------
  // Risk and review verdicts (only the fields the agents use)

  datatype RiskDecision = RiskApproved | RiskNeedsRevision

  function RiskDecisionValue(d: RiskDecision): string
  {
    match d
    case RiskApproved => "APPROVED"
    case RiskNeedsRevision => "NEEDS_REVISION"
  }

  /** The six computed figures, each rounded to four decimals by the risk engine. */
  datatype RiskMetrics = RiskMetrics(
    var95: real,
    cvar95: real,
    maxDrawdown: real,
    annualizedVolatility: real,
    sharpeRatio: real,
    diversificationScore: real)

  datatype StressTestResult = StressTestResult(scenario: string, portfolioImpact: real)

  /** What the language model decides about a portfolio. */
  datatype RiskManagerDecision = RiskManagerDecision(
    decision: RiskDecision,
    concerns: seq<string>,
    feedback: string)

  datatype RiskAssessment = RiskAssessment(
    decision: RiskDecision,
    riskMetrics: RiskMetrics,
    stressTests: seq<StressTestResult>,
    concerns: seq<string>,
    feedback: string,
    timestamp: string)

  datatype ReviewDecision = ReviewApproved | ReviewNeedsRevision

  function ReviewDecisionValue(d: ReviewDecision): string
  {
    match d
    case ReviewApproved => "APPROVED"
    case ReviewNeedsRevision => "NEEDS_REVISION"
  }

  /** What the language model decides about one analyst report. */
  datatype ReportReview = ReportReview(
    decision: ReviewDecision,
    confidenceInReview: real,
    strengths: seq<string>,
    issues: seq<string>,
    feedback: string)

  // ---------------------------------------------------------------------------
  // Configuration: the default configuration has no revision limits, so both read as 2.

  datatype Config = Config(
    llmProvider: string,
    deepThinkLlm: string,
    shallowThinkLlm: string,
    tickersFile: string,
    maxRevisions: Option<int>,
    maxRiskRevisions: Option<int>)

  const DEFAULT_CONFIG := Config("anthropic", "claude-haiku-4-5", "claude-haiku-4-5",
    "data/test_tickers.txt", None, None)

  /** `DEFAULT_CONFIG.get("max_revisions", 2)`. */
  function MaxRevisions(c: Config): int
  {
    c.maxRevisions.GetOr(2)
  }

  /** `DEFAULT_CONFIG.get("max_risk_revisions", 2)`. */
  function MaxRiskRevisions(c: Config): int
  {
    c.maxRiskRevisions.GetOr(2)
  }

  lemma DefaultLimits()
    ensures MaxRevisions(DEFAULT_CONFIG) == 2 && MaxRiskRevisions(DEFAULT_CONFIG) == 2
  {
  }
}
