/** The risk agent: from the daily returns of the closes, the annualised volatility, the deepest
    drawdown (reported as a value at or below zero), the volatility of the last 20 and last 60
    returns, and a Sharpe ratio without a risk-free rate; a first-match cascade of thresholds
    turns them into a signal. */
module RiskAgent {
  import opened Common
  import opened Drawdown
  import opened TradingSignals

  const DEFAULT_MAX_VOLATILITY := 0.30
  /** Fewer rows than this give the early HOLD. */
  const MIN_ROWS: nat := 30
  const RECENT_RETURNS: nat := 20
  const MEDIUM_RETURNS: nat := 60

  /** The first-match cascade: too volatile, then too deep a drawdown, then sharply rising
      volatility sell; low volatility with a decent Sharpe ratio, then a high Sharpe ratio buy;
      what is left holds, more confidently when volatility is moderate. */
  function RiskDecision(volatility: real, maxDrawdown: real, recentVol: real, mediumVol: real,
                        sharpe: real, maxVolatility: real): (v: Verdict)
    ensures v.signal == Sell <==>
      volatility > maxVolatility || maxDrawdown < -0.20 || recentVol > mediumVol * 1.5
    ensures volatility > maxVolatility ==> v == Verdict(Sell, 0.7)
    ensures volatility <= maxVolatility && maxDrawdown < -0.20 ==> v == Verdict(Sell, 0.8)
    ensures volatility <= maxVolatility && maxDrawdown >= -0.20 && recentVol > mediumVol * 1.5 ==>
      v == Verdict(Sell, 0.6)
    ensures v.signal == Buy <==>
      (v.signal != Sell && ((volatility < maxVolatility * 0.5 && sharpe > 0.5) || sharpe > 1.0))
    ensures v.signal == Buy ==>
      v.confidence == (if volatility < maxVolatility * 0.5 && sharpe > 0.5 then 0.7 else 0.6)
    ensures v.signal == Hold ==> v.confidence == (if volatility < maxVolatility * 0.7 then 0.7 else 0.5)
    ensures 0.5 <= v.confidence <= 0.8
  {
    if volatility > maxVolatility then Verdict(Sell, 0.7)
    else if maxDrawdown < -0.20 then Verdict(Sell, 0.8)
    else if recentVol > mediumVol * 1.5 then Verdict(Sell, 0.6)
    else if volatility < maxVolatility * 0.5 && sharpe > 0.5 then Verdict(Buy, 0.7)
    else if sharpe > 1.0 then Verdict(Buy, 0.6)
    else if volatility < maxVolatility * 0.7 then Verdict(Hold, 0.7)
    else Verdict(Hold, 0.5)
  }

  /** Annualised volatility of a return series. */
  function AnnualVol(rs: seq<real>, std: StdDev): real
  {
    std(rs) * SQRT_252
  }

  /** `mean * 252 / volatility`, or 0 when the volatility is not positive. */
  function AgentSharpe(rs: seq<real>, volatility: real): (s: real)
    requires |rs| > 0
    ensures volatility > 0.0 ==> s * volatility == Mean(rs) * 252.0
    ensures volatility > 0.0 ==> (s > 0.0 <==> Mean(rs) > 0.0)
    ensures volatility <= 0.0 ==> s == 0.0
  {
    if volatility > 0.0 then
      QuotientSign(Mean(rs) * 252.0, volatility);
      Mean(rs) * 252.0 / volatility
    else 0.0
  }

  /** Dividing by a positive number keeps the sign and is undone by multiplying back. */
  lemma QuotientSign(x: real, y: real)
    requires y > 0.0
    ensures x / y * y == x
    ensures x / y > 0.0 <==> x > 0.0
  {
    DivMul(x, y);
    var q := x / y;
    if q > 0.0 { MulPos(q, y); }
    if q < 0.0 { MulPos(-q, y); }
  }

  /** The deepest drawdown of the returns, not negated. Closes are positive, so every return is
      above -100% and the drawdown is defined. */
  function AgentMaxDrawdown(rs: seq<real>): (d: real)
    requires |rs| > 0
    requires forall i :: 0 <= i < |rs| ==> rs[i] > -1.0
    ensures -1.0 < d <= 0.0
  {
    DrawdownMinBounded(rs);
    DrawdownMin(rs).value
  }

  predicate RiskSufficient(data: seq<Bar>)
  {
    |data| >= MIN_ROWS
  }

  /** The full analysis over the daily returns of a long enough frame. */
  function RiskFromReturns(maxVolatility: real, rs: seq<real>, std: StdDev): Analysis
    requires |rs| > 0
    requires forall i :: 0 <= i < |rs| ==> rs[i] > -1.0
  {
    var volatility := AnnualVol(rs, std);
    var maxDrawdown := AgentMaxDrawdown(rs);
    var recentVol := AnnualVol(Tail(rs, RECENT_RETURNS), std);
    var mediumVol := AnnualVol(Tail(rs, MEDIUM_RETURNS), std);
    var sharpe := AgentSharpe(rs, volatility);
    var v := RiskDecision(volatility, maxDrawdown, recentVol, mediumVol, sharpe, maxVolatility);
    Analysis(v.signal, v.confidence, RiskIndicators(volatility, maxDrawdown, sharpe, recentVol))
  }

  /** The daily returns of a frame's closes. */
  function Returns(data: seq<Bar>): (rs: seq<real>)
    ensures |rs| == if |data| == 0 then 0 else |data| - 1
    ensures forall i :: 0 <= i < |rs| ==> rs[i] > -1.0
  {
    var cs := Closes(data);
    PctChangesAboveMinusOne(cs);
    PctChanges(cs)
  }

  /** `RiskAgent.analyze` on a frame: the early HOLD/0.0 for fewer than 30 rows, otherwise the
      cascade over the figures of the daily returns. */
  function RiskAnalysis(maxVolatility: real, data: seq<Bar>, std: StdDev): Analysis
  {
    if !RiskSufficient(data) then INSUFFICIENT
    else RiskFromReturns(maxVolatility, Returns(data), std)
  }

  /** The figures behind a full analysis: the confidence lies in [0.5, 0.8], the drawdown in
      (-1, 0], and the Sharpe ratio is the one whose product with the whole-series volatility is
      the annualised mean return (see `AgentSharpe`). */
  lemma RiskFromReturnsProperties(maxVolatility: real, rs: seq<real>, std: StdDev)
    requires |rs| > 0
    requires forall i :: 0 <= i < |rs| ==> rs[i] > -1.0
    ensures var a := RiskFromReturns(maxVolatility, rs, std);
      a.indicators.RiskIndicators? && 0.5 <= a.confidence <= 0.8 &&
      a.indicators.volatility == AnnualVol(rs, std) &&
      -1.0 < a.indicators.maxDrawdown <= 0.0 &&
      a.indicators.sharpeRatio == AgentSharpe(rs, a.indicators.volatility) &&
      a.indicators.recentVolatility == AnnualVol(Tail(rs, RECENT_RETURNS), std)
  {
  }

  /** A short frame gives HOLD with confidence 0; a long one gives the full analysis of its daily
      returns. Either way the confidence lies in [0, 1]. */
  lemma RiskAnalysisProperties(maxVolatility: real, data: seq<Bar>, std: StdDev)
    ensures var a := RiskAnalysis(maxVolatility, data, std);
      0.0 <= a.confidence <= 1.0 &&
      (!RiskSufficient(data) ==> a == INSUFFICIENT) &&
      (RiskSufficient(data) ==> a == RiskFromReturns(maxVolatility, Returns(data), std) && |Returns(data)| >= 29)
  {
    if RiskSufficient(data) {
      RiskFromReturnsProperties(maxVolatility, Returns(data), std);
    }
  }

  /** With a true sample standard deviation the reported volatility is never negative, and it is
      zero exactly when the daily returns do not vary. */
  lemma RiskVolatilityNonnegative(maxVolatility: real, data: seq<Bar>, std: StdDev)
    requires IsSampleStd(std) && RiskSufficient(data)
    ensures var a := RiskAnalysis(maxVolatility, data, std);
      a.indicators.RiskIndicators? && a.indicators.volatility >= 0.0 &&
      (a.indicators.volatility == 0.0 <==> SampleVariance(Returns(data)) == 0.0)
  {
    var rs := Returns(data);
    RiskAnalysisProperties(maxVolatility, data, std);
    RiskFromReturnsProperties(maxVolatility, rs, std);
    assert |rs| >= 2;
    var s := std(rs);
    MulNonneg(s, SQRT_252);
    if s > 0.0 {
      MulPos(s, SQRT_252);
    }
  }
}
