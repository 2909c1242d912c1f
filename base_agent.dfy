/** The common shape of the rule-based trading agents: a name, a weight in the collective vote
    and a map from symbol to the last full analysis the agent stored. The analysis itself is
    chosen by the agent's strategy (momentum, value or risk), each with its own parameters. */
module Agents {
  import opened Common
  import opened TradingSignals
  import MomentumAgent
  import ValueAgent
  import RiskAgent

  /** The three kinds of agent and the parameters each one is built with. */
  datatype Strategy =
    | Momentum(shortWindow: nat, longWindow: nat)
    | Value(lookbackPeriod: nat)
    | Risk(maxVolatility: real)
  {
    /** Windows are at least one row long. */
    predicate Valid()
    {
      match this
      case Momentum(_, longWindow) => longWindow >= 1
      case Value(lookbackPeriod) => lookbackPeriod >= 1
      case Risk(_) => true
    }
  }

  /** Whether the frame is long enough for the strategy's full analysis. */
  predicate Sufficient(strategy: Strategy, data: seq<Bar>)
  {
    match strategy
    case Momentum(_, longWindow) => MomentumAgent.MomentumSufficient(longWindow, data)
    case Value(lookbackPeriod) => ValueAgent.ValueSufficient(lookbackPeriod, data)
    case Risk(_) => RiskAgent.RiskSufficient(data)
  }

  /** What `analyze` returns for a frame; `std` is the sample standard deviation. */
  function AnalysisOf(strategy: Strategy, data: seq<Bar>, std: StdDev): Analysis
    requires strategy.Valid()
  {
    match strategy
    case Momentum(shortWindow, longWindow) => MomentumAgent.MomentumAnalysis(shortWindow, longWindow, data)
    case Value(lookbackPeriod) => ValueAgent.ValueAnalysis(lookbackPeriod, data, std)
    case Risk(maxVolatility) => RiskAgent.RiskAnalysis(maxVolatility, data, std)
  }

  /** Every agent answers with a confidence in [0, 1], and a frame too short for its strategy
      gives HOLD with confidence 0 and no indicators. */
  lemma AnalysisInRange(strategy: Strategy, data: seq<Bar>, std: StdDev)
    requires strategy.Valid()
    ensures 0.0 <= AnalysisOf(strategy, data, std).confidence <= 1.0
    ensures !Sufficient(strategy, data) ==> AnalysisOf(strategy, data, std) == INSUFFICIENT
    ensures Sufficient(strategy, data) ==> AnalysisOf(strategy, data, std).indicators != NoIndicators
  {
    match strategy
    case Momentum(shortWindow, longWindow) =>
      MomentumAgent.MomentumAnalysisProperties(shortWindow, longWindow, data);
    case Value(lookbackPeriod) =>
      ValueAgent.ValueAnalysisProperties(lookbackPeriod, data, std);
    case Risk(maxVolatility) =>
      RiskAgent.RiskAnalysisProperties(maxVolatility, data, std);
      if RiskAgent.RiskSufficient(data) {
        RiskAgent.RiskFromReturnsProperties(maxVolatility, RiskAgent.Returns(data), std);
      }
  }

  /** A trading agent. Its name, weight and strategy are fixed when it is built; its signals map
      changes as it analyses stocks. */
  class Agent {
    const name: string
    const weight: real
    const strategy: Strategy
    var signals: map<string, Analysis>

    /** `MomentumAgent(weight, short_window, long_window)`. */
    constructor Momentum(weight: real, shortWindow: nat, longWindow: nat)
      requires longWindow >= 1
      ensures name == "MomentumAgent" && this.weight == weight
      ensures strategy == Strategy.Momentum(shortWindow, longWindow) && strategy.Valid()
      ensures signals == map[]
    {
      name := "MomentumAgent";
      this.weight := weight;
      strategy := Strategy.Momentum(shortWindow, longWindow);
      signals := map[];
    }

    /** `ValueAgent(weight, lookback_period)`. */
    constructor Value(weight: real, lookbackPeriod: nat)
      requires lookbackPeriod >= 1
      ensures name == "ValueAgent" && this.weight == weight
      ensures strategy == Strategy.Value(lookbackPeriod) && strategy.Valid()
      ensures signals == map[]
    {
      name := "ValueAgent";
      this.weight := weight;
      strategy := Strategy.Value(lookbackPeriod);
      signals := map[];
    }

    /** `RiskAgent(weight, max_volatility)`. */
    constructor Risk(weight: real, maxVolatility: real)
      ensures name == "RiskAgent" && this.weight == weight
      ensures strategy == Strategy.Risk(maxVolatility) && strategy.Valid()
      ensures signals == map[]
    {
      name := "RiskAgent";
      this.weight := weight;
      strategy := Strategy.Risk(maxVolatility);
      signals := map[];
    }

    /** The last stored analysis for the symbol, if any. */
    function GetSignal(symbol: string): (r: Option<Analysis>)
      reads this
      ensures r.Some? <==> symbol in signals
      ensures r.Some? ==> r.value == signals[symbol]
    {
      if symbol in signals then Some(signals[symbol]) else None
    }

    method ClearSignals()
      modifies this
      ensures signals == map[]
    {
      signals := map[];
    }

    /** Analyses a frame. Only the full analysis is stored, under the symbol; the early HOLD of a
        frame too short leaves the map as it was. */
    method Analyze(symbol: string, data: seq<Bar>, std: StdDev) returns (r: Analysis)
      requires strategy.Valid()
      modifies this
      ensures r == AnalysisOf(strategy, data, std)
      ensures 0.0 <= r.confidence <= 1.0
      ensures signals == if Sufficient(strategy, data) then old(signals)[symbol := r] else old(signals)
      ensures Sufficient(strategy, data) ==> GetSignal(symbol) == Some(r)
    {
      AnalysisInRange(strategy, data, std);
      r := AnalysisOf(strategy, data, std);
      if Sufficient(strategy, data) {
        signals := signals[symbol := r];
      }
    }
  }
}
