/** The values the rule-based trading agents exchange: daily price bars, the three-way trading
    signal, and the analysis an agent returns for one stock. A price frame is a sequence of bars,
    oldest first; closing prices are positive. */
module TradingSignals {
  import opened Common

  /** A closing price: always positive in the data the agents receive. */
  type Price = r: real | r > 0.0 witness 1.0

  /** One row of a price frame: its close and its intraday high and low. */
  datatype Bar = Bar(close: Price, high: real, low: real)

  datatype Signal = Buy | Sell | Hold

  function SignalValue(s: Signal): string
  {
    match s
    case Buy => "BUY"
    case Sell => "SELL"
    case Hold => "HOLD"
  }

  /** The indicator values an agent reports beside its signal; none on an early return. */
  datatype Indicators =
    | NoIndicators
    | MomentumIndicators(smaShort: Option<real>, smaLong: Option<real>, roc: Option<real>)
    | ValueIndicators(zScore: real, pricePercentile: real, meanPrice: real, atr: real)
    | RiskIndicators(volatility: real, maxDrawdown: real, sharpeRatio: real, recentVolatility: real)

  /** The outcome of a decision cascade. */
  datatype Verdict = Verdict(signal: Signal, confidence: real)

  /** What `analyze` returns: a signal, a confidence and the indicators behind them. */
  datatype Analysis = Analysis(signal: Signal, confidence: real, indicators: Indicators)

  /** The early return for a frame too short to analyse. */
  const INSUFFICIENT := Analysis(Hold, 0.0, NoIndicators)

  /** The `Close` column. */
  function Closes(data: seq<Bar>): (cs: seq<real>)
    ensures |cs| == |data|
    ensures forall i :: 0 <= i < |data| ==> cs[i] == data[i].close && cs[i] > 0.0
  {
    seq(|data|, i requires 0 <= i < |data| => data[i].close as real)
  }

  /** `pct_change()` without its leading undefined entry: one return per day after the first. */
  function PctChanges(cs: seq<real>): (rs: seq<real>)
    requires forall i :: 0 <= i < |cs| ==> cs[i] > 0.0
    ensures |rs| == if |cs| == 0 then 0 else |cs| - 1
    ensures forall i :: 0 <= i < |rs| ==> cs[i] * (1.0 + rs[i]) == cs[i + 1]
  {
    if |cs| == 0 then []
    else seq(|cs| - 1, i requires 0 <= i < |cs| - 1 => (cs[i + 1] - cs[i]) / cs[i])
  }

  /** Between two positive prices the return is above -100%. */
  lemma PctChangesAboveMinusOne(cs: seq<real>)
    requires forall i :: 0 <= i < |cs| ==> cs[i] > 0.0
    ensures forall i :: 0 <= i < |PctChanges(cs)| ==> PctChanges(cs)[i] > -1.0
  {
    forall i | 0 <= i < |PctChanges(cs)|
      ensures PctChanges(cs)[i] > -1.0
    {
      PctChangeAboveMinusOne(cs, i);
    }
  }

  lemma PctChangeAboveMinusOne(cs: seq<real>, i: int)
    requires forall i :: 0 <= i < |cs| ==> cs[i] > 0.0
    requires 0 <= i < |cs| - 1
    ensures PctChanges(cs)[i] > -1.0
  {
    var r := PctChanges(cs)[i];
    PositiveFactor(cs[i], 1.0 + r, cs[i + 1]);
  }

  /** A factor that turns a positive number into a positive number is positive. */
  lemma PositiveFactor(c: real, f: real, p: real)
    requires c > 0.0 && p > 0.0 && c * f == p
    ensures f > 0.0
  {
    if f <= 0.0 {
      MulNonneg(c, -f);
    }
  }
}
