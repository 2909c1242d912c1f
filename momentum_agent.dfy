/** The momentum agent: a short and a long simple moving average of the closes and the 10-day
    rate of change, fed into a cascade that buys an up-trend with rising prices, sells a
    down-trend with falling prices, and holds otherwise. Pandas' NaN (a window longer than the
    data) is `None`, and every comparison with it is false. */
module MomentumAgent {
  import opened Common
  import opened TradingSignals

  const DEFAULT_SHORT_WINDOW: nat := 20
  const DEFAULT_LONG_WINDOW: nat := 50
  /** The look-back of the rate of change, in rows. */
  const ROC_PERIODS: nat := 10

  /** `rolling(window=w).mean()` at the last row: the mean of the last `w` closes, undefined when
      there are fewer than `w` rows. */
  function Sma(cs: seq<real>, w: nat): (r: Option<real>)
    ensures r.Some? <==> 1 <= w <= |cs|
    ensures r.Some? ==> r.value * w as real == Sum(cs[|cs| - w..])
  {
    if 1 <= w <= |cs| then Some(Mean(cs[|cs| - w..])) else None
  }

  /** A moving average lies within the range of the closes it averages. */
  lemma SmaWithinWindow(cs: seq<real>, w: nat, lo: real, hi: real)
    requires 1 <= w <= |cs|
    requires forall i :: |cs| - w <= i < |cs| ==> lo <= cs[i] <= hi
    ensures Sma(cs, w).Some? && lo <= Sma(cs, w).value <= hi
  {
    var win := cs[|cs| - w..];
    assert forall i :: 0 <= i < |win| ==> win[i] == cs[|cs| - w + i];
    MeanLowerBound(win, lo);
    MeanUpperBound(win, hi);
  }

  /** `pct_change(periods=10) * 100` at the last row: the percentage change over ten rows,
      undefined with ten rows or fewer. */
  function Roc(cs: seq<real>): (r: Option<real>)
    requires forall i :: 0 <= i < |cs| ==> cs[i] > 0.0
    ensures r.Some? <==> |cs| > ROC_PERIODS
    ensures r.Some? ==> cs[|cs| - 11] * (1.0 + r.value / 100.0) == cs[|cs| - 1]
  {
    if |cs| > ROC_PERIODS then
      var before, now := cs[|cs| - 11], cs[|cs| - 1];
      var q := now / before;
      assert before * q == now;
      Some((q - 1.0) * 100.0)
    else None
  }

  /** The rate of change is positive exactly when the close rose over the ten rows, and negative
      exactly when it fell. */
  lemma RocSign(cs: seq<real>)
    requires forall i :: 0 <= i < |cs| ==> cs[i] > 0.0
    requires |cs| > ROC_PERIODS
    ensures Roc(cs).value > 0.0 <==> cs[|cs| - 1] > cs[|cs| - 11]
    ensures Roc(cs).value < 0.0 <==> cs[|cs| - 1] < cs[|cs| - 11]
  {
    var before, r := cs[|cs| - 11], Roc(cs).value;
    assert before * (1.0 + r / 100.0) == cs[|cs| - 1];
    assert before * (r / 100.0) == cs[|cs| - 1] - before;
    if r > 0.0 {
      MulPos(before, r / 100.0);
    } else if r < 0.0 {
      MulPos(before, -r / 100.0);
    }
  }

  /** Price above a short average that is above the long one. */
  predicate UpTrend(price: real, smaShort: Option<real>, smaLong: Option<real>)
  {
    smaShort.Some? && smaLong.Some? && smaShort.value > smaLong.value && price > smaShort.value
  }

  /** Price below a short average that is below the long one. */
  predicate DownTrend(price: real, smaShort: Option<real>, smaLong: Option<real>)
  {
    smaShort.Some? && smaLong.Some? && smaShort.value < smaLong.value && price < smaShort.value
  }

  /** The cascade: BUY only in an up-trend with a positive rate of change, SELL only in a
      down-trend with a negative one, each with a confidence in (0.5, 0.9] that grows with the
      rate; a trend contradicted by the rate holds at 0.6, anything else holds at 0.5. */
  function MomentumDecision(price: real, smaShort: Option<real>, smaLong: Option<real>, roc: Option<real>)
    : (v: Verdict)
    ensures v.signal == Buy <==> UpTrend(price, smaShort, smaLong) && roc.Some? && roc.value > 0.0
    ensures v.signal == Sell <==> DownTrend(price, smaShort, smaLong) && roc.Some? && roc.value < 0.0
    ensures v.signal == Buy ==> v.confidence == Min(0.9, 0.5 + roc.value / 20.0) && 0.5 < v.confidence <= 0.9
    ensures v.signal == Sell ==> v.confidence == Min(0.9, 0.5 + Abs(roc.value) / 20.0) && 0.5 < v.confidence <= 0.9
    ensures v.signal == Hold ==>
      v.confidence == (if UpTrend(price, smaShort, smaLong) || DownTrend(price, smaShort, smaLong) then 0.6 else 0.5)
  {
    if smaShort.Some? && smaLong.Some? then
      var s, l := smaShort.value, smaLong.value;
      if s > l && price > s then
        if roc.Some? && roc.value > 0.0 then Verdict(Buy, Min(0.9, 0.5 + roc.value / 20.0))
        else Verdict(Hold, 0.6)
      else if s < l && price < s then
        if roc.Some? && roc.value < 0.0 then Verdict(Sell, Min(0.9, 0.5 + Abs(roc.value) / 20.0))
        else Verdict(Hold, 0.6)
      else Verdict(Hold, 0.5)
    else Verdict(Hold, 0.5)
  }

  /** Whether a frame is long enough for the full analysis (and so for a stored signal). */
  predicate MomentumSufficient(longWindow: nat, data: seq<Bar>)
  {
    |data| >= longWindow
  }

  /** `MomentumAgent.analyze` on a frame: the early HOLD/0.0 for fewer than `longWindow` rows,
      otherwise the cascade over the last close, the two averages and the rate of change. */
  function MomentumAnalysis(shortWindow: nat, longWindow: nat, data: seq<Bar>): Analysis
    requires longWindow >= 1
  {
    if !MomentumSufficient(longWindow, data) then INSUFFICIENT
    else
      var cs := Closes(data);
      var smaShort, smaLong, roc := Sma(cs, shortWindow), Sma(cs, longWindow), Roc(cs);
      var v := MomentumDecision(cs[|cs| - 1], smaShort, smaLong, roc);
      Analysis(v.signal, v.confidence, MomentumIndicators(smaShort, smaLong, roc))
  }

  /** A short frame gives HOLD with confidence 0 and no indicators; otherwise the long average is
      defined, the short one is whenever its window fits, and the rate whenever there are more
      than ten rows. The confidence always lies in [0, 1]. */
  lemma MomentumAnalysisProperties(shortWindow: nat, longWindow: nat, data: seq<Bar>)
    requires longWindow >= 1
    ensures var a := MomentumAnalysis(shortWindow, longWindow, data);
      0.0 <= a.confidence <= 1.0 &&
      (!MomentumSufficient(longWindow, data) ==> a == INSUFFICIENT) &&
      (MomentumSufficient(longWindow, data) ==>
        a.indicators.MomentumIndicators? &&
        a.indicators.smaLong.Some? &&
        (a.indicators.smaShort.Some? <==> 1 <= shortWindow <= |data|) &&
        (a.indicators.roc.Some? <==> |data| > ROC_PERIODS) &&
        a == (var v := MomentumDecision(data[|data| - 1].close, a.indicators.smaShort, a.indicators.smaLong,
                                        a.indicators.roc);
              Analysis(v.signal, v.confidence, a.indicators)))
  {
  }

  /** A flat price series is neither trending up nor down, so the agent holds at 0.5. */
  lemma FlatSeriesHolds(shortWindow: nat, longWindow: nat, data: seq<Bar>)
    requires 1 <= shortWindow <= longWindow <= |data|
    requires forall i :: 0 <= i < |data| ==> data[i].close == data[0].close
    ensures MomentumAnalysis(shortWindow, longWindow, data).signal == Hold
    ensures MomentumAnalysis(shortWindow, longWindow, data).confidence == 0.5
  {
    var cs := Closes(data);
    var p := cs[0];
    SmaWithinWindow(cs, shortWindow, p, p);
    SmaWithinWindow(cs, longWindow, p, p);
  }
}
