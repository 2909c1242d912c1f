/** The value agent: over the last `lookbackPeriod` closes, the z-score of the current close and
    its percentile, plus the average true range of the last 14 rows; the z-score alone drives a
    cascade that buys well below the mean and sells well above it. */
module ValueAgent {
  import opened Common
  import opened TradingSignals

  const DEFAULT_LOOKBACK_PERIOD: nat := 100
  /** Rows averaged into the average true range. */
  const ATR_PERIODS: nat := 14

  /** `(current - mean) / std` when the window's sample standard deviation is positive, else 0
      (with a single close pandas' deviation is undefined and the test `std > 0` fails). */
  function ZScore(window: seq<real>, current: real, std: StdDev): real
    requires |window| > 0
  {
    if |window| >= 2 && std(window) > 0.0 then (current - Mean(window)) / std(window) else 0.0
  }

  /** The z-score scales the distance from the mean by the deviation, so its sign is the sign of
      that distance; a window without variation scores 0. */
  lemma ZScoreMeaning(window: seq<real>, current: real, std: StdDev)
    requires IsSampleStd(std) && |window| >= 2
    ensures std(window) > 0.0 ==> ZScore(window, current, std) * std(window) == current - Mean(window)
    ensures std(window) > 0.0 ==> (ZScore(window, current, std) > 0.0 <==> current > Mean(window))
    ensures std(window) > 0.0 ==> (ZScore(window, current, std) < 0.0 <==> current < Mean(window))
    ensures (forall i :: 0 <= i < |window| ==> window[i] == window[0]) ==> ZScore(window, current, std) == 0.0
  {
    var s := std(window);
    if s > 0.0 {
      var z := ZScore(window, current, std);
      assert z * s == current - Mean(window);
      if z > 0.0 {
        MulPos(z, s);
      } else if z < 0.0 {
        MulPos(-z, s);
      }
    }
    if forall i :: 0 <= i < |window| ==> window[i] == window[0] {
      ConstantStdIsZero(std, window);
    }
  }

  /** `(window < x).sum()`: how many entries are strictly below `x`. */
  function CountBelow(xs: seq<real>, x: real): nat
  {
    if |xs| == 0 then 0 else CountBelow(xs[..|xs| - 1], x) + (if xs[|xs| - 1] < x then 1 else 0)
  }

  lemma {:induction false} CountBelowAtMost(xs: seq<real>, x: real)
    ensures CountBelow(xs, x) <= |xs|
    decreases |xs|
  {
    if |xs| > 0 {
      CountBelowAtMost(xs[..|xs| - 1], x);
    }
  }

  /** The percentage of the window strictly below the current close. */
  function Percentile(window: seq<real>, current: real): real
    requires |window| > 0
  {
    CountBelow(window, current) as real / |window| as real * 100.0
  }

  /** The percentile lies in [0, 100); it stays below 100 because the current close is the last
      entry of its own window and is not below itself. */
  lemma PercentileBounds(window: seq<real>)
    requires |window| > 0
    ensures 0.0 <= Percentile(window, window[|window| - 1]) < 100.0
  {
    var x := window[|window| - 1];
    CountBelowAtMost(window[..|window| - 1], x);
    var c := CountBelow(window, x);
    assert c < |window|;
    var n := |window| as real;
    assert c as real / n < 1.0;
  }

  /** The true range of row `i`: the largest of high minus low and the distances of the high and
      the low from the previous close; on the first row only high minus low is defined. */
  function TrueRange(data: seq<Bar>, i: nat): real
    requires i < |data|
  {
    var hl := data[i].high - data[i].low;
    if i == 0 then hl
    else Max(hl, Max(Abs(data[i].high - data[i - 1].close), Abs(data[i].low - data[i - 1].close)))
  }

  function TrueRanges(data: seq<Bar>): (tr: seq<real>)
    ensures |tr| == |data|
    ensures forall i :: 0 <= i < |data| ==> tr[i] == TrueRange(data, i)
  {
    seq(|data|, i requires 0 <= i < |data| => TrueRange(data, i))
  }

  /** A true range is at least each of its candidates, and equals one of them. */
  lemma TrueRangeIsMax(data: seq<Bar>, i: nat)
    requires 0 < i < |data|
    ensures var tr, h, l, pc := TrueRange(data, i), data[i].high, data[i].low, data[i - 1].close;
      tr >= h - l && tr >= Abs(h - pc) && tr >= Abs(l - pc) && tr >= 0.0 &&
      (tr == h - l || tr == Abs(h - pc) || tr == Abs(l - pc))
  {
  }

  /** `TR.tail(14).mean()`. */
  function AverageTrueRange(data: seq<Bar>): real
    requires |data| > 0
  {
    Mean(Tail(TrueRanges(data), ATR_PERIODS))
  }

  /** When every high is at or above its low, the average true range is not negative. */
  lemma AverageTrueRangeNonnegative(data: seq<Bar>)
    requires |data| > 0
    requires forall i :: 0 <= i < |data| ==> data[i].high >= data[i].low
    ensures AverageTrueRange(data) >= 0.0
  {
    var t := Tail(TrueRanges(data), ATR_PERIODS);
    var off := |data| - |t|;
    forall k | 0 <= k < |t|
      ensures t[k] >= 0.0
    {
      assert t[k] == TrueRange(data, off + k);
    }
    MeanLowerBound(t, 0.0);
  }

  /** The cascade on the z-score: below -1.5 BUY and above 1.5 SELL, with confidence
      min(0.9, 0.5 + |z|/4); otherwise below -0.5 BUY and above 0.5 SELL at 0.6; otherwise HOLD at
      0.5. */
  function ValueDecision(z: real): (v: Verdict)
    ensures v.signal == Buy <==> z < -0.5
    ensures v.signal == Sell <==> z > 0.5
    ensures v.signal == Hold ==> v.confidence == 0.5
    ensures z < -1.5 || z > 1.5 ==> v.confidence == Min(0.9, 0.5 + Abs(z) / 4.0) && 0.875 < v.confidence <= 0.9
    ensures -1.5 <= z < -0.5 || 0.5 < z <= 1.5 ==> v.confidence == 0.6
  {
    if z < -1.5 then Verdict(Buy, Min(0.9, 0.5 + Abs(z) / 4.0))
    else if z > 1.5 then Verdict(Sell, Min(0.9, 0.5 + z / 4.0))
    else if z < -0.5 then Verdict(Buy, 0.6)
    else if z > 0.5 then Verdict(Sell, 0.6)
    else Verdict(Hold, 0.5)
  }

  predicate ValueSufficient(lookbackPeriod: nat, data: seq<Bar>)
  {
    |data| >= lookbackPeriod
  }

  /** `ValueAgent.analyze` on a frame: the early HOLD/0.0 for fewer than `lookbackPeriod` rows,
      otherwise the z-score cascade with the percentile, window mean and ATR as indicators. */
  function ValueAnalysis(lookbackPeriod: nat, data: seq<Bar>, std: StdDev): Analysis
    requires lookbackPeriod >= 1
  {
    if !ValueSufficient(lookbackPeriod, data) then INSUFFICIENT
    else
      var cs := Closes(data);
      var window := Tail(cs, lookbackPeriod);
      var current := cs[|cs| - 1];
      var z := ZScore(window, current, std);
      var v := ValueDecision(z);
      Analysis(v.signal, v.confidence,
        ValueIndicators(z, Percentile(window, current), Mean(window), AverageTrueRange(data)))
  }

  /** A short frame gives HOLD with confidence 0; otherwise the signal follows the z-score of the
      last close within its window, the percentile lies in [0, 100) and the confidence in [0, 1]. */
  lemma ValueAnalysisProperties(lookbackPeriod: nat, data: seq<Bar>, std: StdDev)
    requires lookbackPeriod >= 1
    ensures var a := ValueAnalysis(lookbackPeriod, data, std);
      0.0 <= a.confidence <= 1.0 &&
      (!ValueSufficient(lookbackPeriod, data) ==> a == INSUFFICIENT) &&
      (ValueSufficient(lookbackPeriod, data) ==>
        var window := Closes(data)[|data| - lookbackPeriod..];
        a.indicators.ValueIndicators? &&
        a.indicators.zScore == ZScore(window, data[|data| - 1].close, std) &&
        a.signal == ValueDecision(a.indicators.zScore).signal &&
        0.0 <= a.indicators.pricePercentile < 100.0)
  {
    if ValueSufficient(lookbackPeriod, data) {
      var cs := Closes(data);
      var window := Tail(cs, lookbackPeriod);
      assert window[|window| - 1] == cs[|cs| - 1];
      PercentileBounds(window);
    }
  }
}
