/** The portfolio risk engine: daily returns from a price frame, weight alignment and
    renormalisation, parametric VaR with a fixed z-table, CVaR over the tail, maximum drawdown,
    annualised volatility, the Sharpe ratio, the weighted pairwise-correlation diversification
    score, and the three historical stress scenarios. Price frames, correlation matrices and
    scenario windows are inputs; the sample standard deviation is an oracle constrained by
    `IsSampleStd`. */
module RiskCalculations {
  import opened Common
  import opened Drawdown
  import opened Schemas

  // ---------------------------------------------------------------------------
  // Price frames and daily returns

  /** A frame of closing prices: one row per day, one column per ticker. */
  datatype Frame = Frame(columns: seq<string>, rows: seq<seq<real>>)

  predicate WellFormed(f: Frame)
  {
    forall t :: 0 <= t < |f.rows| ==> |f.rows[t]| == |f.columns|
  }

  /** pandas calls a frame empty when either axis has length zero. */
  predicate IsEmpty(f: Frame)
  {
    |f.columns| == 0 || |f.rows| == 0
  }

  const EMPTY_FRAME := Frame([], [])

  predicate NoZero(row: seq<real>)
  {
    forall j :: 0 <= j < |row| ==> row[j] != 0.0
  }

  /** Day-over-day percentage change of every column. */
  function PctRow(prev: seq<real>, cur: seq<real>): (r: seq<real>)
    requires |prev| == |cur| && NoZero(prev)
    ensures |r| == |cur|
    ensures forall j :: 0 <= j < |cur| ==> prev[j] * (1.0 + r[j]) == cur[j]
  {
    seq(|cur|, j requires 0 <= j < |cur| => (cur[j] - prev[j]) / prev[j])
  }

  /** `pct_change().dropna()` followed by dropping non-finite rows: the first day has no
      return, and a day after a zero price has an infinite or undefined return. */
  function ReturnRows(rows: seq<seq<real>>, width: nat): (r: seq<seq<real>>)
    requires forall t :: 0 <= t < |rows| ==> |rows[t]| == width
    ensures |rows| == 0 ==> r == []
    ensures |rows| > 0 ==> |r| <= |rows| - 1
    ensures forall t :: 0 <= t < |r| ==> |r[t]| == width
  {
    if |rows| < 2 then []
    else
      var n := |rows|;
      var p := ReturnRows(rows[..n - 1], width);
      if NoZero(rows[n - 2]) then p + [PctRow(rows[n - 2], rows[n - 1])] else p
  }

  function GetReturns(prices: Frame): (r: Frame)
    requires WellFormed(prices)
    ensures WellFormed(r)
    ensures IsEmpty(prices) ==> r == EMPTY_FRAME
    ensures !IsEmpty(prices) ==> r.columns == prices.columns && |r.rows| < |prices.rows|
  {
    if IsEmpty(prices) then EMPTY_FRAME
    else Frame(prices.columns, ReturnRows(prices.rows, |prices.columns|))
  }

  /** No price before the last day is zero. */
  predicate NoZeroBeforeLast(rows: seq<seq<real>>)
  {
    forall t :: 0 <= t < |rows| - 1 ==> NoZero(rows[t])
  }

  /** Every day but the first yields a return exactly when no price before the last is zero. */
  lemma {:induction false} ReturnRowsCount(rows: seq<seq<real>>, width: nat)
    requires |rows| > 0
    requires forall t :: 0 <= t < |rows| ==> |rows[t]| == width
    ensures |ReturnRows(rows, width)| == |rows| - 1 <==> NoZeroBeforeLast(rows)
    decreases |rows|
  {
    var n := |rows|;
    if n >= 2 {
      var pre := rows[..n - 1];
      assert forall t :: 0 <= t < n - 1 ==> pre[t] == rows[t];
      ReturnRowsCount(pre, width);
      assert NoZeroBeforeLast(rows) <==> NoZeroBeforeLast(pre) && NoZero(rows[n - 2]);
    }
  }

  /** With no zero price before the last day, the return rows are the changes from each day to
      the next, in order. */
  lemma {:induction false} ReturnRowsComplete(rows: seq<seq<real>>, width: nat)
    requires |rows| > 0
    requires forall t :: 0 <= t < |rows| ==> |rows[t]| == width
    requires NoZeroBeforeLast(rows)
    ensures |ReturnRows(rows, width)| == |rows| - 1
    ensures forall t :: 0 <= t < |rows| - 1 ==> ReturnRows(rows, width)[t] == PctRow(rows[t], rows[t + 1])
    decreases |rows|
  {
    ReturnRowsCount(rows, width);
    var n := |rows|;
    if n >= 2 {
      var pre := rows[..n - 1];
      assert forall t :: 0 <= t < n - 1 ==> pre[t] == rows[t];
      ReturnRowsComplete(pre, width);
      var p := ReturnRows(pre, width);
      var r := p + [PctRow(rows[n - 2], rows[n - 1])];
      assert ReturnRows(rows, width) == r;
      forall t | 0 <= t < n - 2
        ensures r[t] == PctRow(rows[t], rows[t + 1])
      {
        assert r[t] == p[t] && pre[t] == rows[t] && pre[t + 1] == rows[t + 1];
      }
    }
  }

  // ---------------------------------------------------------------------------
  // Weights

  /** `dict(zip(tickers, weights))`: pairs up to the shorter list; a later duplicate wins. */
  function WeightDict(tickers: seq<string>, weights: seq<real>): (d: map<string, real>)
    ensures forall t :: t in d <==> exists i :: 0 <= i < |tickers| && i < |weights| && tickers[i] == t
    decreases |tickers|
  {
    var n := if |tickers| < |weights| then |tickers| else |weights|;
    if n == 0 then map[]
    else
      var d := WeightDict(tickers[..n - 1], weights[..n - 1]);
      assert forall i :: 0 <= i < n - 1 ==> tickers[..n - 1][i] == tickers[i];
      d[tickers[n - 1] := weights[n - 1]]
  }

  /** The weight stored for a ticker is the one paired with its last occurrence. */
  lemma {:induction false} WeightDictLastWins(tickers: seq<string>, weights: seq<real>, i: int)
    requires 0 <= i < |tickers| && i < |weights|
    requires forall j :: i < j < |tickers| && j < |weights| ==> tickers[j] != tickers[i]
    ensures tickers[i] in WeightDict(tickers, weights)
    ensures WeightDict(tickers, weights)[tickers[i]] == weights[i]
    decreases |tickers|
  {
    var n := if |tickers| < |weights| then |tickers| else |weights|;
    if i < n - 1 {
      var ts, ws := tickers[..n - 1], weights[..n - 1];
      assert forall j :: 0 <= j < n - 1 ==> ts[j] == tickers[j];
      WeightDictLastWins(ts, ws, i);
    }
  }

  /** `weight_dict.get(t, 0)`. */
  function WeightOf(d: map<string, real>, t: string): real
  {
    if t in d then d[t] else 0.0
  }

  /** One weight per return column; a column without a weight gets 0. */
  function AlignWeights(d: map<string, real>, columns: seq<string>): (w: seq<real>)
    ensures |w| == |columns|
    ensures forall i :: 0 <= i < |columns| ==> (columns[i] !in d ==> w[i] == 0.0)
    ensures forall i :: 0 <= i < |columns| ==> (columns[i] in d ==> w[i] == d[columns[i]])
  {
    seq(|columns|, i requires 0 <= i < |columns| => WeightOf(d, columns[i]))
  }

  function Scale(xs: seq<real>, c: real): (r: seq<real>)
    requires c != 0.0
    ensures |r| == |xs|
    ensures forall i :: 0 <= i < |xs| ==> r[i] * c == xs[i]
  {
    seq(|xs|, i requires 0 <= i < |xs| => xs[i] / c)
  }

  lemma {:induction false} SumScale(xs: seq<real>, c: real)
    requires c != 0.0
    ensures Sum(Scale(xs, c)) * c == Sum(xs)
    decreases |xs|
  {
    if |xs| > 0 {
      var n := |xs|;
      var s := Scale(xs, c);
      assert s[..n - 1] == Scale(xs[..n - 1], c);
      SumScale(xs[..n - 1], c);
      var a, b := Sum(s[..n - 1]), s[n - 1];
      assert (a + b) * c == a * c + b * c;
    }
  }

  /** Renormalisation: `None` (an empty result) unless the weights sum to more than zero;
      otherwise the weights divided by their total, which sum to 1 and keep their ratios. */
  function NormalizeWeights(ws: seq<real>): (r: Option<seq<real>>)
    ensures r.Some? <==> Sum(ws) > 0.0
    ensures r.Some? ==> |r.value| == |ws| && Sum(r.value) == 1.0
    ensures r.Some? ==> forall i :: 0 <= i < |ws| ==> r.value[i] * Sum(ws) == ws[i]
  {
    var total := Sum(ws);
    if total > 0.0 then
      SumScale(ws, total);
      Some(Scale(ws, total))
    else None
  }

  /** Weighted sum of one row of returns. */
  function Dot(xs: seq<real>, ws: seq<real>): real
    requires |xs| == |ws|
  {
    if |xs| == 0 then 0.0 else Dot(xs[..|xs| - 1], ws[..|ws| - 1]) + xs[|xs| - 1] * ws[|ws| - 1]
  }

  /** The price columns' weights, before renormalisation. */
  function AlignedWeights(prices: Frame, tickers: seq<string>, weights: seq<real>): seq<real>
    requires WellFormed(prices)
  {
    AlignWeights(WeightDict(tickers, weights), GetReturns(prices).columns)
  }

  /** Daily portfolio returns: empty when there is no price data, no return, or no positive
      weight among the price columns; otherwise the renormalised weighted sum of each day. */
  function PortfolioReturns(prices: Frame, tickers: seq<string>, weights: seq<real>): (r: seq<real>)
    requires WellFormed(prices)
    ensures r == [] <==> IsEmpty(prices) || IsEmpty(GetReturns(prices)) ||
                         Sum(AlignedWeights(prices, tickers, weights)) <= 0.0
    ensures r != [] ==> (|r| == |GetReturns(prices).rows| &&
                         forall t :: 0 <= t < |r| ==>
                           r[t] == Dot(GetReturns(prices).rows[t], NormalizeWeights(AlignedWeights(prices, tickers, weights)).value))
  {
    if IsEmpty(prices) then []
    else
      var rets := GetReturns(prices);
      if IsEmpty(rets) then []
      else
        match NormalizeWeights(AlignedWeights(prices, tickers, weights))
        case None => []
        case Some(w) =>
          var r := seq(|rets.rows|, t requires 0 <= t < |rets.rows| => Dot(rets.rows[t], w));
          assert r[0] == Dot(rets.rows[0], w);
          r
  }

  // ---------------------------------------------------------------------------
  // Value at Risk and expected shortfall

  const Z_SCORES: map<real, real> := map[0.90 := 1.282, 0.95 := 1.645, 0.99 := 2.326]

  /** `z_scores.get(confidence, 1.645)`. */
  function ZScore(confidence: real): real
  {
    if confidence in Z_SCORES then Z_SCORES[confidence] else 1.645
  }

  /** The z-table is positive, ordered by confidence, and falls back to the 95% value. */
  lemma ZScoreTable(confidence: real)
    ensures ZScore(confidence) > 0.0
    ensures confidence != 0.90 && confidence != 0.99 ==> ZScore(confidence) == 1.645
    ensures ZScore(0.90) < ZScore(0.95) < ZScore(0.99)
  {
  }

  /** Parametric daily VaR, `-(mean - z * std)`, or 0 for fewer than two returns. */
  function ValueAtRisk(rs: seq<real>, confidence: real, std: StdDev): (v: real)
    ensures |rs| < 2 ==> v == 0.0
  {
    if |rs| < 2 then 0.0
    else -(Mean(rs) - ZScore(confidence) * std(rs))
  }

  /** VaR is the z-scaled deviation less the mean: never below the negated mean, and exactly the
      negated mean for a series without variation. */
  lemma VaRBounds(rs: seq<real>, confidence: real, std: StdDev)
    requires IsSampleStd(std) && |rs| >= 2
    ensures ValueAtRisk(rs, confidence, std) + Mean(rs) == ZScore(confidence) * std(rs)
    ensures ValueAtRisk(rs, confidence, std) >= -Mean(rs)
    ensures (forall i :: 0 <= i < |rs| ==> rs[i] == rs[0]) ==>
      ValueAtRisk(rs, confidence, std) == -rs[0]
  {
    ZScoreTable(confidence);
    assert 0.0 <= std(rs);
    MulNonneg(ZScore(confidence), std(rs));
    if forall i :: 0 <= i < |rs| ==> rs[i] == rs[0] {
      ConstantStdIsZero(std, rs);
      ConstantMean(rs);
    }
  }

  /** A higher confidence level never lowers the VaR. */
  lemma VaRMonotoneInConfidence(rs: seq<real>, std: StdDev)
    requires IsSampleStd(std)
    ensures ValueAtRisk(rs, 0.90, std) <= ValueAtRisk(rs, 0.95, std) <= ValueAtRisk(rs, 0.99, std)
  {
    if |rs| >= 2 {
      var s := std(rs);
      assert 0.0 <= s;
      MulNonneg(1.645 - 1.282, s);
      MulNonneg(2.326 - 1.645, s);
      assert 1.282 * s <= 1.645 * s <= 2.326 * s;
    }
  }

  /** `returns[returns <= threshold]`: the qualifying returns, in order. */
  function TailAtOrBelow(xs: seq<real>, threshold: real): (t: seq<real>)
    ensures |t| <= |xs|
    ensures forall i :: 0 <= i < |t| ==> t[i] <= threshold
    ensures forall x :: x in t <==> x in xs && x <= threshold
    ensures forall x :: multiset(t)[x] == if x <= threshold then multiset(xs)[x] else 0
  {
    if |xs| == 0 then []
    else
      var p := TailAtOrBelow(xs[..|xs| - 1], threshold);
      assert xs == xs[..|xs| - 1] + [xs[|xs| - 1]];
      if xs[|xs| - 1] <= threshold then p + [xs[|xs| - 1]] else p
  }

  /** The filter keeps the order: the tail of a concatenation is the concatenation of the tails. */
  lemma {:induction false} TailAppend(xs: seq<real>, ys: seq<real>, threshold: real)
    ensures TailAtOrBelow(xs + ys, threshold) == TailAtOrBelow(xs, threshold) + TailAtOrBelow(ys, threshold)
    decreases |ys|
  {
    if |ys| > 0 {
      var zs := xs + ys;
      assert zs[..|zs| - 1] == xs + ys[..|ys| - 1];
      assert zs[|zs| - 1] == ys[|ys| - 1];
      TailAppend(xs, ys[..|ys| - 1], threshold);
    } else {
      assert xs + ys == xs;
    }
  }

  lemma {:induction false} TailEmpty(xs: seq<real>, threshold: real)
    requires forall i :: 0 <= i < |xs| ==> xs[i] > threshold
    ensures TailAtOrBelow(xs, threshold) == []
    decreases |xs|
  {
    if |xs| > 0 {
      TailEmpty(xs[..|xs| - 1], threshold);
    }
  }

  /** Conditional VaR: the negated mean of the returns at or below -VaR, or VaR itself when
      there are none, or 0 for fewer than two returns. */
  function ConditionalVaR(rs: seq<real>, confidence: real, std: StdDev): (c: real)
    ensures |rs| < 2 ==> c == 0.0
  {
    if |rs| < 2 then 0.0
    else
      var v := ValueAtRisk(rs, confidence, std);
      var tail := TailAtOrBelow(rs, -v);
      if |tail| == 0 then v else -Mean(tail)
  }

  /** The expected shortfall is never smaller than the VaR; it equals the VaR when no return
      reaches the threshold. */
  lemma CVaRAtLeastVaR(rs: seq<real>, confidence: real, std: StdDev)
    ensures ConditionalVaR(rs, confidence, std) >= ValueAtRisk(rs, confidence, std)
    ensures |rs| >= 2 && (forall i :: 0 <= i < |rs| ==> rs[i] > -ValueAtRisk(rs, confidence, std)) ==>
      ConditionalVaR(rs, confidence, std) == ValueAtRisk(rs, confidence, std)
  {
    if |rs| >= 2 {
      var v := ValueAtRisk(rs, confidence, std);
      var tail := TailAtOrBelow(rs, -v);
      if |tail| > 0 {
        MeanUpperBound(tail, -v);
      }
      if forall i :: 0 <= i < |rs| ==> rs[i] > -v {
        TailEmpty(rs, -v);
      }
    }
  }

  // ---------------------------------------------------------------------------
  // Drawdown, volatility and Sharpe ratio

  /** Maximum drawdown as a positive fraction, or 0 for fewer than two returns. */
  function MaxDrawdown(rs: seq<real>): (d: real)
    ensures |rs| < 2 ==> d == 0.0
  {
    if |rs| < 2 then 0.0
    else
      match DrawdownMin(rs)
      case None => 0.0
      case Some(m) => -m
  }

  /** When no daily return loses everything, the drawdown lies in [0, 1). */
  lemma MaxDrawdownBounds(rs: seq<real>)
    requires forall i :: 0 <= i < |rs| ==> rs[i] > -1.0
    ensures 0.0 <= MaxDrawdown(rs) < 1.0
  {
    if |rs| >= 2 {
      DrawdownMinBounded(rs);
    }
  }

  /** A portfolio whose compounded value never falls has no drawdown. */
  lemma MaxDrawdownNoDecline(rs: seq<real>)
    requires forall i, j :: 0 <= i <= j < |rs| ==> CumProd(rs)[i] <= CumProd(rs)[j]
    ensures MaxDrawdown(rs) == 0.0
  {
    NonDecreasingNoDrawdown(rs);
  }

  /** Compounding starts from the first day's close-to-close growth, so a loss on the first
      return is not counted: a 50% fall followed by a doubling shows no drawdown. */
  lemma MaxDrawdownIgnoresFirstLoss()
    ensures MaxDrawdown([-0.5, 1.0]) == 0.0
  {
    var rs := [-0.5, 1.0];
    assert rs[..1] == [-0.5] && rs[..2] == rs;
    assert Growth([-0.5]) == 0.5;
    assert Growth(rs) == 1.0;
    MaxDrawdownNoDecline(rs);
  }

  const TRADING_DAYS := 252.0
  const RISK_FREE_RATE := 0.02

  /** Standard deviation of daily returns, annualised by sqrt(252) when asked; 0 for fewer than
      two returns. */
  function Volatility(rs: seq<real>, annualize: bool, std: StdDev): (v: real)
    ensures |rs| < 2 ==> v == 0.0
  {
    if |rs| < 2 then 0.0
    else if annualize then std(rs) * SQRT_252
    else std(rs)
  }

  /** Volatility is non-negative, and zero exactly when the returns do not vary. */
  lemma VolatilityBounds(rs: seq<real>, annualize: bool, std: StdDev)
    requires IsSampleStd(std)
    ensures Volatility(rs, annualize, std) >= 0.0
    ensures |rs| >= 2 ==> (Volatility(rs, annualize, std) == 0.0 <==> SampleVariance(rs) == 0.0)
  {
    if |rs| >= 2 {
      assert 0.0 <= std(rs);
    }
  }

  /** Annualised Sharpe ratio `(252 * mean - rf) / (std * sqrt(252))`, or 0 for fewer than two
      returns or a zero volatility. */
  function SharpeRatio(rs: seq<real>, riskFreeRate: real, std: StdDev): (s: real)
    ensures |rs| < 2 ==> s == 0.0
  {
    if |rs| < 2 then 0.0
    else
      var annualReturn := Mean(rs) * TRADING_DAYS;
      var annualVol := std(rs) * SQRT_252;
      if annualVol == 0.0 then 0.0 else (annualReturn - riskFreeRate) / annualVol
  }

  /** The ratio times the annual volatility is the annual excess return; the sign follows the
      excess return; a series without variation has ratio 0. */
  lemma SharpeRelation(rs: seq<real>, riskFreeRate: real, std: StdDev)
    requires IsSampleStd(std) && |rs| >= 2
    ensures std(rs) == 0.0 ==> SharpeRatio(rs, riskFreeRate, std) == 0.0
    ensures std(rs) != 0.0 ==>
      SharpeRatio(rs, riskFreeRate, std) * (std(rs) * SQRT_252) == Mean(rs) * TRADING_DAYS - riskFreeRate
    ensures std(rs) != 0.0 ==>
      (SharpeRatio(rs, riskFreeRate, std) > 0.0 <==> Mean(rs) * TRADING_DAYS > riskFreeRate)
    ensures (forall i :: 0 <= i < |rs| ==> rs[i] == rs[0]) ==>
      SharpeRatio(rs, riskFreeRate, std) == 0.0
  {
    var s := std(rs);
    if s != 0.0 {
      assert s > 0.0;
      var vol := s * SQRT_252;
      MulPos(s, SQRT_252);
      var q := SharpeRatio(rs, riskFreeRate, std);
      var e := Mean(rs) * TRADING_DAYS - riskFreeRate;
      assert q * vol == e;
      if q > 0.0 {
        MulPos(q, vol);
      }
      if e > 0.0 && q <= 0.0 {
        MulNonneg(-q, vol);
      }
    }
    if forall i :: 0 <= i < |rs| ==> rs[i] == rs[0] {
      ConstantStdIsZero(std, rs);
    }
  }

  // ---------------------------------------------------------------------------
  // Diversification score

  /** A correlation matrix labelled by ticker. */
  datatype CorrMatrix = CorrMatrix(columns: seq<string>, values: seq<seq<real>>)

  predicate Square(m: CorrMatrix)
  {
    |m.values| == |m.columns| && forall i :: 0 <= i < |m.values| ==> |m.values[i]| == |m.columns|
  }

  /** A running pair of totals: a weighted quantity and the weight counted so far. */
  datatype Acc = Acc(weighted: real, weight: real)

  function Plus(a: Acc, b: Acc): Acc
  {
    Acc(a.weighted + b.weighted, a.weight + b.weight)
  }

  function PairWeight(d: map<string, real>, cols: seq<string>, i: int, j: int): real
    requires 0 <= i < |cols| && 0 <= j < |cols|
  {
    WeightOf(d, cols[i]) * WeightOf(d, cols[j])
  }

  /** Only a pair with a positive weight product is counted. */
  function AddPair(a: Acc, corr: real, pw: real): Acc
  {
    if pw > 0.0 then Acc(a.weighted + corr * pw, a.weight + pw) else a
  }

  /** The totals over row `i` of the matrix, columns `0 .. j-1`, upper triangle only. */
  function RowAcc(d: map<string, real>, m: CorrMatrix, i: int, j: int): Acc
    requires Square(m) && 0 <= i < |m.columns| && 0 <= j <= |m.columns|
  {
    if j == 0 then Acc(0.0, 0.0)
    else
      var a := RowAcc(d, m, i, j - 1);
      if i < j - 1 then AddPair(a, m.values[i][j - 1], PairWeight(d, m.columns, i, j - 1)) else a
  }

  /** The totals over rows `0 .. i-1`. */
  function TotalAcc(d: map<string, real>, m: CorrMatrix, i: int): Acc
    requires Square(m) && 0 <= i <= |m.columns|
  {
    if i == 0 then Acc(0.0, 0.0) else Plus(TotalAcc(d, m, i - 1), RowAcc(d, m, i - 1, |m.columns|))
  }

  /** 1 for fewer than two tickers or without a counted pair; otherwise one minus the
      weighted average off-diagonal correlation, clamped to [0, 1]. */
  function DiversificationSpec(tickers: seq<string>, weights: seq<real>, m: CorrMatrix): real
    requires Square(m)
  {
    if |tickers| < 2 then 1.0
    else
      var a := TotalAcc(WeightDict(tickers, weights), m, |m.columns|);
      if a.weight == 0.0 then 1.0 else Clamp(1.0 - a.weighted / a.weight, 0.0, 1.0)
  }

  method DiversificationScore(tickers: seq<string>, weights: seq<real>, m: CorrMatrix) returns (score: real)
    requires Square(m)
    ensures score == DiversificationSpec(tickers, weights, m)
  {
    if |tickers| < 2 {
      return 1.0;
    }
    var d := WeightDict(tickers, weights);
    var n := |m.columns|;
    var totalWeightedCorr := 0.0;
    var totalWeight := 0.0;
    var i := 0;
    while i < n
      invariant 0 <= i <= n
      invariant Acc(totalWeightedCorr, totalWeight) == TotalAcc(d, m, i)
    {
      totalWeightedCorr, totalWeight := AddRow(d, m, i, totalWeightedCorr, totalWeight);
      i := i + 1;
    }
    if totalWeight == 0.0 {
      return 1.0;
    }
    var avgCorr := totalWeightedCorr / totalWeight;
    var diversification := 1.0 - avgCorr;
    score := Max(0.0, Min(1.0, diversification));
  }

  /** The inner loop of the score: adds row `i`'s counted pairs to the running totals. */
  method AddRow(d: map<string, real>, m: CorrMatrix, i: int, weightedIn: real, weightIn: real)
    returns (totalWeightedCorr: real, totalWeight: real)
    requires Square(m) && 0 <= i < |m.columns|
    ensures Acc(totalWeightedCorr, totalWeight) == Plus(Acc(weightedIn, weightIn), RowAcc(d, m, i, |m.columns|))
  {
    var n := |m.columns|;
    totalWeightedCorr, totalWeight := weightedIn, weightIn;
    var j := 0;
    while j < n
      invariant 0 <= j <= n
      invariant totalWeightedCorr == weightedIn + RowAcc(d, m, i, j).weighted
      invariant totalWeight == weightIn + RowAcc(d, m, i, j).weight
    {
      RowStep(d, m, i, j);
      if i < j {
        var w1 := WeightOf(d, m.columns[i]);
        var w2 := WeightOf(d, m.columns[j]);
        var pairWeight := w1 * w2;
        assert pairWeight == PairWeight(d, m.columns, i, j);
        if pairWeight > 0.0 {
          totalWeightedCorr := totalWeightedCorr + m.values[i][j] * pairWeight;
          totalWeight := totalWeight + pairWeight;
        }
      }
      j := j + 1;
    }
  }

  /** One column more of row `i`: the pair `(i, j)` is added when it lies above the diagonal and
      its weight product is positive. */
  lemma RowStep(d: map<string, real>, m: CorrMatrix, i: int, j: int)
    requires Square(m) && 0 <= i < |m.columns| && 0 <= j < |m.columns|
    ensures var pw := PairWeight(d, m.columns, i, j);
      if i < j && pw > 0.0 then
        RowAcc(d, m, i, j + 1).weighted == RowAcc(d, m, i, j).weighted + m.values[i][j] * pw &&
        RowAcc(d, m, i, j + 1).weight == RowAcc(d, m, i, j).weight + pw
      else RowAcc(d, m, i, j + 1) == RowAcc(d, m, i, j)
  {
  }

  /** Some pair `i < j` of the matrix has a positive weight product. */
  predicate HasCountedPair(d: map<string, real>, m: CorrMatrix)
    requires Square(m)
  {
    exists i, j :: 0 <= i < j < |m.columns| && PairWeight(d, m.columns, i, j) > 0.0
  }

  lemma {:induction false} RowWeight(d: map<string, real>, m: CorrMatrix, i: int, j: int)
    requires Square(m) && 0 <= i < |m.columns| && 0 <= j <= |m.columns|
    ensures RowAcc(d, m, i, j).weight >= 0.0
    ensures RowAcc(d, m, i, j).weight > 0.0 <==>
      exists k :: i < k < j && PairWeight(d, m.columns, i, k) > 0.0
    decreases j
  {
    if j > 0 {
      RowWeight(d, m, i, j - 1);
    }
  }

  /** The counted weight is never negative, and positive exactly when some pair is counted. */
  lemma {:induction false} TotalWeight(d: map<string, real>, m: CorrMatrix, i: int)
    requires Square(m) && 0 <= i <= |m.columns|
    ensures TotalAcc(d, m, i).weight >= 0.0
    ensures TotalAcc(d, m, i).weight > 0.0 <==>
      exists a, b :: 0 <= a < i && a < b < |m.columns| && PairWeight(d, m.columns, a, b) > 0.0
    decreases i
  {
    if i > 0 {
      TotalWeight(d, m, i - 1);
      RowWeight(d, m, i - 1, |m.columns|);
    }
  }

  /** The weighted total is `c` times the weight. */
  predicate Proportional(a: Acc, c: real)
  {
    a.weighted == c * a.weight
  }

  lemma PlusProportional(a: Acc, b: Acc, c: real)
    requires Proportional(a, c) && Proportional(b, c)
    ensures Proportional(Plus(a, b), c)
  {
    assert c * (a.weight + b.weight) == c * a.weight + c * b.weight;
  }

  lemma AddPairProportional(a: Acc, pw: real, c: real)
    requires Proportional(a, c)
    ensures Proportional(AddPair(a, c, pw), c)
  {
    if pw > 0.0 {
      assert c * (a.weight + pw) == c * a.weight + c * pw;
    }
  }

  /** When every counted correlation equals `c`, the weighted total is `c` times the weight. */
  lemma {:induction false} RowUniform(d: map<string, real>, m: CorrMatrix, i: int, j: int, c: real)
    requires Square(m) && 0 <= i < |m.columns| && 0 <= j <= |m.columns|
    requires forall k :: i < k < |m.columns| && PairWeight(d, m.columns, i, k) > 0.0 ==> m.values[i][k] == c
    ensures Proportional(RowAcc(d, m, i, j), c)
    decreases j
  {
    if j > 0 {
      RowUniform(d, m, i, j - 1, c);
      var a := RowAcc(d, m, i, j - 1);
      if i < j - 1 {
        var pw := PairWeight(d, m.columns, i, j - 1);
        AddPairProportional(a, pw, c);
        assert RowAcc(d, m, i, j) == AddPair(a, c, pw) by {
          if pw > 0.0 {
            assert m.values[i][j - 1] == c;
          }
        }
      }
    }
  }

  lemma {:induction false} TotalUniform(d: map<string, real>, m: CorrMatrix, i: int, c: real)
    requires Square(m) && 0 <= i <= |m.columns|
    requires forall a, b :: 0 <= a < b < |m.columns| && PairWeight(d, m.columns, a, b) > 0.0 ==> m.values[a][b] == c
    ensures Proportional(TotalAcc(d, m, i), c)
    decreases i
  {
    if i > 0 {
      TotalUniform(d, m, i - 1, c);
      RowUniform(d, m, i - 1, |m.columns|, c);
      PlusProportional(TotalAcc(d, m, i - 1), RowAcc(d, m, i - 1, |m.columns|), c);
    }
  }

  /** The score lies in [0, 1]; it is 1 for fewer than two tickers or when no pair is counted,
      and otherwise one minus the weighted average correlation, clamped. */
  lemma DiversificationBounds(tickers: seq<string>, weights: seq<real>, m: CorrMatrix)
    requires Square(m)
    ensures 0.0 <= DiversificationSpec(tickers, weights, m) <= 1.0
    ensures |tickers| < 2 ==> DiversificationSpec(tickers, weights, m) == 1.0
    ensures !HasCountedPair(WeightDict(tickers, weights), m) ==> DiversificationSpec(tickers, weights, m) == 1.0
    ensures |tickers| >= 2 && HasCountedPair(WeightDict(tickers, weights), m) ==>
      TotalAcc(WeightDict(tickers, weights), m, |m.columns|).weight > 0.0 &&
      DiversificationSpec(tickers, weights, m) ==
        Clamp(1.0 - TotalAcc(WeightDict(tickers, weights), m, |m.columns|).weighted /
                    TotalAcc(WeightDict(tickers, weights), m, |m.columns|).weight, 0.0, 1.0)
  {
    TotalWeight(WeightDict(tickers, weights), m, |m.columns|);
  }

  /** Every counted pair perfectly correlated gives 0; every one uncorrelated gives 1. */
  lemma DiversificationExtremes(tickers: seq<string>, weights: seq<real>, m: CorrMatrix, c: real)
    requires Square(m)
    requires c == 0.0 || c == 1.0
    requires forall a, b :: 0 <= a < b < |m.columns| && PairWeight(WeightDict(tickers, weights), m.columns, a, b) > 0.0 ==>
               m.values[a][b] == c
    ensures c == 1.0 && |tickers| >= 2 && HasCountedPair(WeightDict(tickers, weights), m) ==>
      DiversificationSpec(tickers, weights, m) == 0.0
    ensures c == 0.0 ==> DiversificationSpec(tickers, weights, m) == 1.0
  {
    var d := WeightDict(tickers, weights);
    TotalUniform(d, m, |m.columns|, c);
    TotalWeight(d, m, |m.columns|);
  }

  // ---------------------------------------------------------------------------
  // Historical stress scenarios

  datatype Scenario = Scenario(name: string, start: string, end: string)

  const SCENARIOS: seq<Scenario> := [
    Scenario("COVID-19 Crash (Feb-Mar 2020)", "2020-02-19", "2020-03-23"),
    Scenario("2022 Rate Hike Correction", "2022-01-03", "2022-06-16"),
    Scenario("2018 Q4 Selloff", "2018-10-01", "2018-12-24")]

  /** The closes of one ticker over a scenario window. */
  datatype Column = Column(name: string, closes: seq<real>)

  /** What a download of a scenario window gives: nothing (an empty frame or an error), a frame
      with one close column per ticker, or a single unlabeled close column. */
  datatype ScenarioWindow = NoData | MultiClose(series: seq<Column>) | SingleClose(closes: seq<real>)

  /** The downloader: tickers and a scenario to the window's closes. */
  type Downloader = (seq<string>, Scenario) -> ScenarioWindow

  /** The labelled close columns of a window; a single column takes the first ticker's name,
      and without a ticker the scenario fails and is skipped. */
  function WindowColumns(w: ScenarioWindow, tickers: seq<string>): Option<seq<Column>>
  {
    match w
    case NoData => None
    case MultiClose(series) => Some(series)
    case SingleClose(closes) => if |tickers| == 0 then None else Some([Column(tickers[0], closes)])
  }

  /** A column is counted when its ticker has a weight, it has closes and its first close is positive. */
  predicate Counted(d: map<string, real>, c: Column)
  {
    c.name in d && |c.closes| > 0 && c.closes[0] > 0.0
  }

  function WindowReturn(c: Column): real
    requires |c.closes| > 0 && c.closes[0] > 0.0
  {
    (c.closes[|c.closes| - 1] - c.closes[0]) / c.closes[0]
  }

  /** The weighted window returns and the weight of the counted columns `cols`. */
  function ColumnAcc(d: map<string, real>, cols: seq<Column>): Acc
  {
    if |cols| == 0 then Acc(0.0, 0.0)
    else
      var a := ColumnAcc(d, cols[..|cols| - 1]);
      var c := cols[|cols| - 1];
      if Counted(d, c) then Acc(a.weighted + WindowReturn(c) * d[c.name], a.weight + d[c.name]) else a
  }

  /** One stress-test result as the risk engine reports it. */
  datatype StressEntry = StressEntry(scenario: string, portfolioImpact: real)

  /** The result for scenario `k`: none when the window has no data, or when the counted weight
      is not positive; otherwise its rounded impact. */
  function ScenarioEntry(tickers: seq<string>, weights: seq<real>, download: Downloader, k: int): (r: seq<StressEntry>)
    requires 0 <= k < |SCENARIOS|
    ensures |r| <= 1
  {
    match WindowColumns(download(tickers, SCENARIOS[k]), tickers)
    case None => []
    case Some(cols) =>
      var a := ColumnAcc(WeightDict(tickers, weights), cols);
      if a.weight > 0.0 then [StressEntry(SCENARIOS[k].name, Round4(a.weighted / a.weight * a.weight))]
      else []
  }

  /** Results for the first `k` scenarios, in catalogue order. */
  function StressUpTo(tickers: seq<string>, weights: seq<real>, download: Downloader, k: int): (r: seq<StressEntry>)
    requires 0 <= k <= |SCENARIOS|
    ensures |r| <= k
  {
    if k == 0 then [] else StressUpTo(tickers, weights, download, k - 1) + ScenarioEntry(tickers, weights, download, k - 1)
  }

  function StressSpec(tickers: seq<string>, weights: seq<real>, download: Downloader): seq<StressEntry>
  {
    StressUpTo(tickers, weights, download, |SCENARIOS|)
  }

  /** The inner loop over the window's columns. */
  method ScenarioTotals(d: map<string, real>, cols: seq<Column>) returns (totalImpact: real, totalWeight: real)
    ensures Acc(totalImpact, totalWeight) == ColumnAcc(d, cols)
  {
    totalImpact := 0.0;
    totalWeight := 0.0;
    var c := 0;
    while c < |cols|
      invariant 0 <= c <= |cols|
      invariant Acc(totalImpact, totalWeight) == ColumnAcc(d, cols[..c])
    {
      var col := cols[c];
      assert cols[..c + 1][..c] == cols[..c];
      if col.name in d && |col.closes| > 0 {
        var startPrice := col.closes[0];
        var endPrice := col.closes[|col.closes| - 1];
        if startPrice > 0.0 {
          var stockReturn := (endPrice - startPrice) / startPrice;
          totalImpact := totalImpact + stockReturn * d[col.name];
          totalWeight := totalWeight + d[col.name];
        }
      }
      c := c + 1;
    }
    assert cols[..|cols|] == cols;
  }

  method RunStressTests(tickers: seq<string>, weights: seq<real>, download: Downloader) returns (results: seq<StressEntry>)
    ensures results == StressSpec(tickers, weights, download)
  {
    results := [];
    var d := WeightDict(tickers, weights);
    var k := 0;
    while k < |SCENARIOS|
      invariant 0 <= k <= |SCENARIOS|
      invariant results == StressUpTo(tickers, weights, download, k)
    {
      var scenario := SCENARIOS[k];
      var window := WindowColumns(download(tickers, scenario), tickers);
      if window.Some? {
        var totalImpact, totalWeight := ScenarioTotals(d, window.value);
        if totalWeight > 0.0 {
          var impact := totalImpact / totalWeight * totalWeight;
          results := results + [StressEntry(scenario.name, Round4(impact))];
        }
      }
      k := k + 1;
    }
  }

  /** At most one result per scenario, in catalogue order; scenario `k` has a result exactly when
      its window has data and a positive counted weight, and that result carries its name and the
      rounded weighted return of the counted columns, not renormalised by their weight. */
  lemma StressProperties(tickers: seq<string>, weights: seq<real>, download: Downloader, k: int)
    requires 0 <= k < |SCENARIOS|
    ensures |StressSpec(tickers, weights, download)| <= 3
    ensures StressSpec(tickers, weights, download) ==
      ScenarioEntry(tickers, weights, download, 0) + ScenarioEntry(tickers, weights, download, 1) +
      ScenarioEntry(tickers, weights, download, 2)
    ensures |ScenarioEntry(tickers, weights, download, k)| == 1 <==>
      WindowColumns(download(tickers, SCENARIOS[k]), tickers).Some? &&
      ColumnAcc(WeightDict(tickers, weights), WindowColumns(download(tickers, SCENARIOS[k]), tickers).value).weight > 0.0
    ensures |ScenarioEntry(tickers, weights, download, k)| == 1 ==>
      ScenarioEntry(tickers, weights, download, k)[0] ==
        StressEntry(SCENARIOS[k].name,
          Round4(ColumnAcc(WeightDict(tickers, weights), WindowColumns(download(tickers, SCENARIOS[k]), tickers).value).weighted))
  {
    assert StressUpTo(tickers, weights, download, 1) == ScenarioEntry(tickers, weights, download, 0);
    assert StressUpTo(tickers, weights, download, 2) ==
      ScenarioEntry(tickers, weights, download, 0) + ScenarioEntry(tickers, weights, download, 1);
    var w := WindowColumns(download(tickers, SCENARIOS[k]), tickers);
    if w.Some? {
      var a := ColumnAcc(WeightDict(tickers, weights), w.value);
      if a.weight > 0.0 {
        assert a.weighted / a.weight * a.weight == a.weighted;
      }
    }
  }

  // ---------------------------------------------------------------------------
  // Full assessment

  const DATA_PERIOD := "2y"

  /** Everything the risk engine reports about a portfolio. */
  datatype RiskData = RiskData(
    metrics: RiskMetrics,
    stressTests: seq<StressEntry>,
    correlation: Option<CorrMatrix>,
    dataPeriod: string,
    timestamp: string)

  /** The six metrics of a return series, each rounded to four decimals. */
  function MetricsOf(rs: seq<real>, diversification: real, std: StdDev): RiskMetrics
  {
    RiskMetrics(
      Round4(ValueAtRisk(rs, 0.95, std)),
      Round4(ConditionalVaR(rs, 0.95, std)),
      Round4(MaxDrawdown(rs)),
      Round4(Volatility(rs, true, std)),
      Round4(SharpeRatio(rs, RISK_FREE_RATE, std)),
      Round4(diversification))
  }

  /** The assessment over two years of prices `prices` and their correlation matrix `corr`. */
  function FullRiskSpec(tickers: seq<string>, weights: seq<real>, prices: Frame, corr: CorrMatrix,
                        download: Downloader, std: StdDev, now: string): RiskData
    requires WellFormed(prices) && Square(corr)
  {
    RiskData(
      MetricsOf(PortfolioReturns(prices, tickers, weights), DiversificationSpec(tickers, weights, corr), std),
      StressSpec(tickers, weights, download),
      if |corr.columns| == 0 then None else Some(corr),
      DATA_PERIOD,
      now)
  }

  method FullRiskAssessment(tickers: seq<string>, weights: seq<real>, prices: Frame, corr: CorrMatrix,
                            download: Downloader, std: StdDev, now: string) returns (data: RiskData)
    requires WellFormed(prices) && Square(corr)
    ensures data == FullRiskSpec(tickers, weights, prices, corr, download, std, now)
  {
    var portfolioReturns := PortfolioReturns(prices, tickers, weights);
    var diversification := DiversificationScore(tickers, weights, corr);
    var metrics := MetricsOf(portfolioReturns, diversification, std);
    var stressTests := RunStressTests(tickers, weights, download);
    var correlation := if |corr.columns| == 0 then None else Some(corr);
    data := RiskData(metrics, stressTests, correlation, DATA_PERIOD, now);
  }

  /** Rounding keeps the guarantees: CVaR at least VaR, volatility non-negative, diversification
      in [0, 1], drawdown in [0, 1] when no daily return loses everything, at most three stress
      results, and the period is two years. */
  lemma FullRiskBounds(tickers: seq<string>, weights: seq<real>, prices: Frame, corr: CorrMatrix,
                       download: Downloader, std: StdDev, now: string)
    requires WellFormed(prices) && Square(corr) && IsSampleStd(std)
    ensures var r := FullRiskSpec(tickers, weights, prices, corr, download, std, now);
      r.metrics.cvar95 >= r.metrics.var95 &&
      r.metrics.annualizedVolatility >= 0.0 &&
      0.0 <= r.metrics.diversificationScore <= 1.0 &&
      |r.stressTests| <= 3 && r.dataPeriod == "2y" && r.timestamp == now
    ensures var rs := PortfolioReturns(prices, tickers, weights);
      (forall i :: 0 <= i < |rs| ==> rs[i] > -1.0) ==>
      0.0 <= FullRiskSpec(tickers, weights, prices, corr, download, std, now).metrics.maxDrawdown <= 1.0
  {
    var rs := PortfolioReturns(prices, tickers, weights);
    CVaRAtLeastVaR(rs, 0.95, std);
    Round4Monotone(ValueAtRisk(rs, 0.95, std), ConditionalVaR(rs, 0.95, std));
    VolatilityBounds(rs, true, std);
    Round4Monotone(0.0, Volatility(rs, true, std));
    Round4Exact(0);
    DiversificationBounds(tickers, weights, corr);
    Round4Within(DiversificationSpec(tickers, weights, corr), 0, 10000);
    StressProperties(tickers, weights, download, 0);
    if forall i :: 0 <= i < |rs| ==> rs[i] > -1.0 {
      MaxDrawdownBounds(rs);
      Round4Within(MaxDrawdown(rs), 0, 10000);
    }
  }
}
