/** Peak-to-trough drawdown of a return series: compound the returns, track the running
    peak, and take the most negative relative distance from it. Shared by the portfolio risk
    engine (which negates the result) and the rule-based risk agent (which does not). */
module Drawdown {
  import opened Common

  /** Compounded growth of one unit over the returns: the product of (1 + r). */
  function Growth(rs: seq<real>): real
  {
    if |rs| == 0 then 1.0 else Growth(rs[..|rs| - 1]) * (1.0 + rs[|rs| - 1])
  }

  /** `(1 + returns).cumprod()`: the growth after each return. */
  function CumProd(rs: seq<real>): (c: seq<real>)
    ensures |c| == |rs|
    ensures forall i :: 0 <= i < |rs| ==> c[i] == Growth(rs[..i + 1])
  {
    seq(|rs|, i requires 0 <= i < |rs| => Growth(rs[..i + 1]))
  }

  /** The largest element of a non-empty sequence. */
  function MaxOf(xs: seq<real>): (m: real)
    requires |xs| > 0
    ensures forall i :: 0 <= i < |xs| ==> xs[i] <= m
    ensures exists i :: 0 <= i < |xs| && xs[i] == m
  {
    if |xs| == 1 then xs[0]
    else
      var p := MaxOf(xs[..|xs| - 1]);
      assert forall i :: 0 <= i < |xs| - 1 ==> xs[..|xs| - 1][i] == xs[i];
      if xs[|xs| - 1] >= p then xs[|xs| - 1] else p
  }

  /** `expanding().max()` / `cummax()`: the peak so far at each point. */
  function RunningMax(c: seq<real>): (m: seq<real>)
    ensures |m| == |c|
    ensures forall i :: 0 <= i < |c| ==> m[i] == MaxOf(c[..i + 1])
  {
    seq(|c|, i requires 0 <= i < |c| => MaxOf(c[..i + 1]))
  }

  /** `(cum - peak) / peak` at each point; `None` where the peak is zero, where pandas
      would produce a value that `min` skips or that is not finite. */
  function Drawdowns(rs: seq<real>): (d: seq<Option<real>>)
    ensures |d| == |rs|
  {
    var c := CumProd(rs);
    var m := RunningMax(c);
    seq(|rs|, i requires 0 <= i < |rs| =>
      if m[i] == 0.0 then None else Some((c[i] - m[i]) / m[i]))
  }

  /** `min()` over the defined entries; `None` when there is none. */
  function MinDefined(ds: seq<Option<real>>): (r: Option<real>)
    ensures r.None? <==> forall i :: 0 <= i < |ds| ==> ds[i].None?
    ensures r.Some? ==> forall i :: 0 <= i < |ds| && ds[i].Some? ==> r.value <= ds[i].value
    ensures r.Some? ==> exists i :: 0 <= i < |ds| && ds[i] == Some(r.value)
  {
    if |ds| == 0 then None
    else
      var p := MinDefined(ds[..|ds| - 1]);
      assert forall i :: 0 <= i < |ds| - 1 ==> ds[..|ds| - 1][i] == ds[i];
      var last := ds[|ds| - 1];
      if last.None? then p
      else if p.None? || last.value <= p.value then last
      else p
  }

  /** The most negative drawdown of the series (a value <= 0 when defined). */
  function DrawdownMin(rs: seq<real>): Option<real>
  {
    MinDefined(Drawdowns(rs))
  }

  /** Returns above -100% keep the compounded value positive. */
  lemma {:induction false} GrowthPositive(rs: seq<real>)
    requires forall i :: 0 <= i < |rs| ==> rs[i] > -1.0
    ensures Growth(rs) > 0.0
    decreases |rs|
  {
    if |rs| > 0 {
      GrowthPositive(rs[..|rs| - 1]);
      MulPos(Growth(rs[..|rs| - 1]), 1.0 + rs[|rs| - 1]);
    }
  }

  /** A point between zero and its peak is below the peak by less than 100%. */
  lemma RelativeDropBounds(c: real, m: real)
    requires 0.0 < c <= m
    ensures -1.0 < (c - m) / m <= 0.0
  {
    var q := (c - m) / m;
    assert q * m == c - m;
    if q > 0.0 {
      MulPos(q, m);
    }
  }

  /** When no return loses everything, every drawdown is defined and lies in (-1, 0]. */
  lemma DrawdownsBounded(rs: seq<real>)
    requires forall i :: 0 <= i < |rs| ==> rs[i] > -1.0
    ensures forall i :: 0 <= i < |rs| ==>
      Drawdowns(rs)[i].Some? && -1.0 < Drawdowns(rs)[i].value <= 0.0
  {
    var c := CumProd(rs);
    var m := RunningMax(c);
    forall i | 0 <= i < |rs|
      ensures Drawdowns(rs)[i].Some? && -1.0 < Drawdowns(rs)[i].value <= 0.0
    {
      var pre := rs[..i + 1];
      assert forall k :: 0 <= k < |pre| ==> pre[k] == rs[k];
      GrowthPositive(pre);
      assert c[..i + 1][i] == c[i];
      assert c[i] <= m[i];
      RelativeDropBounds(c[i], m[i]);
    }
  }

  /** ... so the deepest drawdown is defined and lies in (-1, 0] for a non-empty series. */
  lemma DrawdownMinBounded(rs: seq<real>)
    requires |rs| > 0
    requires forall i :: 0 <= i < |rs| ==> rs[i] > -1.0
    ensures DrawdownMin(rs).Some?
    ensures -1.0 < DrawdownMin(rs).value <= 0.0
  {
    DrawdownsBounded(rs);
    var d := Drawdowns(rs);
    assert d[0].Some?;
  }

  /** When the compounded value never falls, no drawdown is negative: each defined one is 0. */
  lemma NonDecreasingNoDrawdown(rs: seq<real>)
    requires forall i, j :: 0 <= i <= j < |rs| ==> CumProd(rs)[i] <= CumProd(rs)[j]
    ensures forall i :: 0 <= i < |rs| ==> Drawdowns(rs)[i] == None || Drawdowns(rs)[i] == Some(0.0)
    ensures DrawdownMin(rs) == None || DrawdownMin(rs) == Some(0.0)
  {
    var c := CumProd(rs);
    var d := Drawdowns(rs);
    forall i | 0 <= i < |rs|
      ensures d[i] == None || d[i] == Some(0.0)
    {
      PeakIsCurrent(c, i);
    }
  }

  /** In a non-decreasing sequence the peak so far is the current value. */
  lemma PeakIsCurrent(c: seq<real>, i: int)
    requires forall a, b :: 0 <= a <= b < |c| ==> c[a] <= c[b]
    requires 0 <= i < |c|
    ensures RunningMax(c)[i] == c[i]
  {
    var pre := c[..i + 1];
    var k :| 0 <= k < |pre| && pre[k] == MaxOf(pre);
    assert pre[k] == c[k] && pre[i] == c[i];
  }
}
