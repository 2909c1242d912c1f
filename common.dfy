/** Shared helpers: optional and error-carrying values, sums and means over reals,
    the sample standard deviation as a constrained oracle, rounding to four decimals,
    and the Python string operations the core relies on. */
module Common {

  datatype Option<T> = None | Some(value: T) {
    /** `dict.get(key, default)` / `x or default`: the value, or the default when absent. */
    function GetOr(default: T): T {
      if Some? then value else default
    }
  }

  datatype Result<T, E> = Ok(value: T) | Err(error: E)

  // ---------------------------------------------------------------------------
  // Sums, means and variances over reals

  /** Left-to-right sum, as an accumulator loop computes it. */
  function Sum(xs: seq<real>): real
  {
    if |xs| == 0 then 0.0 else Sum(xs[..|xs| - 1]) + xs[|xs| - 1]
  }

  lemma {:induction false} SumAppend(xs: seq<real>, ys: seq<real>)
    ensures Sum(xs + ys) == Sum(xs) + Sum(ys)
    decreases |ys|
  {
    if |ys| == 0 {
      assert xs + ys == xs;
    } else {
      var zs := xs + ys;
      assert zs[..|zs| - 1] == xs + ys[..|ys| - 1];
      SumAppend(xs, ys[..|ys| - 1]);
    }
  }

  /** Every element is at most `bound`, so the sum is at most |xs| * bound. */
  lemma {:induction false} SumUpperBound(xs: seq<real>, bound: real)
    requires forall i :: 0 <= i < |xs| ==> xs[i] <= bound
    ensures Sum(xs) <= |xs| as real * bound
    decreases |xs|
  {
    if |xs| > 0 {
      SumUpperBound(xs[..|xs| - 1], bound);
    }
  }

  /** Every element is at least `bound`, so the sum is at least |xs| * bound. */
  lemma {:induction false} SumLowerBound(xs: seq<real>, bound: real)
    requires forall i :: 0 <= i < |xs| ==> bound <= xs[i]
    ensures |xs| as real * bound <= Sum(xs)
    decreases |xs|
  {
    if |xs| > 0 {
      SumLowerBound(xs[..|xs| - 1], bound);
    }
  }

  /** Arithmetic mean; pandas returns NaN for an empty series, so the model needs one element. */
  function Mean(xs: seq<real>): real
    requires |xs| > 0
  {
    Sum(xs) / |xs| as real
  }

  lemma MeanUpperBound(xs: seq<real>, bound: real)
    requires |xs| > 0
    requires forall i :: 0 <= i < |xs| ==> xs[i] <= bound
    ensures Mean(xs) <= bound
  {
    SumUpperBound(xs, bound);
    var n := |xs| as real;
    assert Sum(xs) <= n * bound;
    assert Sum(xs) / n <= bound;
  }

  lemma MeanLowerBound(xs: seq<real>, bound: real)
    requires |xs| > 0
    requires forall i :: 0 <= i < |xs| ==> bound <= xs[i]
    ensures bound <= Mean(xs)
  {
    SumLowerBound(xs, bound);
    var n := |xs| as real;
    assert n * bound <= Sum(xs);
    assert bound <= Sum(xs) / n;
  }

  /** Squared deviations of every element from `m`. */
  function SquaredDeviations(xs: seq<real>, m: real): (r: seq<real>)
    ensures |r| == |xs|
    ensures forall i :: 0 <= i < |xs| ==> r[i] == (xs[i] - m) * (xs[i] - m)
  {
    seq(|xs|, i requires 0 <= i < |xs| => (xs[i] - m) * (xs[i] - m))
  }

  /** Sample variance with Bessel's correction (pandas `std` uses ddof = 1). */
  function SampleVariance(xs: seq<real>): real
    requires |xs| >= 2
  {
    Sum(SquaredDeviations(xs, Mean(xs))) / (|xs| - 1) as real
  }

  /** A sample standard deviation, supplied from outside because square roots of
      arbitrary reals are not computable here. */
  type StdDev = seq<real> -> real

  /** `std` is the sample standard deviation wherever pandas defines one (two or more values):
      the non-negative root of the sample variance. The last conjunct follows from the other two;
      it is stated because the solver does not derive it from a product. */
  ghost predicate IsSampleStd(std: StdDev)
  {
    forall xs: seq<real> {:trigger std(xs)} :: |xs| >= 2 ==>
      0.0 <= std(xs) && std(xs) * std(xs) == SampleVariance(xs) &&
      (std(xs) == 0.0 <==> SampleVariance(xs) == 0.0)
  }

  /** The mean of a series whose values are all equal is that value. */
  lemma ConstantMean(xs: seq<real>)
    requires |xs| > 0
    requires forall i :: 0 <= i < |xs| ==> xs[i] == xs[0]
    ensures Mean(xs) == xs[0]
  {
    MeanUpperBound(xs, xs[0]);
    MeanLowerBound(xs, xs[0]);
  }

  /** A series whose values are all equal has zero sample variance. */
  lemma ConstantVarianceIsZero(xs: seq<real>)
    requires |xs| >= 2
    requires forall i :: 0 <= i < |xs| ==> xs[i] == xs[0]
    ensures SampleVariance(xs) == 0.0
  {
    ConstantMean(xs);
    var d := SquaredDeviations(xs, Mean(xs));
    SumUpperBound(d, 0.0);
    SumLowerBound(d, 0.0);
  }

  /** ... and hence zero standard deviation. */
  lemma ConstantStdIsZero(std: StdDev, xs: seq<real>)
    requires IsSampleStd(std)
    requires |xs| >= 2
    requires forall i :: 0 <= i < |xs| ==> xs[i] == xs[0]
    ensures std(xs) == 0.0
  {
    ConstantVarianceIsZero(xs);
  }

  /** A product of two positive reals is positive. */
  lemma MulPos(a: real, b: real)
    requires a > 0.0 && b > 0.0
    ensures a * b > 0.0
  {}

  /** Dividing by a non-zero real and multiplying back gives the original value. */
  lemma DivMul(x: real, y: real)
    requires y != 0.0
    ensures x / y * y == x
  {
  }

  /** A product of two non-negative reals is non-negative. */
  lemma MulNonneg(a: real, b: real)
    requires 0.0 <= a && 0.0 <= b
    ensures 0.0 <= a * b
  {
    if a > 0.0 && b > 0.0 {
      MulPos(a, b);
    }
  }

  /** The last `k` elements (pandas `tail(k)`): all of them when there are fewer. */
  function Tail<T>(xs: seq<T>, k: nat): (r: seq<T>)
    ensures |r| == if |xs| < k then |xs| else k
    ensures r == xs[|xs| - |r|..]
  {
    if |xs| <= k then xs else xs[|xs| - k..]
  }

  /** `np.sqrt(252)` as the double it evaluates to: annualises a daily standard deviation. */
  const SQRT_252 := 15.874507866387544

  function Max(a: real, b: real): real { if a >= b then a else b }
  function Min(a: real, b: real): real { if a <= b then a else b }
  function Abs(a: real): real { if a < 0.0 then -a else a }

  /** Python's max(lo, min(hi, x)). */
  function Clamp(x: real, lo: real, hi: real): (r: real)
    requires lo <= hi
    ensures lo <= r <= hi
    ensures lo <= x <= hi ==> r == x
  {
    Max(lo, Min(hi, x))
  }

  // ---------------------------------------------------------------------------
  // round(x, 4), as round-half-to-even on the exact real value

  /** Round half to even to an integer. */
  function RoundHalfEven(y: real): (n: int)
    ensures n as real - 0.5 <= y <= n as real + 0.5
  {
    var f := y.Floor;
    var frac := y - f as real;
    if frac < 0.5 then f
    else if frac > 0.5 then f + 1
    else if f % 2 == 0 then f else f + 1
  }

  lemma RoundHalfEvenMonotone(x: real, y: real)
    requires x <= y
    ensures RoundHalfEven(x) <= RoundHalfEven(y)
  {
    var fx, fy := x.Floor, y.Floor;
    if fx < fy {
      assert RoundHalfEven(x) <= fx + 1 <= fy <= RoundHalfEven(y);
    }
  }

  function Round4(x: real): (r: real)
  {
    RoundHalfEven(x * 10000.0) as real / 10000.0
  }

  /** Rounding moves a value by at most half a unit in the fourth decimal. */
  lemma Round4Error(x: real)
    ensures -0.00005 <= Round4(x) - x <= 0.00005
  {
    var n := RoundHalfEven(x * 10000.0);
  }

  /** Rounding preserves order. */
  lemma Round4Monotone(x: real, y: real)
    requires x <= y
    ensures Round4(x) <= Round4(y)
  {
    RoundHalfEvenMonotone(x * 10000.0, y * 10000.0);
  }

  /** A value that already has four decimals is unchanged. */
  lemma Round4Exact(k: int)
    ensures Round4(k as real / 10000.0) == k as real / 10000.0
  {
    var x := k as real / 10000.0;
    assert x * 10000.0 == k as real;
    assert (x * 10000.0).Floor == k;
  }

  /** Rounding keeps a value inside [lo, hi] when both ends have four decimals. */
  lemma Round4Within(x: real, lo: int, hi: int)
    requires lo as real / 10000.0 <= x <= hi as real / 10000.0
    ensures lo as real / 10000.0 <= Round4(x) <= hi as real / 10000.0
  {
    Round4Monotone(lo as real / 10000.0, x);
    Round4Monotone(x, hi as real / 10000.0);
    Round4Exact(lo);
    Round4Exact(hi);
  }

  // ---------------------------------------------------------------------------
  // Strings (seq<char>)

  /** `sep.join(xs)`. */
  function Join(xs: seq<string>, sep: string): string
  {
    if |xs| == 0 then ""
    else if |xs| == 1 then xs[0]
    else Join(xs[..|xs| - 1], sep) + sep + xs[|xs| - 1]
  }

  /** `s[:n]` for n >= 0. */
  function Take(s: string, n: nat): (r: string)
    ensures |r| == if |s| < n then |s| else n
    ensures r == s[..|r|]
  {
    if |s| <= n then s else s[..n]
  }

  predicate IsPrefix(p: string, s: string)
  {
    |p| <= |s| && s[..|p|] == p
  }

  /** Python's `sub in s`. */
  predicate Contains(s: string, sub: string)
    decreases |s|
  {
    IsPrefix(sub, s) || (|s| > 0 && Contains(s[1..], sub))
  }

  /** `sub` occurs in `s` starting at index `i`. */
  predicate OccursAt(s: string, sub: string, i: int)
  {
    0 <= i <= |s| - |sub| && s[i..i + |sub|] == sub
  }

  /** `sub in s` holds exactly when `sub` occurs at some position of `s`. */
  lemma {:induction false} ContainsAt(s: string, sub: string)
    ensures Contains(s, sub) <==> exists i :: OccursAt(s, sub, i)
    decreases |s|
  {
    if IsPrefix(sub, s) {
      assert OccursAt(s, sub, 0);
    } else if |s| > 0 {
      ContainsAt(s[1..], sub);
      if Contains(s[1..], sub) {
        var i :| OccursAt(s[1..], sub, i);
        assert s[i + 1..i + 1 + |sub|] == s[1..][i..i + |sub|];
        assert OccursAt(s, sub, i + 1);
      }
      if exists i :: OccursAt(s, sub, i) {
        var i :| OccursAt(s, sub, i);
        assert i != 0;
        assert s[1..][i - 1..i - 1 + |sub|] == s[i..i + |sub|];
        assert OccursAt(s[1..], sub, i - 1);
      }
    }
  }

  /** A string contains every piece it is built around. */
  lemma ContainsMiddle(a: string, sub: string, b: string)
    ensures Contains(a + sub + b, sub)
  {
    var s := a + sub + b;
    assert s[|a|..|a| + |sub|] == sub;
    assert OccursAt(s, sub, |a|);
    ContainsAt(s, sub);
  }

  function DigitChar(d: int): char
    requires 0 <= d < 10
  {
    "0123456789"[d]
  }

  function NatToString(n: nat): (r: string)
    ensures |r| > 0
    decreases n
  {
    if n < 10 then [DigitChar(n)] else NatToString(n / 10) + [DigitChar(n % 10)]
  }

  /** Python's `str(n)` / f"{n}" for an int. */
  function IntToString(n: int): (r: string)
    ensures |r| > 0
  {
    if n < 0 then "-" + NatToString(-n) else NatToString(n)
  }
}
