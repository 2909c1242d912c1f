/** The agent coordinator: runs every agent on a stock's frame, turns their signals into one
    recommendation by a weighted vote, remembers the result per symbol and ranks the remembered
    results. */
module Coordinator {
  import opened Common
  import opened TradingSignals
  import opened Agents
  import opened SmiData

  // ---------------------------------------------------------------------------
  // The weighted vote

  /** One agent's entry in a stock's result. The agents' free-text reasons are not modelled. */
  datatype AgentSignal = AgentSignal(agent: string, signal: Signal, confidence: real, weight: real)

  /** The running totals of the vote: weight times confidence behind BUY and behind SELL, and the
      sum of the raw weights of all agents. */
  datatype Scores = Scores(buy: real, sell: real, total: real)

  /** The totals after the signals in order, as the accumulator loop leaves them. */
  function RawScores(ss: seq<AgentSignal>): Scores
  {
    if |ss| == 0 then Scores(0.0, 0.0, 0.0)
    else
      var before, s := RawScores(ss[..|ss| - 1]), ss[|ss| - 1];
      var vote := s.weight * s.confidence;
      Scores(before.buy + (if s.signal == Buy then vote else 0.0),
             before.sell + (if s.signal == Sell then vote else 0.0),
             before.total + s.weight)
  }

  /** One more signal adds its vote to the score of its side and its weight to the total. */
  lemma RawScoresStep(ss: seq<AgentSignal>, i: int)
    requires 0 <= i < |ss|
    ensures var before, s := RawScores(ss[..i]), ss[i];
      var vote := s.weight * s.confidence;
      RawScores(ss[..i + 1]) ==
        Scores(before.buy + (if s.signal == Buy then vote else 0.0),
               before.sell + (if s.signal == Sell then vote else 0.0),
               before.total + s.weight)
  {
    assert ss[..i + 1][..i] == ss[..i] && ss[..i + 1][i] == ss[i];
  }

  /** Scores divided by the total weight, but only when that total is positive. */
  function Normalize(sc: Scores): Scores
  {
    if sc.total > 0.0 then Scores(sc.buy / sc.total, sc.sell / sc.total, sc.total) else sc
  }

  /** The minimum score for BUY or SELL. */
  const THRESHOLD := 0.4

  /** The names of the agents that gave `signal`, in agent order. */
  function Voters(ss: seq<AgentSignal>, signal: Signal): (names: seq<string>)
    ensures |names| <= |ss|
  {
    if |ss| == 0 then []
    else Voters(ss[..|ss| - 1], signal) + (if ss[|ss| - 1].signal == signal then [ss[|ss| - 1].agent] else [])
  }

  /** An agent is named exactly when one of its signals is the one voted for. */
  lemma {:induction false} VotersMembers(ss: seq<AgentSignal>, signal: Signal)
    ensures forall name :: name in Voters(ss, signal) <==>
      exists i :: 0 <= i < |ss| && ss[i].signal == signal && ss[i].agent == name
    decreases |ss|
  {
    if |ss| > 0 {
      var init := ss[..|ss| - 1];
      VotersMembers(init, signal);
      forall i | 0 <= i < |init|
        ensures ss[i] == init[i]
      {
      }
      forall name | name in Voters(ss, signal)
        ensures exists i :: 0 <= i < |ss| && ss[i].signal == signal && ss[i].agent == name
      {
        if name in Voters(init, signal) {
          var i :| 0 <= i < |init| && init[i].signal == signal && init[i].agent == name;
          assert ss[i] == init[i];
        } else {
          assert ss[|ss| - 1].signal == signal && ss[|ss| - 1].agent == name;
        }
      }
    }
  }

  /** The names keep the agents' order: the voters of a concatenation are the voters of each part
      in turn. */
  lemma {:induction false} VotersAppend(ss: seq<AgentSignal>, ts: seq<AgentSignal>, signal: Signal)
    ensures Voters(ss + ts, signal) == Voters(ss, signal) + Voters(ts, signal)
    decreases |ts|
  {
    if |ts| > 0 {
      var us := ss + ts;
      assert us[..|us| - 1] == ss + ts[..|ts| - 1];
      assert us[|us| - 1] == ts[|ts| - 1];
      VotersAppend(ss, ts[..|ts| - 1], signal);
    } else {
      assert ss + ts == ss;
    }
  }

  /** The recommendation the vote produces. */
  datatype Aggregate = Aggregate(signal: Signal, confidence: real, reason: string)

  /** `_aggregate_signals`: HOLD with confidence 0 when there are no signals; otherwise BUY or SELL
      when its normalised score beats the other and the threshold, and HOLD with one minus the
      larger score otherwise. */
  function AggregateSpec(ss: seq<AgentSignal>): Aggregate
  {
    if |ss| == 0 then Aggregate(Hold, 0.0, "No agent signals")
    else
      var n := Normalize(RawScores(ss));
      if n.buy > n.sell && n.buy > THRESHOLD then
        Aggregate(Buy, n.buy, "Majority BUY signal from: " + Join(Voters(ss, Buy), ", "))
      else if n.sell > n.buy && n.sell > THRESHOLD then
        Aggregate(Sell, n.sell, "Majority SELL signal from: " + Join(Voters(ss, Sell), ", "))
      else Aggregate(Hold, 1.0 - Max(n.buy, n.sell), "Mixed or weak signals from agents")
  }

  /** The accumulator loop of `_aggregate_signals`. */
  method AggregateSignals(ss: seq<AgentSignal>) returns (r: Aggregate)
    ensures r == AggregateSpec(ss)
  {
    if |ss| == 0 {
      return Aggregate(Hold, 0.0, "No agent signals");
    }
    var buy, sell, total := 0.0, 0.0, 0.0;
    var i := 0;
    while i < |ss|
      invariant 0 <= i <= |ss|
      invariant Scores(buy, sell, total) == RawScores(ss[..i])
    {
      RawScoresStep(ss, i);
      var vote := ss[i].weight * ss[i].confidence;
      total := total + ss[i].weight;
      if ss[i].signal == Buy {
        buy := buy + vote;
      } else if ss[i].signal == Sell {
        sell := sell + vote;
      }
      i := i + 1;
    }
    assert ss[..i] == ss;
    if total > 0.0 {
      buy := buy / total;
      sell := sell / total;
    }
    if buy > sell && buy > THRESHOLD {
      r := Aggregate(Buy, buy, "Majority BUY signal from: " + Join(Voters(ss, Buy), ", "));
    } else if sell > buy && sell > THRESHOLD {
      r := Aggregate(Sell, sell, "Majority SELL signal from: " + Join(Voters(ss, Sell), ", "));
    } else {
      r := Aggregate(Hold, 1.0 - Max(buy, sell), "Mixed or weak signals from agents");
    }
  }

  /** The three outcomes of the vote, each with its condition in both directions. */
  lemma AggregateCases(ss: seq<AgentSignal>)
    requires |ss| > 0
    ensures var r, n := AggregateSpec(ss), Normalize(RawScores(ss));
      (r.signal == Buy <==> n.buy > n.sell && n.buy > THRESHOLD) &&
      (r.signal == Sell <==> n.sell > n.buy && n.sell > THRESHOLD) &&
      (r.signal == Buy ==> r.confidence == n.buy && r.reason == "Majority BUY signal from: " + Join(Voters(ss, Buy), ", ")) &&
      (r.signal == Sell ==> r.confidence == n.sell && r.reason == "Majority SELL signal from: " + Join(Voters(ss, Sell), ", ")) &&
      (r.signal == Hold ==> r.confidence == 1.0 - Max(n.buy, n.sell))
  {
  }

  /** A weight in [0, ∞) times a confidence in [0, 1] is a vote between 0 and the weight. */
  lemma VoteBounds(s: AgentSignal)
    requires s.weight >= 0.0 && 0.0 <= s.confidence <= 1.0
    ensures 0.0 <= s.weight * s.confidence <= s.weight
  {
    MulNonneg(s.weight, s.confidence);
    MulNonneg(s.weight, 1.0 - s.confidence);
  }

  /** Agents with non-negative weights and confidences in [0, 1]. */
  predicate WellFormed(ss: seq<AgentSignal>)
  {
    forall i :: 0 <= i < |ss| ==> ss[i].weight >= 0.0 && 0.0 <= ss[i].confidence <= 1.0
  }

  /** Under well-formed signals the two scores are non-negative and together at most the total
      weight. */
  lemma {:induction false} RawScoresBounds(ss: seq<AgentSignal>)
    requires WellFormed(ss)
    ensures var sc := RawScores(ss);
      0.0 <= sc.buy && 0.0 <= sc.sell && sc.buy + sc.sell <= sc.total
    decreases |ss|
  {
    if |ss| > 0 {
      var init, last := ss[..|ss| - 1], ss[|ss| - 1];
      assert forall i :: 0 <= i < |init| ==> init[i] == ss[i];
      RawScoresBounds(init);
      VoteBounds(last);
      var before, vote := RawScores(init), last.weight * last.confidence;
      assert 0.0 <= vote <= last.weight;
      var sc := RawScores(ss);
      assert sc.total == before.total + last.weight;
      if last.signal == Buy {
        assert sc.buy == before.buy + vote && sc.sell == before.sell;
      } else if last.signal == Sell {
        assert sc.buy == before.buy && sc.sell == before.sell + vote;
      } else {
        assert sc.buy == before.buy && sc.sell == before.sell;
      }
    }
  }

  /** A part of a positive whole, divided by the whole, lies in [0, 1]. */
  lemma FractionBounds(x: real, t: real)
    requires 0.0 <= x <= t && t > 0.0
    ensures 0.0 <= x / t <= 1.0
  {
    DivMul(x, t);
    var q := x / t;
    if q > 1.0 {
      MulPos(q - 1.0, t);
    }
    if q < 0.0 {
      MulPos(-q, t);
    }
  }

  /** Under well-formed signals the recommendation's confidence lies in [0, 1], and a BUY or SELL
      is always backed by a score above the threshold. No signals give HOLD with confidence 0;
      signals without any weight give HOLD with full confidence. */
  lemma AggregateBounds(ss: seq<AgentSignal>)
    requires WellFormed(ss)
    ensures var r := AggregateSpec(ss);
      0.0 <= r.confidence <= 1.0 &&
      (r.signal != Hold ==> r.confidence > THRESHOLD) &&
      (|ss| == 0 ==> r.signal == Hold && r.confidence == 0.0) &&
      (|ss| > 0 && RawScores(ss).total == 0.0 ==> r.signal == Hold && r.confidence == 1.0)
  {
    if |ss| > 0 {
      var sc := RawScores(ss);
      RawScoresBounds(ss);
      if sc.total > 0.0 {
        FractionBounds(sc.buy, sc.total);
        FractionBounds(sc.sell, sc.total);
      }
    }
  }

  /** A positive score behind a signal needs at least one agent that gave it. */
  lemma {:induction false} ScoreNeedsVoter(ss: seq<AgentSignal>)
    ensures RawScores(ss).buy != 0.0 ==> |Voters(ss, Buy)| > 0
    ensures RawScores(ss).sell != 0.0 ==> |Voters(ss, Sell)| > 0
    decreases |ss|
  {
    if |ss| > 0 {
      ScoreNeedsVoter(ss[..|ss| - 1]);
    }
  }

  /** A BUY names at least one agent that said BUY, and a SELL one that said SELL. */
  lemma DecisionHasVoters(ss: seq<AgentSignal>)
    ensures AggregateSpec(ss).signal == Buy ==> |Voters(ss, Buy)| > 0
    ensures AggregateSpec(ss).signal == Sell ==> |Voters(ss, Sell)| > 0
  {
    if |ss| > 0 {
      ScoreNeedsVoter(ss);
    }
  }

  /** The totals of agents that all say BUY with the same confidence. */
  lemma {:induction false} UnanimousScores(ss: seq<AgentSignal>, c: real)
    requires forall i :: 0 <= i < |ss| ==> ss[i].signal == Buy && ss[i].confidence == c && ss[i].weight > 0.0
    ensures RawScores(ss).buy == c * RawScores(ss).total && RawScores(ss).sell == 0.0
    ensures |ss| > 0 ==> RawScores(ss).total > 0.0
    ensures Voters(ss, Buy) == seq(|ss|, i requires 0 <= i < |ss| => ss[i].agent)
    decreases |ss|
  {
    if |ss| > 0 {
      var init := ss[..|ss| - 1];
      UnanimousScores(init, c);
      var names := seq(|ss|, i requires 0 <= i < |ss| => ss[i].agent);
      assert names == seq(|init|, i requires 0 <= i < |init| => init[i].agent) + [ss[|ss| - 1].agent];
    }
  }

  /** When every agent says BUY with the same confidence above the threshold and a positive
      weight, the vote is BUY with exactly that confidence, naming every agent. */
  lemma UnanimousBuy(ss: seq<AgentSignal>, c: real)
    requires |ss| > 0 && c > THRESHOLD
    requires forall i :: 0 <= i < |ss| ==> ss[i].signal == Buy && ss[i].confidence == c && ss[i].weight > 0.0
    ensures AggregateSpec(ss).signal == Buy && AggregateSpec(ss).confidence == c
    ensures AggregateSpec(ss).reason ==
      "Majority BUY signal from: " + Join(seq(|ss|, i requires 0 <= i < |ss| => ss[i].agent), ", ")
  {
    UnanimousScores(ss, c);
    var sc := RawScores(ss);
    var t := sc.total;
    assert sc.buy / t == c by {
      DivMul(c * t, t);
      assert c * t / t * t == c * t;
    }
    assert sc.sell / t == 0.0;
  }

  // ---------------------------------------------------------------------------
  // Stock results

  /** What `analyze_stock` returns. The price is absent for an empty frame and on a failed
      fetch. */
  datatype StockResult = StockResult(symbol: string, recommendation: Signal, confidence: real, reason: string,
                                     agentSignals: seq<AgentSignal>, currentPrice: Option<real>)

  /** The result when no frame could be fetched. */
  function FailedResult(symbol: string): StockResult
  {
    StockResult(symbol, Hold, 0.0, "Unable to fetch data", [], None)
  }

  /** Every agent is built with windows of at least one row. */
  predicate AgentsValid(agents: seq<Agent>)
  {
    forall a :: a in agents ==> a.strategy.Valid()
  }

  /** One agent's entry for a frame. */
  function SignalOf(a: Agent, frame: seq<Bar>, std: StdDev): AgentSignal
    requires a.strategy.Valid()
  {
    var an := AnalysisOf(a.strategy, frame, std);
    AgentSignal(a.name, an.signal, an.confidence, a.weight)
  }

  /** One entry per agent, in agent order. */
  function SignalsOf(agents: seq<Agent>, frame: seq<Bar>, std: StdDev): (ss: seq<AgentSignal>)
    requires AgentsValid(agents)
    ensures |ss| == |agents|
    ensures forall i :: 0 <= i < |agents| ==> ss[i] == SignalOf(agents[i], frame, std)
  {
    seq(|agents|, i requires 0 <= i < |agents| => SignalOf(agents[i], frame, std))
  }

  /** Every entry has the weight of its agent and a confidence in [0, 1]; with non-negative
      weights the entries are well formed, so the vote's confidence lies in [0, 1]. */
  lemma SignalsWellFormed(agents: seq<Agent>, frame: seq<Bar>, std: StdDev)
    requires AgentsValid(agents)
    requires forall i :: 0 <= i < |agents| ==> agents[i].weight >= 0.0
    ensures WellFormed(SignalsOf(agents, frame, std))
    ensures 0.0 <= AggregateSpec(SignalsOf(agents, frame, std)).confidence <= 1.0
  {
    var ss := SignalsOf(agents, frame, std);
    forall i | 0 <= i < |ss|
      ensures ss[i].weight >= 0.0 && 0.0 <= ss[i].confidence <= 1.0
    {
      AnalysisInRange(agents[i].strategy, frame, std);
    }
    AggregateBounds(ss);
  }

  /** The result for a frame: the agents' entries, the vote over them, and the last close. */
  function ResultFor(symbol: string, agents: seq<Agent>, frame: seq<Bar>, std: StdDev): StockResult
    requires AgentsValid(agents)
  {
    var ss := SignalsOf(agents, frame, std);
    var g := AggregateSpec(ss);
    StockResult(symbol, g.signal, g.confidence, g.reason, ss,
                if |frame| == 0 then None else Some(frame[|frame| - 1].close as real))
  }

  /** An agent's signals map after analysing `frame` for `symbol`. */
  function Stored(signals: map<string, Analysis>, a: Agent, symbol: string, frame: seq<Bar>, std: StdDev)
    : map<string, Analysis>
    requires a.strategy.Valid()
  {
    if Sufficient(a.strategy, frame) then signals[symbol := AnalysisOf(a.strategy, frame, std)] else signals
  }

  /** `[a for a in agents if a.name != name]`. */
  function WithoutName(agents: seq<Agent>, name: string): (kept: seq<Agent>)
    ensures |kept| <= |agents|
  {
    if |agents| == 0 then []
    else WithoutName(agents[..|agents| - 1], name) + (if agents[|agents| - 1].name != name then [agents[|agents| - 1]] else [])
  }

  /** Removal keeps exactly the agents with another name, in order, and filtering a concatenation
      filters each part. */
  lemma {:induction false} WithoutNameProperties(agents: seq<Agent>, name: string)
    ensures forall a :: a in WithoutName(agents, name) <==> a in agents && a.name != name
    ensures forall more: seq<Agent> {:trigger WithoutName(agents + more, name)} ::
      WithoutName(agents + more, name) == WithoutName(agents, name) + WithoutName(more, name)
    decreases |agents|
  {
    if |agents| > 0 {
      WithoutNameProperties(agents[..|agents| - 1], name);
    }
    forall more: seq<Agent>
      ensures WithoutName(agents + more, name) == WithoutName(agents, name) + WithoutName(more, name)
    {
      WithoutNameAppend(agents, more, name);
    }
  }

  lemma {:induction false} WithoutNameAppend(a: seq<Agent>, b: seq<Agent>, name: string)
    ensures WithoutName(a + b, name) == WithoutName(a, name) + WithoutName(b, name)
    decreases |b|
  {
    if |b| > 0 {
      var n := |b| - 1;
      WithoutNameAppend(a, b[..n], name);
      assert (a + b)[..|a + b| - 1] == a + b[..n];
    } else {
      assert a + b == a;
    }
  }

  // ---------------------------------------------------------------------------
  // Ranking

  /** The results with the requested recommendation, in insertion order. */
  function WithRecommendation(rs: seq<StockResult>, signalType: string): (out: seq<StockResult>)
    ensures |out| <= |rs|
  {
    if |rs| == 0 then []
    else
      WithRecommendation(rs[..|rs| - 1], signalType) +
        (if SignalValue(rs[|rs| - 1].recommendation) == signalType then [rs[|rs| - 1]] else [])
  }

  /** The filter keeps exactly the results with the requested recommendation. */
  lemma {:induction false} WithRecommendationMembers(rs: seq<StockResult>, signalType: string)
    ensures forall r :: r in WithRecommendation(rs, signalType) <==>
      r in rs && SignalValue(r.recommendation) == signalType
    decreases |rs|
  {
    if |rs| > 0 {
      var n := |rs| - 1;
      WithRecommendationMembers(rs[..n], signalType);
      assert forall r :: r in rs <==> r in rs[..n] || r == rs[n];
    }
  }

  /** Confidence never increases along the list. */
  predicate ByConfidence(rs: seq<StockResult>)
  {
    forall i, j :: 0 <= i < j < |rs| ==> rs[i].confidence >= rs[j].confidence
  }

  /** Inserts `x` after every entry with at least its confidence, which keeps equal entries in
      their original order. */
  function InsertByConfidence(x: StockResult, rs: seq<StockResult>): (out: seq<StockResult>)
    requires ByConfidence(rs)
    ensures |out| == |rs| + 1
    ensures ByConfidence(out)
    ensures multiset(out) == multiset(rs) + multiset{x}
  {
    if |rs| == 0 then [x]
    else if rs[0].confidence >= x.confidence then
      var rest := InsertByConfidence(x, rs[1..]);
      assert rs == [rs[0]] + rs[1..];
      HeadAbove(x, rs, rest);
      [rs[0]] + rest
    else [x] + rs
  }

  /** The head of a sorted list that is at least as confident as `x` stays ahead of every entry
      of the tail with `x` inserted, so the list stays sorted. */
  lemma HeadAbove(x: StockResult, rs: seq<StockResult>, rest: seq<StockResult>)
    requires ByConfidence(rs) && |rs| > 0 && rs[0].confidence >= x.confidence
    requires ByConfidence(rest) && multiset(rest) == multiset(rs[1..]) + multiset{x}
    ensures ByConfidence([rs[0]] + rest)
  {
    var out := [rs[0]] + rest;
    forall k | 0 <= k < |rest|
      ensures rs[0].confidence >= rest[k].confidence
    {
      assert rest[k] in multiset(rest);
      if rest[k] != x {
        assert rest[k] in rs[1..];
      }
    }
    forall i, j | 0 <= i < j < |out|
      ensures out[i].confidence >= out[j].confidence
    {
      if i > 0 {
        assert out[i] == rest[i - 1] && out[j] == rest[j - 1];
      } else {
        assert out[j] == rest[j - 1];
      }
    }
  }

  /** `sorted(rs, key=confidence, reverse=True)`: a stable insertion sort, newest entry last. */
  function SortByConfidence(rs: seq<StockResult>): (out: seq<StockResult>)
    ensures |out| == |rs|
    ensures ByConfidence(out)
    ensures multiset(out) == multiset(rs)
  {
    if |rs| == 0 then []
    else
      assert rs == rs[..|rs| - 1] + [rs[|rs| - 1]];
      InsertByConfidence(rs[|rs| - 1], SortByConfidence(rs[..|rs| - 1]))
  }

  /** The slice `xs[:n]`, where a negative `n` counts from the end. */
  function SliceTo<T>(xs: seq<T>, n: int): (out: seq<T>)
    ensures n >= 0 ==> |out| == if n <= |xs| then n else |xs|
    ensures n < 0 ==> |out| == if |xs| + n >= 0 then |xs| + n else 0
    ensures out == xs[..|out|]
  {
    if n >= 0 then (if n <= |xs| then xs[..n] else xs)
    else if |xs| + n >= 0 then xs[..|xs| + n] else []
  }

  /** `get_top_recommendations` over the results in insertion order. */
  function TopOf(rs: seq<StockResult>, n: int, signalType: string): seq<StockResult>
  {
    SliceTo(SortByConfidence(WithRecommendation(rs, signalType)), n)
  }

  /** The ranking keeps the first `n` matches of the best-first order (for a negative `n`, all
      but the last `-n`): every result has the requested recommendation and is taken from the
      results, confidence does not increase along it, and no match left out is more confident
      than one returned. */
  lemma TopProperties(rs: seq<StockResult>, n: int, signalType: string)
    ensures var top, m := TopOf(rs, n, signalType), WithRecommendation(rs, signalType);
      (n >= 0 ==> |top| == if n <= |m| then n else |m|) &&
      (n < 0 ==> |top| == if |m| + n >= 0 then |m| + n else 0) &&
      (forall r :: r in top ==> r in rs && SignalValue(r.recommendation) == signalType) &&
      ByConfidence(top) &&
      multiset(top) <= multiset(m) &&
      (forall x, y :: x in top && y in multiset(m) - multiset(top) ==> y.confidence <= x.confidence)
  {
    var matching := WithRecommendation(rs, signalType);
    WithRecommendationMembers(rs, signalType);
    var sorted := SortByConfidence(matching);
    var top := SliceTo(sorted, n);
    PrefixSorted(sorted, |top|);
    PrefixMultiset(sorted, |top|);
    PrefixBest(sorted, |top|);
    forall r | r in top
      ensures r in matching
    {
      assert r in multiset(top);
    }
  }

  /** A prefix of a list sorted by confidence is sorted by confidence. */
  lemma PrefixSorted(xs: seq<StockResult>, k: int)
    requires ByConfidence(xs) && 0 <= k <= |xs|
    ensures ByConfidence(xs[..k])
  {
    var p := xs[..k];
    forall i, j | 0 <= i < j < k
      ensures p[i].confidence >= p[j].confidence
    {
      assert p[i] == xs[i] && p[j] == xs[j];
    }
  }

  /** A prefix holds no entry more often than the whole list. */
  lemma PrefixMultiset<T>(xs: seq<T>, k: int)
    requires 0 <= k <= |xs|
    ensures multiset(xs[..k]) <= multiset(xs)
  {
    assert xs == xs[..k] + xs[k..];
  }

  /** Everything a prefix of a best-first list leaves out is at most as confident as everything
      it keeps. */
  lemma PrefixBest(xs: seq<StockResult>, k: int)
    requires ByConfidence(xs) && 0 <= k <= |xs|
    ensures forall x, y :: x in xs[..k] && y in multiset(xs) - multiset(xs[..k]) ==>
      y.confidence <= x.confidence
  {
    var p, q := xs[..k], xs[k..];
    assert xs == p + q;
    AppendMinusPrefix(p, q);
    forall x, y | x in p && y in multiset(xs) - multiset(p)
      ensures y.confidence <= x.confidence
    {
      assert y in multiset(q);
      LaterNotAbove(xs, k, x, y);
    }
  }

  /** An entry after position `k` of a best-first list is at most as confident as one before. */
  lemma LaterNotAbove(xs: seq<StockResult>, k: int, x: StockResult, y: StockResult)
    requires ByConfidence(xs) && 0 <= k <= |xs|
    requires x in xs[..k] && y in xs[k..]
    ensures y.confidence <= x.confidence
  {
    var i :| 0 <= i < k && xs[..k][i] == x;
    var j :| 0 <= j < |xs| - k && xs[k..][j] == y;
    assert xs[i] == x && xs[k + j] == y;
  }

  /** Taking away a list's first part leaves the entries of the rest. */
  lemma AppendMinusPrefix<T>(p: seq<T>, q: seq<T>)
    ensures multiset(p + q) - multiset(p) == multiset(q)
  {
  }

  /** With enough room, every matching result is returned, most confident first. */
  lemma TopKeepsAllMatches(rs: seq<StockResult>, n: int, signalType: string)
    requires n >= |WithRecommendation(rs, signalType)|
    ensures multiset(TopOf(rs, n, signalType)) == multiset(WithRecommendation(rs, signalType))
  {
    var sorted := SortByConfidence(WithRecommendation(rs, signalType));
    assert SliceTo(sorted, n) == sorted;
  }

  // ---------------------------------------------------------------------------
  // The coordinator object

  /** The results' keys, listed once each in the order they were first recorded (the order in
      which a Python dictionary yields its values). */
  ghost predicate OrderMatches(order: seq<string>, results: map<string, StockResult>)
  {
    Distinct(order) && forall s :: s in results <==> s in order
  }

  class AgentCoordinator {
    var agents: seq<Agent>
    const fetcher: DataFetcher
    var results: map<string, StockResult>
    var order: seq<string>

    ghost predicate Valid()
      reads this
    {
      AgentsValid(agents) && OrderMatches(order, results)
    }

    /** `AgentCoordinator(agents)`: the given agents (none when omitted), a fresh fetcher with an
        empty cache and no results. */
    constructor(agents: seq<Agent>)
      requires AgentsValid(agents)
      ensures Valid()
      ensures this.agents == agents && results == map[] && order == []
      ensures fresh(fetcher) && fetcher.cache == map[]
    {
      this.agents := agents;
      fetcher := new DataFetcher();
      results := map[];
      order := [];
    }

    /** The recorded results in insertion order. */
    function Values(): (vs: seq<StockResult>)
      requires Valid()
      reads this
      ensures |vs| == |order|
      ensures forall r :: r in vs <==> exists s :: s in results && results[s] == r
    {
      var order, results := this.order, this.results;
      var vs := seq(|order|, i requires 0 <= i < |order| => results[order[i]]);
      assert forall s :: s in results ==> exists i :: 0 <= i < |order| && order[i] == s && vs[i] == results[s];
      vs
    }

    method AddAgent(a: Agent)
      requires Valid() && a.strategy.Valid()
      modifies this
      ensures Valid()
      ensures agents == old(agents) + [a]
      ensures results == old(results) && order == old(order)
    {
      agents := agents + [a];
    }

    method RemoveAgent(name: string)
      requires Valid()
      modifies this
      ensures Valid()
      ensures agents == WithoutName(old(agents), name)
      ensures forall a :: a in agents <==> a in old(agents) && a.name != name
      ensures results == old(results) && order == old(order)
    {
      WithoutNameProperties(agents, name);
      agents := WithoutName(agents, name);
    }

    /** Records a result under its symbol; a new symbol goes to the end of the order. */
    method Record(symbol: string, r: StockResult)
      requires Valid()
      modifies this
      ensures Valid()
      ensures results == old(results)[symbol := r]
      ensures order == if symbol in old(results) then old(order) else old(order) + [symbol]
      ensures agents == old(agents)
    {
      if symbol !in results {
        order := order + [symbol];
      }
      results := results[symbol := r];
    }

    /** Every agent analyses the frame in order; each entry records the agent's answer and
        weight, and each agent stores its full analyses. */
    method RunAgents(symbol: string, frame: seq<Bar>, std: StdDev) returns (ss: seq<AgentSignal>)
      requires AgentsValid(agents)
      modifies agents
      ensures ss == SignalsOf(agents, frame, std)
      ensures forall a :: a in agents ==> a.signals == Stored(old(a.signals), a, symbol, frame, std)
    {
      ss := [];
      var i := 0;
      while i < |agents|
        invariant 0 <= i <= |agents|
        invariant ss == SignalsOf(agents[..i], frame, std)
        invariant forall a :: a in agents[..i] ==> a.signals == Stored(old(a.signals), a, symbol, frame, std)
        invariant forall a :: a in agents && a !in agents[..i] ==> a.signals == old(a.signals)
      {
        var a := agents[i];
        var an := a.Analyze(symbol, frame, std);
        ss := ss + [AgentSignal(a.name, an.signal, an.confidence, a.weight)];
        assert agents[..i + 1] == agents[..i] + [a];
        i := i + 1;
      }
      assert agents[..i] == agents;
    }

    /** `analyze_stock`. Without a frame the fetcher is asked for the default period and
        interval; if it has nothing, the failed result is returned and nothing is recorded.
        Otherwise the frame is analysed and the result recorded (`AnalyzeFrame`). */
    method AnalyzeStock(symbol: string, data: Option<seq<Bar>>, std: StdDev, download: Download)
      returns (r: StockResult)
      requires Valid()
      modifies this, fetcher, agents
      ensures Valid() && agents == old(agents) && r.symbol == symbol
      ensures data.Some? ==> fetcher.cache == old(fetcher.cache)
      ensures data.None? ==>
        fetcher.cache == Fetch(old(fetcher.cache), symbol, DEFAULT_PERIOD, DEFAULT_INTERVAL, false, download).cache
      ensures var frame := if data.Some? then data
                           else Fetch(old(fetcher.cache), symbol, DEFAULT_PERIOD, DEFAULT_INTERVAL, false, download).data;
        (frame.None? ==> r == FailedResult(symbol) && results == old(results) && order == old(order) &&
                         forall a :: a in agents ==> a.signals == old(a.signals)) &&
        (frame.Some? ==>
          r == ResultFor(symbol, agents, frame.value, std) &&
          results == old(results)[symbol := r] &&
          order == (if symbol in old(results) then old(order) else old(order) + [symbol]) &&
          forall a :: a in agents ==> a.signals == Stored(old(a.signals), a, symbol, frame.value, std))
    {
      var frame: seq<Bar>;
      if data.Some? {
        frame := data.value;
      } else {
        var fetched := fetcher.FetchData(symbol, DEFAULT_PERIOD, DEFAULT_INTERVAL, false, download);
        if fetched.None? {
          return FailedResult(symbol);
        }
        frame := fetched.value;
      }
      r := AnalyzeFrame(symbol, frame, std);
    }

    /** The part of `analyze_stock` after the data is at hand: every agent analyses the frame in
        order, the vote decides, and the result is recorded under the symbol. */
    method AnalyzeFrame(symbol: string, frame: seq<Bar>, std: StdDev) returns (r: StockResult)
      requires Valid()
      modifies this, agents
      ensures Valid() && agents == old(agents) && r.symbol == symbol
      ensures r == ResultFor(symbol, agents, frame, std)
      ensures results == old(results)[symbol := r]
      ensures order == if symbol in old(results) then old(order) else old(order) + [symbol]
      ensures forall a :: a in agents ==> a.signals == Stored(old(a.signals), a, symbol, frame, std)
    {
      var ss := RunAgents(symbol, frame, std);
      var g := AggregateSignals(ss);
      r := StockResult(symbol, g.signal, g.confidence, g.reason, ss,
                       if |frame| == 0 then None else Some(frame[|frame| - 1].close as real));
      Record(symbol, r);
    }

    /** `analyze_portfolio`: analyses each requested symbol (by default every constituent) with a
        fetched frame and maps each symbol to its result, failed fetches included. */
    method AnalyzePortfolio(symbols: Option<seq<string>>, std: StdDev, download: Download)
      returns (out: map<string, StockResult>)
      requires Valid()
      modifies this, fetcher, agents
      ensures Valid() && agents == old(agents)
      ensures forall s :: s in out <==> s in symbols.GetOr(SMI_SYMBOLS)
      ensures forall s :: s in out ==> out[s].symbol == s
      ensures forall s :: s in out ==> out[s] == FailedResult(s) || (s in results && results[s] == out[s])
      ensures old(results).Keys <= results.Keys
    {
      var requested := symbols.GetOr(SMI_SYMBOLS);
      out := AnalyzeEach(requested, std, download);
    }

    /** The loop of `analyze_portfolio`: every symbol in turn is analysed and its result stored
        under it, a repeated symbol overwriting the earlier entry. */
    method AnalyzeEach(requested: seq<string>, std: StdDev, download: Download)
      returns (out: map<string, StockResult>)
      requires Valid()
      modifies this, fetcher, agents
      ensures Valid() && agents == old(agents)
      ensures forall s :: s in out <==> s in requested
      ensures forall s :: s in out ==> out[s].symbol == s
      ensures forall s :: s in out ==> out[s] == FailedResult(s) || (s in results && results[s] == out[s])
      ensures old(results).Keys <= results.Keys
    {
      out := map[];
      var i := 0;
      while i < |requested|
        invariant 0 <= i <= |requested|
        invariant Valid() && agents == old(agents)
        invariant forall s :: s in out <==> s in requested[..i]
        invariant forall s :: s in out ==> out[s].symbol == s
        invariant forall s :: s in out ==> out[s] == FailedResult(s) || (s in results && results[s] == out[s])
        invariant old(results).Keys <= results.Keys
      {
        assert requested[..i + 1] == requested[..i] + [requested[i]];
        var r := AnalyzeStock(requested[i], None, std, download);
        out := out[requested[i] := r];
        i := i + 1;
      }
      assert requested[..i] == requested;
    }

    /** `get_top_recommendations(n, signal_type)` over the recorded results. */
    function GetTopRecommendations(n: int, signalType: string): (top: seq<StockResult>)
      requires Valid()
      reads this
      ensures var m := WithRecommendation(Values(), signalType);
        (n >= 0 ==> |top| == if n <= |m| then n else |m|) &&
        (forall x, y :: x in top && y in multiset(m) - multiset(top) ==> y.confidence <= x.confidence)
      ensures forall r :: r in top ==> SignalValue(r.recommendation) == signalType &&
                                       exists s :: s in results && results[s] == r
      ensures ByConfidence(top)
    {
      TopProperties(Values(), n, signalType);
      TopOf(Values(), n, signalType)
    }
  }
}
