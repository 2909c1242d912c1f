# Heidi and the Swiss trading agent: a Dafny model of the deterministic core

The repository holds two investment assistants. This model covers the deterministic logic of
each. Prices, correlation matrices, downloads and language-model judgments are inputs or
oracles. All arithmetic is over `real`.

**Heidi** analyses a list of tickers with language-model analysts, builds a portfolio and asks
a risk manager about it. The model covers:

- **Risk engine** (`RiskCalculations`, with `Drawdown`):
  - daily returns from a price frame;
  - weights aligned to the price columns and renormalised;
  - parametric VaR with the fixed z-table, and CVaR by tail selection;
  - maximum drawdown by running maximum;
  - annualised volatility and the Sharpe ratio;
  - the weighted pairwise-correlation diversification score, as the double loop that computes it;
  - the three-scenario stress test, as the loop that computes it;
  - the assembled assessment, with six metrics rounded to four decimals.
- **Revision gates and their nodes** (`RiskManager`, `ReportReviewer`):
  - `should_revise_portfolio` and `should_revise`, with the default limit of 2;
  - the two nodes' counter, feedback-line and prompt-log contract. The judge is a function
    argument.
- **Workflow state** (`State`): the state record, and the merge that concatenates the four
  annotated list fields and replaces every other field.
- **Graph** (`Graph`): the `map_tickers` fan-out and the wired edge list. That list is start →
  analysts → portfolio → end.
- **Retry loops** (`Workflow`): the graph does not wire the two gates. `Workflow` composes them
  into explicit retry loops and proves that those loops stop after at most the limit.
- **Schemas** (`Schemas`):
  - the closed enumerations;
  - `Metrics` with its optional figures and CHF default;
  - the 1..10 ESG scores;
  - the confidence range of an analyst report;
  - minimal versions of the risk and review records. The agents import these records, but
    `heidi/models/schemas.py` does not declare them.

**The Swiss trading agent** gives BUY/SELL/HOLD advice on SMI stocks from three rule-based
agents. The model covers:

- the three agents' indicators and decision cascades (`MomentumAgent`, `ValueAgent`,
  `RiskAgent`);
- the agent class, with its name, weight and per-symbol signal map (`Agents.Agent`);
- the coordinator (`Coordinator.AgentCoordinator`):
  - its agent list and results map;
  - the weighted vote with its 0.4 threshold;
  - the top-N selector;
- the SMI data fetcher and its keyed cache (`SmiData.DataFetcher`). The download is a function
  argument.

**Command-line front ends** (`Cli`): ticker-file filtering in `load_tickers`, and the
`--symbols` validation of the trading agent's entry point.

## Model

| member | source | states |
|---|---|---|
| RiskCalculations.PctRow | heidi/tools/risk_calculations.py:62 | each column's return r satisfies prev·(1+r) = cur |
| RiskCalculations.GetReturns | heidi/tools/risk_calculations.py:58-65 | an empty price frame gives the empty frame; otherwise the same columns and fewer rows than prices |
| RiskCalculations.ReturnRowsCount | heidi/tools/risk_calculations.py:62-64 | every day after the first yields a return row exactly when no earlier price is zero |
| RiskCalculations.ReturnRowsComplete | heidi/tools/risk_calculations.py:62-64 | with no zero price before the last day, the return rows are the day-to-day changes, in order |
| RiskCalculations.WeightDict | heidi/tools/risk_calculations.py:99 | `dict(zip(...))` holds exactly the tickers paired with a weight, up to the shorter list |
| RiskCalculations.WeightDictLastWins | heidi/tools/risk_calculations.py:99 | a ticker's stored weight is the one paired with its last occurrence |
| RiskCalculations.AlignWeights | heidi/tools/risk_calculations.py:100 | one weight per return column: 0 for a column without a weight, the ticker's weight otherwise |
| RiskCalculations.SumScale | heidi/tools/risk_calculations.py:107 | dividing every weight by c divides their sum by c |
| RiskCalculations.NormalizeWeights | heidi/tools/risk_calculations.py:104-110 | a result exists iff the total is > 0; it then sums to 1 and keeps every ratio (w'·total = w) |
| RiskCalculations.PortfolioReturns | heidi/tools/risk_calculations.py:84-117 | empty exactly when there are no prices, no returns or no positive aligned total; otherwise one weighted sum per return day |
| RiskCalculations.ZScoreTable | heidi/tools/risk_calculations.py:143-144 | z is positive and ordered 0.90 < 0.95 < 0.99; any other confidence gives 1.645 |
| RiskCalculations.ValueAtRisk | heidi/tools/risk_calculations.py:131-133 | fewer than two returns give 0 |
| RiskCalculations.VaRBounds | heidi/tools/risk_calculations.py:135-148 | VaR + mean = z·std, so VaR ≥ −mean; constant returns give VaR = −mean |
| RiskCalculations.VaRMonotoneInConfidence | heidi/tools/risk_calculations.py:143-147 | VaR at 90% ≤ VaR at 95% ≤ VaR at 99% |
| RiskCalculations.TailAtOrBelow | heidi/tools/risk_calculations.py:171 | no longer than the returns; every entry is ≤ threshold; each return ≤ threshold is kept as often as it occurs and no other is kept |
| RiskCalculations.TailAppend | heidi/tools/risk_calculations.py:171 | the boolean mask keeps the order: the tail of a concatenation is the concatenation of the tails |
| RiskCalculations.TailEmpty | heidi/tools/risk_calculations.py:173 | when every return is above the threshold the tail is empty |
| RiskCalculations.ConditionalVaR | heidi/tools/risk_calculations.py:164-165 | fewer than two returns give 0 |
| RiskCalculations.CVaRAtLeastVaR | heidi/tools/risk_calculations.py:164-178 | CVaR ≥ VaR always; CVaR = VaR when no return is ≤ −VaR |
| RiskCalculations.MaxDrawdown | heidi/tools/risk_calculations.py:193-194 | fewer than two returns give 0 |
| RiskCalculations.MaxDrawdownBounds | heidi/tools/risk_calculations.py:196-209 | when every return is > −1 the drawdown lies in [0, 1) |
| RiskCalculations.MaxDrawdownNoDecline | heidi/tools/risk_calculations.py:196-209 | a non-decreasing compounded value gives exactly 0 |
| RiskCalculations.MaxDrawdownIgnoresFirstLoss | heidi/tools/risk_calculations.py:197 | compounding starts after the first return, so [−0.5, 1.0] has drawdown 0 |
| RiskCalculations.Volatility | heidi/tools/risk_calculations.py:223-224 | fewer than two returns give 0 |
| RiskCalculations.VolatilityBounds | heidi/tools/risk_calculations.py:226-234 | volatility ≥ 0, and it is 0 iff the sample variance is 0 |
| RiskCalculations.SharpeRatio | heidi/tools/risk_calculations.py:251-252 | fewer than two returns give 0 |
| RiskCalculations.SharpeRelation | heidi/tools/risk_calculations.py:254-265 | 0 when the annual volatility is 0; otherwise sharpe·vol = 252·mean − rf, with the sign of the excess return |
| RiskCalculations.DiversificationScore | heidi/tools/risk_calculations.py:304-335 | the double loop over i < j computes the weighted-correlation specification |
| RiskCalculations.RowWeight | heidi/tools/risk_calculations.py:316-324 | a row's counted weight is ≥ 0, and > 0 iff some pair in it has a positive product |
| RiskCalculations.TotalWeight | heidi/tools/risk_calculations.py:315-324 | the total counted weight is ≥ 0, and > 0 iff some pair is counted |
| RiskCalculations.RowUniform | heidi/tools/risk_calculations.py:322-324 | if every counted correlation in a row is c, the row's weighted total is c·weight |
| RiskCalculations.TotalUniform | heidi/tools/risk_calculations.py:315-324 | the same over all rows |
| RiskCalculations.DiversificationBounds | heidi/tools/risk_calculations.py:304-335 | score in [0, 1]; 1 for fewer than two tickers or no counted pair; otherwise clamp(1 − weighted average, 0, 1) |
| RiskCalculations.DiversificationExtremes | heidi/tools/risk_calculations.py:326-335 | all counted correlations 1 give 0; all 0 give 1 |
| RiskCalculations.ScenarioEntry | heidi/tools/risk_calculations.py:374-423 | at most one result per scenario |
| RiskCalculations.StressUpTo | heidi/tools/risk_calculations.py:374 | the first k scenarios give at most k results |
| RiskCalculations.ScenarioTotals | heidi/tools/risk_calculations.py:400-411 | the column loop accumulates the weighted window returns and the counted weight |
| RiskCalculations.RunStressTests | heidi/tools/risk_calculations.py:338-425 | the scenario loop computes the stress specification |
| RiskCalculations.StressProperties | heidi/tools/risk_calculations.py:354-419 | at most 3 results in catalogue order; a scenario has one iff its window has data and counted weight > 0; its impact is round4(Σ w·(end − start)/start), not renormalised |
| RiskCalculations.FullRiskAssessment | heidi/tools/risk_calculations.py:428-467 | the assembly computes the assessment specification |
| RiskCalculations.FullRiskBounds | heidi/tools/risk_calculations.py:446-453 | after rounding: CVaR ≥ VaR, volatility ≥ 0, diversification in [0, 1], at most 3 stress results, period "2y", timestamp = now; drawdown in [0, 1] when every return is > −1 |
| Drawdown.CumProd | heidi/tools/risk_calculations.py:197 | element i is the product of (1 + r) over the first i + 1 returns |
| Drawdown.MaxOf | heidi/tools/risk_calculations.py:200 | the maximum is an element and bounds every element |
| Drawdown.RunningMax | heidi/tools/risk_calculations.py:200 | element i is the maximum of the first i + 1 values |
| Drawdown.Drawdowns | heidi/tools/risk_calculations.py:203 | one drawdown per return |
| Drawdown.MinDefined | heidi/tools/risk_calculations.py:206 | the minimum is one of the defined drawdowns and bounds them all; absent iff none is defined |
| Drawdown.GrowthPositive | heidi/tools/risk_calculations.py:197 | returns above −1 keep the compounded value positive |
| Drawdown.RelativeDropBounds | heidi/tools/risk_calculations.py:203 | a value in (0, peak] is below its peak by a fraction in (−1, 0] |
| Drawdown.DrawdownsBounded | heidi/tools/risk_calculations.py:197-203 | returns above −1 make every drawdown defined and in (−1, 0] |
| Drawdown.DrawdownMinBounded | heidi/tools/risk_calculations.py:206 | ... so the deepest one is defined and in (−1, 0] |
| Drawdown.NonDecreasingNoDrawdown | heidi/tools/risk_calculations.py:199-206 | a never-falling compounded value has no negative drawdown |
| Common.SumAppend | heidi/tools/risk_calculations.py:105 | the sum of a concatenation is the sum of its parts |
| Common.SumUpperBound | heidi/tools/risk_calculations.py:105 | elements ≤ b give a sum ≤ n·b |
| Common.SumLowerBound | heidi/tools/risk_calculations.py:105 | elements ≥ b give a sum ≥ n·b |
| Common.MeanUpperBound | heidi/tools/risk_calculations.py:135 | elements ≤ b give a mean ≤ b |
| Common.MeanLowerBound | heidi/tools/risk_calculations.py:135 | elements ≥ b give a mean ≥ b |
| Common.ConstantMean | heidi/tools/risk_calculations.py:135 | a constant series has that constant as its mean |
| Common.ConstantVarianceIsZero | heidi/tools/risk_calculations.py:136 | a constant series has sample variance 0 |
| Common.ConstantStdIsZero | heidi/tools/risk_calculations.py:136 | ... and standard deviation 0 |
| Common.Clamp | heidi/tools/risk_calculations.py:335 | the result lies in [lo, hi] and equals x when x does |
| Common.RoundHalfEven | heidi/tools/risk_calculations.py:447 | the integer is within ½ of its argument |
| Common.Round4Error | heidi/tools/risk_calculations.py:447-452 | rounding moves a value by at most 0.00005 |
| Common.Round4Monotone | heidi/tools/risk_calculations.py:447-452 | rounding preserves order |
| Common.Round4Exact | heidi/tools/risk_calculations.py:447-452 | a value with four decimals is unchanged |
| Common.Round4Within | heidi/tools/risk_calculations.py:447-452 | a value in [lo, hi] with four-decimal ends stays in [lo, hi] |
| Common.Take | heidi/agents/risk_manager.py:144 | `s[:n]` is the prefix of length min(n, len(s)) |
| Common.ContainsAt | heidi/agents/report_reviewer.py:160 | `sub in s` holds iff sub occurs at some position |
| Common.ContainsMiddle | heidi/agents/report_reviewer.py:160 | a + sub + b contains sub |
| Common.IntToString | heidi/agents/risk_manager.py:202 | the decimal text of an int is non-empty |
| RiskManager.RiskNote | heidi/agents/risk_manager.py:199-205 | the note is non-empty iff the count is > 0, and then names "revision #count" |
| RiskManager.AllocationTickers | heidi/agents/risk_manager.py:45 | one ticker per allocation, in order |
| RiskManager.AllocationWeights | heidi/agents/risk_manager.py:46 | one weight per allocation, in order |
| RiskManager.StressResults | heidi/agents/risk_manager.py:87-90 | stress entries map one for one, in order |
| RiskManager.RiskManagerNode | heidi/agents/risk_manager.py:21-152 | the node returns the pass's update |
| RiskManager.Assess | heidi/agents/risk_manager.py:45-101 | the assessment holds the engine's metrics and stress results for the allocations' tickers and weights, and the model's verdict, concerns and feedback on the request built from them |
| RiskManager.RiskManagerPass | heidi/agents/risk_manager.py:37-152 | the engine gets the allocation tickers and weights; metrics come from it and its stress entries become the stored stress results one for one, in order; decision/concerns/feedback from the judgment; the counter is the old one + 1; one feedback line and one log entry |
| RiskManager.RiskNoteInRequest | heidi/agents/risk_manager.py:60 | the request carries the revision note iff risk_revision_count > 0 |
| RiskManager.PassEffects | heidi/agents/risk_manager.py:147-152 | merging a pass sets the assessment, appends exactly one feedback line and one log entry, and leaves reports, review feedback and revision_count alone |
| RiskManager.AssessmentBounds | heidi/agents/risk_manager.py:76-84 | the stored metrics keep the engine's bounds |
| RiskManager.RiskFeedbackShape | heidi/agents/risk_manager.py:135-145 | a rejection line starts "[RISK REVISION REQUIRED]\nConcerns: " + concerns joined by ", " + "\nFeedback: " and ends with the feedback verbatim; an approval starts "[RISK APPROVED] " + feedback[:100] is at most 119 characters long |
| RiskManager.ShouldRevisePortfolioCases | heidi/agents/risk_manager.py:260-281 | false without an assessment or once the counter reaches the limit; otherwise true iff the decision is NEEDS_REVISION |
| RiskManager.GateAfterPass | heidi/agents/risk_manager.py:150 | after a pass the gate follows its verdict below the limit; from counter 1 with the default limit it is closed |
| ReportReviewer.ReviewNote | heidi/agents/report_reviewer.py:115-117 | the note is non-empty iff the count is > 0, and then names "revision #count" |
| ReportReviewer.ReviewerNode | heidi/agents/report_reviewer.py:14-83 | the loop over reports returns the pass's update |
| ReportReviewer.ReviewerPass | heidi/agents/report_reviewer.py:34-83 | one feedback line and one log entry per report, in report order; revision_count + 1; reports and risk fields unchanged |
| ReportReviewer.NeedsRevisionLineTriggers | heidi/agents/report_reviewer.py:70-75 | a rejected report's line contains "NEEDS REVISION" |
| ReportReviewer.ApprovedLineCanTrigger | heidi/agents/report_reviewer.py:76-77 | an approved line whose kept feedback holds the phrase also contains it |
| ReportReviewer.AnyContains | heidi/agents/report_reviewer.py:160 | true iff some line contains the phrase |
| ReportReviewer.ShouldRevise | heidi/agents/report_reviewer.py:150-167 | false once revision_count reaches the limit; otherwise true iff some feedback line contains "NEEDS REVISION" |
| ReportReviewer.StickyRevision | heidi/agents/report_reviewer.py:151-160 | a NEEDS REVISION line keeps the gate open after any later updates, while the counter stays below the limit |
| ReportReviewer.RejectionOpensGate | heidi/agents/report_reviewer.py:70-81 | a pass that sends some report back opens the gate unless the counter has reached the limit |
| State.OrDefault | heidi/agents/risk_manager.py:38 | `x or default`: the value when present and non-empty, the default otherwise |
| State.MergeAllList | heidi/models/state.py:8-18 | a list field that every merge extends by the update's entries ends up as the original followed by all updates' entries, in order |
| State.MergeAllLists | heidi/models/state.py:8-18 | after any updates, each list field is the original followed by every appended entry, in order |
| State.MergeAllReplaced | heidi/models/state.py:9-19 | after any updates, each plain field holds the latest value set |
| State.CountersIndependent | heidi/models/state.py:14-19 | an update that does not set a counter leaves it unchanged; one that does replaces it |
| State.InitialState | cli/main.py:87-92 | tickers, empty reports and the model fields are set; both counters read 0 and no list has entries |
| Graph.MapTickersDispatch | heidi/graph.py:9-20 | one dispatch per ticker, in state order, each to "analyst_node" with the state's model fields; none for no tickers |
| Graph.DispatchedPrefix | heidi/graph.py:19 | the dispatched tickers follow the tickers list |
| Graph.SuccessorsUnfold | heidi/graph.py:31-36 | the successors of a node, edge by edge |
| Graph.WiredChain | heidi/graph.py:22-44 | start → analyst_node → portfolio_node → end is the whole graph; no reviewer or risk node is wired |
| Schemas.ParseRecommendation | heidi/models/schemas.py:5-10 | a parsed value has exactly that string |
| Schemas.RecommendationClosed | heidi/models/schemas.py:5-10 | exactly five distinct values; each string parses back; nothing else parses |
| Schemas.MetricsFromFields | heidi/models/schemas.py:12-22 | absent figures are None; the currency defaults to "CHF" |
| Schemas.FromPairsDomain | heidi/models/schemas.py:12-22 | only the given keys are present |
| Schemas.LookupFromPairs | heidi/models/schemas.py:12-22 | with distinct keys, each key finds its own value |
| Schemas.MetricsRoundTrip | heidi/models/schemas.py:12-22 | serialising by alias and rebuilding gives the same metrics |
| Schemas.ParseESGRating | heidi/models/schemas.py:25-29 | a parsed rating has exactly that string |
| Schemas.ESGRatingRoundTrip | heidi/models/schemas.py:25-29 | every rating parses back from its string |
| Schemas.MakeESGMetrics | heidi/models/schemas.py:32-39 | accepted iff every given score is in 1..10; the rating defaults to N/A |
| Schemas.DefaultESGMetrics | heidi/models/schemas.py:35 | the all-default record is valid and rated "N/A" |
| Schemas.MakeAnalystReport | heidi/models/schemas.py:41-53 | accepted iff confidence is in [0, 1] and any nested ESG record is valid; esg_assessment defaults to "" |
| Schemas.DefaultLimits | heidi/agents/risk_manager.py:262 | with no key in the default config both limits are 2 |
| Workflow.RiskRetryLoop | heidi/agents/risk_manager.py:261-281 | re-running the risk manager while the gate is open stops: 1 ≤ passes ≤ the limit bound, the counter grows by passes, one feedback line per pass, the gate is closed at the end, ≤ 2 passes from a fresh state |
| Workflow.ReviewRetryLoop | heidi/agents/report_reviewer.py:150-167 | the same for the reviewer: |reports| lines per pass, the counter grows by passes, the gate is closed at the end, ≤ 2 passes from a fresh state |
| TradingSignals.Closes | swiss_trading_agent/agents/momentum_agent.py:55 | one positive close per bar, in order |
| TradingSignals.PctChanges | swiss_trading_agent/agents/risk_agent.py:46 | n − 1 changes with c[i]·(1 + r[i]) = c[i+1] |
| TradingSignals.PctChangesAboveMinusOne | swiss_trading_agent/agents/risk_agent.py:46 | changes between positive closes are > −1 |
| MomentumAgent.Sma | swiss_trading_agent/agents/momentum_agent.py:48-49 | defined iff 1 ≤ w ≤ n; then w·SMA is the sum of the last w closes |
| MomentumAgent.SmaWithinWindow | swiss_trading_agent/agents/momentum_agent.py:48-49 | the SMA lies between any bounds on its window |
| MomentumAgent.Roc | swiss_trading_agent/agents/momentum_agent.py:52 | defined iff there are more than 10 closes; then c[t−10]·(1 + roc/100) = c[t] |
| MomentumAgent.RocSign | swiss_trading_agent/agents/momentum_agent.py:52 | ROC > 0 iff the close rose over 10 rows, < 0 iff it fell |
| MomentumAgent.MomentumDecision | swiss_trading_agent/agents/momentum_agent.py:61-88 | BUY iff up-trend and roc > 0, confidence min(0.9, 0.5 + roc/20) in (0.5, 0.9]; SELL symmetrically; HOLD 0.6 for a trend against its ROC, else 0.5 |
| MomentumAgent.MomentumAnalysisProperties | swiss_trading_agent/agents/momentum_agent.py:40-102 | fewer than long_window rows give HOLD 0.0; otherwise the cascade over the last close and SMAs, confidence in [0, 1] |
| MomentumAgent.FlatSeriesHolds | swiss_trading_agent/agents/momentum_agent.py:65-88 | a constant price series gives HOLD 0.5 |
| ValueAgent.ZScoreMeaning | swiss_trading_agent/agents/value_agent.py:46-53 | z·std = current − mean when std > 0, with its sign; a constant window gives 0 |
| ValueAgent.CountBelowAtMost | swiss_trading_agent/agents/value_agent.py:56 | at most window-length closes are below |
| ValueAgent.PercentileBounds | swiss_trading_agent/agents/value_agent.py:56 | with the current close in the window the percentile lies in [0, 100) |
| ValueAgent.TrueRanges | swiss_trading_agent/agents/value_agent.py:59-62 | one true range per row |
| ValueAgent.TrueRangeIsMax | swiss_trading_agent/agents/value_agent.py:59-62 | TR = max(H − L, |H − prevC|, |L − prevC|) |
| ValueAgent.AverageTrueRangeNonnegative | swiss_trading_agent/agents/value_agent.py:63 | with H ≥ L the ATR is ≥ 0 |
| ValueAgent.ValueDecision | swiss_trading_agent/agents/value_agent.py:65-95 | BUY iff z < −0.5, SELL iff z > 0.5; min(0.9, 0.5 + |z|/4) beyond ±1.5, 0.6 between, HOLD 0.5 |
| ValueAgent.ValueAnalysisProperties | swiss_trading_agent/agents/value_agent.py:38-110 | fewer than lookback rows give HOLD 0.0; otherwise the z cascade, confidence in [0, 1] |
| RiskAgent.RiskDecision | swiss_trading_agent/agents/risk_agent.py:65-107 | first match wins: vol > max SELL 0.7; drawdown < −0.2 SELL 0.8; recent > 1.5·medium SELL 0.6; BUY 0.7 or 0.6 by Sharpe; HOLD 0.7 or 0.5 |
| RiskAgent.AgentSharpe | swiss_trading_agent/agents/risk_agent.py:62-63 | sharpe·vol = 252·mean when vol > 0, with the mean's sign; 0 when vol ≤ 0 |
| RiskAgent.AgentMaxDrawdown | swiss_trading_agent/agents/risk_agent.py:52-55 | the minimum relative drop is in (−1, 0], not negated |
| RiskAgent.Returns | swiss_trading_agent/agents/risk_agent.py:46 | n − 1 returns, each > −1 |
| RiskAgent.RiskFromReturnsProperties | swiss_trading_agent/agents/risk_agent.py:46-122 | the indicators are the whole-series annual volatility, a drawdown in (−1, 0], the Sharpe ratio of `AgentSharpe` and the 20-return volatility; confidence in [0.5, 0.8] |
| RiskAgent.RiskAnalysisProperties | swiss_trading_agent/agents/risk_agent.py:38-43 | fewer than 30 rows give HOLD 0.0; otherwise the analysis of the returns |
| RiskAgent.RiskVolatilityNonnegative | swiss_trading_agent/agents/risk_agent.py:49 | the reported volatility is ≥ 0, and 0 iff the daily returns do not vary |
| Agents.AnalysisInRange | swiss_trading_agent/agents/base_agent.py:28-44 | every agent's confidence is in [0, 1]; a short frame gives HOLD 0.0 without indicators |
| Agents.Agent.Momentum | swiss_trading_agent/agents/momentum_agent.py:16-27 | name "MomentumAgent", the given weight and windows, empty signals |
| Agents.Agent.Value | swiss_trading_agent/agents/value_agent.py:16-27 | name "ValueAgent", the given weight and lookback, empty signals |
| Agents.Agent.Risk | swiss_trading_agent/agents/risk_agent.py:16-25 | name "RiskAgent", the given weight and max volatility, empty signals |
| Agents.Agent.GetSignal | swiss_trading_agent/agents/base_agent.py:46-48 | the stored analysis for the symbol, or None iff there is none |
| Agents.Agent.ClearSignals | swiss_trading_agent/agents/base_agent.py:50-52 | the signals map becomes empty |
| Agents.Agent.Analyze | swiss_trading_agent/agents/momentum_agent.py:29-102 | returns the strategy's analysis; stores it under the symbol only on the full path; confidence in [0, 1] |
| Coordinator.Voters | swiss_trading_agent/coordinator.py:150 | at most one name per signal |
| Coordinator.VotersMembers | swiss_trading_agent/coordinator.py:150 | a name is listed exactly when some signal of that agent is the one voted for |
| Coordinator.VotersAppend | swiss_trading_agent/coordinator.py:150 | the names keep the agents' order: the voters of a concatenation are the voters of each part in turn |
| Coordinator.AggregateSignals | swiss_trading_agent/coordinator.py:106-166 | the accumulator loop computes the vote specification |
| Coordinator.AggregateCases | swiss_trading_agent/coordinator.py:130-160 | BUY iff buy > sell and buy > 0.4 (confidence buy); SELL symmetrically; otherwise HOLD with 1 − max |
| Coordinator.RawScoresBounds | swiss_trading_agent/coordinator.py:130-138 | with weights ≥ 0 and confidences in [0, 1], 0 ≤ buy + sell ≤ total |
| Coordinator.AggregateBounds | swiss_trading_agent/coordinator.py:118-160 | no signals give HOLD 0.0; the confidence is in [0, 1]; BUY or SELL only with a score above 0.4; signals with zero total weight give HOLD 1.0 |
| Coordinator.ScoreNeedsVoter | swiss_trading_agent/coordinator.py:134-138 | a non-zero buy or sell score has a voter |
| Coordinator.DecisionHasVoters | swiss_trading_agent/coordinator.py:147-155 | a BUY or SELL decision names at least one agent |
| Coordinator.UnanimousScores | swiss_trading_agent/coordinator.py:130-138 | all agents voting BUY with confidence c give buy = c·total and sell = 0 |
| Coordinator.UnanimousBuy | swiss_trading_agent/coordinator.py:147-151 | a unanimous BUY above 0.4 gives BUY with confidence c and every agent named |
| Coordinator.SignalsOf | swiss_trading_agent/coordinator.py:59-68 | one signal per agent, in agent order |
| Coordinator.SignalsWellFormed | swiss_trading_agent/coordinator.py:59-71 | agents' signals have confidences in [0, 1], so the aggregate does too |
| Coordinator.WithoutName | swiss_trading_agent/coordinator.py:33 | the kept agents are at most as many |
| Coordinator.WithoutNameProperties | swiss_trading_agent/coordinator.py:33 | an agent is kept iff it was there and has another name; the filter distributes over concatenation |
| Coordinator.WithoutNameAppend | swiss_trading_agent/coordinator.py:33 | filtering a concatenation filters each part, so order is kept |
| Coordinator.WithRecommendation | swiss_trading_agent/coordinator.py:179-182 | no more results than were given |
| Coordinator.WithRecommendationMembers | swiss_trading_agent/coordinator.py:179-182 | exactly the results with the requested recommendation are kept |
| Coordinator.InsertByConfidence | swiss_trading_agent/coordinator.py:184-188 | insertion keeps non-increasing confidence and adds exactly one element |
| Coordinator.SortByConfidence | swiss_trading_agent/coordinator.py:184-188 | non-increasing confidence, and a permutation |
| Coordinator.SliceTo | swiss_trading_agent/coordinator.py:190 | `xs[:n]` as a prefix, with Python's lengths for negative n |
| Coordinator.TopProperties | swiss_trading_agent/coordinator.py:179-190 | exactly min(n, #matches) results for n ≥ 0 (and #matches + n, at least 0, for negative n, as the slice does), all of the requested type and taken from the results, non-increasing confidence, a sub-multiset of the matches, and no left-out match more confident than a returned one |
| Coordinator.PrefixBest | swiss_trading_agent/coordinator.py:184-190 | a prefix of a best-first list keeps entries at least as confident as every entry it leaves out |
| Coordinator.TopKeepsAllMatches | swiss_trading_agent/coordinator.py:179-190 | with n at least the match count, every match is returned |
| Coordinator.AgentCoordinator.constructor | swiss_trading_agent/coordinator.py:16-25 | the given agents, a new fetcher with an empty cache, no results |
| Coordinator.AgentCoordinator.Values | swiss_trading_agent/coordinator.py:179-182 | exactly the stored results, one per key |
| Coordinator.AgentCoordinator.AddAgent | swiss_trading_agent/coordinator.py:27-29 | appends exactly the agent; results unchanged |
| Coordinator.AgentCoordinator.RemoveAgent | swiss_trading_agent/coordinator.py:31-33 | drops every agent with the name and keeps the rest in order |
| Coordinator.AgentCoordinator.Record | swiss_trading_agent/coordinator.py:82 | stores under the symbol; other keys unchanged |
| Coordinator.AgentCoordinator.RunAgents | swiss_trading_agent/coordinator.py:59-68 | one signal per agent in order; each agent's map updated as its analyse does |
| Coordinator.AgentCoordinator.AnalyzeStock | swiss_trading_agent/coordinator.py:35-83 | fetches with period "1y", interval "1d" and no forced refresh when no frame is given; a failed fetch gives HOLD 0.0 and records nothing; otherwise the aggregated result is recorded under the symbol and each agent stores its signal for it |
| Coordinator.AgentCoordinator.AnalyzeFrame | swiss_trading_agent/coordinator.py:58-83 | the result is the weighted vote over the agents' signals in order, with the last close as price; it is recorded under the symbol, and each agent with enough rows stores its analysis |
| Coordinator.AgentCoordinator.AnalyzePortfolio | swiss_trading_agent/coordinator.py:85-104 | one result per requested symbol (default all SMI), keyed by its own symbol; each is either the failure result or the one now recorded under that symbol; no recorded symbol is dropped |
| Coordinator.AgentCoordinator.AnalyzeEach | swiss_trading_agent/coordinator.py:98-104 | one result per requested symbol, keyed by its own symbol; each is either the failure result or the one now recorded under that symbol; no recorded symbol is dropped |
| Coordinator.AgentCoordinator.GetTopRecommendations | swiss_trading_agent/coordinator.py:168-190 | exactly min(n, #matches) stored results of the requested type for n ≥ 0, in non-increasing confidence, with no left-out match more confident than a returned one |
| SmiData.Table | swiss_trading_agent/data/smi_data.py:17-38 | the keys are exactly the symbols |
| SmiData.TableOfDistinct | swiss_trading_agent/data/smi_data.py:17-38 | distinct symbols give one entry each, with its own name |
| SmiData.SymbolsDistinct | swiss_trading_agent/data/smi_data.py:17-38 | the 20 SMI symbols are distinct |
| SmiData.SmiStocks | swiss_trading_agent/data/smi_data.py:17-38 | 20 entries, each symbol with its company name |
| SmiData.SameSuffixSameSymbol | swiss_trading_agent/data/smi_data.py:72 | same period and interval: equal keys mean equal symbols |
| SmiData.SplitAtSeparator | swiss_trading_agent/data/smi_data.py:72 | a + "_" + r splits uniquely when a has no "_" |
| SmiData.CacheKeyInjective | swiss_trading_agent/data/smi_data.py:72 | without "_" in symbol and period the key determines all three parts |
| SmiData.CacheKeyCollision | swiss_trading_agent/data/smi_data.py:72 | with "_" in them, two different requests share a key |
| SmiData.FetchProperties | swiss_trading_agent/data/smi_data.py:72-91 | a cache hit without force_refresh returns the cached data with the cache unchanged; an empty or failed download gives None with the cache unchanged; a success stores under its key only; a cache of non-empty frames stays so, and returned data is non-empty |
| SmiData.ForcedRefreshIgnoresCache | swiss_trading_agent/data/smi_data.py:74 | a forced refresh returns the same data whatever the cache |
| SmiData.FetchAllMeaning | swiss_trading_agent/data/smi_data.py:110-119 | a symbol is in the results iff requested and its key was cached or its download succeeded |
| SmiData.DataFetcher.constructor | swiss_trading_agent/data/smi_data.py:40-42 | an empty cache |
| SmiData.DataFetcher.GetStocks | swiss_trading_agent/data/smi_data.py:44-51 | 20 entries, keyed by exactly the SMI symbols |
| SmiData.DataFetcher.FetchData | swiss_trading_agent/data/smi_data.py:53-91 | the returned data and new cache are those of the fetch specification |
| SmiData.DataFetcher.FetchMultiple | swiss_trading_agent/data/smi_data.py:93-119 | the loop computes the fetch-all specification over the requested symbols (default all SMI) |
| SmiData.DataFetcher.ClearCache | swiss_trading_agent/data/smi_data.py:139-141 | the cache becomes empty |
| Cli.StripStart | cli/main.py:31 | no longer, and the result does not start with white space (every character for which `str.isspace()` holds, the separators 0x1C–0x1F and the Unicode spaces included) |
| Cli.StripEnd | cli/main.py:31 | no longer, and the result does not end with white space |
| Cli.StripEndRemovesSpace | cli/main.py:31 | rstrip keeps a prefix and removes only white space |
| Cli.StripStartRemovesSpace | cli/main.py:31 | lstrip keeps a suffix and removes only white space |
| Cli.StripMeaning | cli/main.py:31 | strip keeps a stretch of the line with no white space at either end; everything cut is white space |
| Cli.StripIdempotent | cli/main.py:31 | stripping twice is stripping once |
| Cli.SeparatorStripped | cli/main.py:31 | a line "\x1cAAPL\n" strips to "AAPL" |
| Cli.Tickers | cli/main.py:31 | at most one ticker per line |
| Cli.LoadTickers | cli/main.py:26-31 | a missing file is an error "Ticker file not found: path", and only a missing file is |
| Cli.TickersAppend | cli/main.py:31 | the tickers of concatenated lines are concatenated, so file order is kept |
| Cli.TickersStripped | cli/main.py:31 | every ticker is non-empty and already stripped |
| Cli.TickersFromKeptLines | cli/main.py:31 | every kept line gives its stripped form, and every ticker comes from a kept line |
| Cli.CommentOnlyAtLineStart | cli/main.py:31 | "#x" is dropped, while " #x" is kept as the stripped "#x" |
| Cli.ValidSymbols | main.py:79-82 | no more symbols than were given |
| Cli.ValidSymbolsMembers | main.py:79-82 | the kept symbols are exactly the given symbols found in the SMI map |
| Cli.Warnings | main.py:83-84 | at most one warning per given symbol |
| Cli.EachSymbolAccounted | main.py:80-84 | every symbol is either kept or warned about, and each invalid one is warned about |
| Cli.SelectionMeaning | main.py:77-89 | a selection is made iff some given symbol is valid; it then lists only SMI symbols |
| Cli.SelectSymbols | main.py:77-89 | the loop keeps the valid symbols in order with one warning per invalid one; None when none are given or none are valid |

## Left out

- Market data I/O is left out. This covers the price and scenario downloads, the correlation
  matrix download, `heidi/tools/market_data.py` and `get_current_price`. Price frames, scenario
  windows and correlation matrices are parameters, and the trading agent's download is a
  function argument.
- Floating point is left out: the model is over `real`. IEEE rounding, NaN and infinity are not
  modelled. In particular:
  - a NaN drawdown point, where the running maximum is zero, is skipped as pandas skips it;
  - `round(x, 4)` is round-half-even on exact reals;
  - √252 is the double constant.
- The sample standard deviation is an argument. Its defining property (std ≥ 0 and
  std² = sample variance) is a precondition wherever a lemma needs it.
- Language-model calls, prompt text and the log text are left out. The judges are function
  arguments, and a prompt-log entry keeps only its agent label. `datetime.now()` is a string
  argument.
- The analysts, the portfolio manager and the sector analyst are left out. They are LLM-driven,
  so their output appears only as state fields. `src/` is an older copy of the graph and the
  schemas.
- The model has no concurrency: the per-ticker fan-out is one dispatch per ticker. Graph
  compilation and PNG drawing are left out.
- The graph does not wire the reviewer or risk nodes. `Workflow` composes the gates into retry
  loops as an illustration of their contract; this composition is not in the source.
- Printing, `print_analysis`, `save_output` and the markdown summary are left out, as are
  console and logging output and the warning text. The warnings that `--symbols` prints are
  returned as strings.
- The agents' `reason` strings quote formatted floats, so they are not modelled: an analysis
  and an agent's entry in a result carry no reason. The coordinator's own reasons are modelled.
- The agents add indicator columns to the caller's frame in place. The model works on a copy
  instead, which is what the coordinator passes (`data.copy()`).
- Agents.Agent.Momentum: windows of 0 rows are excluded (`long_window >= 1`), because pandas'
  rolling window of size 0 is not modelled.
- Agents.Agent.Value: a lookback of 0 rows is excluded, because the mean of an empty window is
  NaN.
- Prices are positive (`Price`). Division by a zero close, with the infinite returns it
  produces, is not modelled in the trading agent.
- SmiData.DataFetcher.GetStocks: the map is an immutable value, so "a fresh copy" holds
  trivially and aliasing is not modelled.
- SmiData.CacheKeyInjective: it holds only when the symbol and period contain no "_"; the
  source has no such guard, and `CacheKeyCollision` exhibits the shared key.
- RiskManager.RiskManagerNode: the node requires a portfolio in the state. The source reads
  `state["portfolio"]` and its allocations without a check and raises KeyError or
  AttributeError when there is none; that crash is not modelled, and neither are the other
  risk-manager members on a state without a portfolio.
- Coordinator.AgentCoordinator.GetTopRecommendations: Python's `sorted` is stable. The model
  proves the length, non-increasing confidence, that the kept matches are the most confident
  ones and a sub-multiset of the matches (all of them when n is at least the match count), but
  not which of several equally confident matches are kept, nor their order.
- Coordinator.AgentCoordinator.constructor: the `agents or []` list is shared with the caller
  in the source. In the model it is a value.
